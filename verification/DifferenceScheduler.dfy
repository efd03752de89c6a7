/** When MainWidget asks the server for a difference: two tables of deadlines (after a pts gap or
    a short poll, and after a failed request), each with a slot for the main stream and one entry
    per channel, and one single-shot timer per table. */
module DifferenceScheduler {
  import opened OrderedKeys
  import opened Options

  type Channel = nat

  datatype Timer = Idle | Due(at: int)
  datatype From = Unknown | PtsGapOrShortPoll | AfterFail

  /** One table of deadlines.  `main` is 0 when the main stream has none. */
  datatype Deadlines = Deadlines(main: int, channels: map<Channel, int>) {
    function All(): set<int> {
      channels.Values + if main == 0 then {} else {main}
    }

    /** What a recompute arms: the earliest deadline, or nothing. */
    function Earliest(): Timer {
      if All() == {} then Idle else Due(Min(All()))
    }

    ghost predicate CoveredBy(t: Timer) {
      forall d :: d in All() ==> t.Due? && t.at <= d
    }

    /** getDifferenceTimeChanged: the table afterwards, and whether it changed. */
    function Changed(channel: Option<Channel>, ms: int, now: int): (Deadlines, bool) {
      match channel
      case None =>
        if ms <= 0 then (this.(main := 0), main != 0)
        else if main == 0 || main > now + ms then (this.(main := now + ms), true)
        else (this, false)
      case Some(c) =>
        if ms <= 0 then (this.(channels := channels - {c}), c in channels)
        else if c !in channels || channels[c] > now + ms then (this.(channels := channels[c := now + ms]), true)
        else (this, false)
    }
  }

  datatype State = State(
    byPts: Deadlines,
    afterFail: Deadlines,
    byPtsTimer: Timer,
    failTimer: Timer,
    requesting: bool,                 // _ptsWaiter.requesting()
    inited: set<Channel>,             // channel->ptsInited()
    channelRequesting: set<Channel>,  // channel->ptsRequesting()
    timeout: int,                     // _failDifferenceTimeout
    channelTimeout: map<Channel, int>,
    inFlight: nat,                    // main-stream requests without an answer
    channelInFlight: multiset<Channel>,
    lost: bool)                       // a main-stream answer came that was neither a state nor a failure

  // ---------------------------------------------------------------- transition functions

  function AskMain(s: State): State {
    var s1 := s.(byPts := s.byPts.(main := 0));
    if s.requesting then s1
    else s1.(afterFail := s.afterFail.(main := 0), requesting := true, inFlight := s.inFlight + 1)
  }

  predicate CanRequest(s: State, c: Channel) {
    c in s.inited && c !in s.channelRequesting
  }

  function AskChannel(s: State, c: Channel, from: From): State {
    var s1 := if from != PtsGapOrShortPoll then s.(byPts := s.byPts.(channels := s.byPts.channels - {c})) else s;
    if !CanRequest(s, c) then s1
    else
      var s2 :=
        if from != AfterFail then s1.(afterFail := s.afterFail.(channels := s.afterFail.channels - {c})) else s1;
      s2.(channelRequesting := s.channelRequesting + {c}, channelInFlight := s.channelInFlight + multiset{c})
  }

  function Expired(m: map<Channel, int>, now: int): set<Channel> {
    set c | c in m && m[c] <= now
  }

  function Sent(s: State, expired: set<Channel>): set<Channel> {
    set c | c in expired && CanRequest(s, c)
  }

  /** All expired channels at once; the program visits them one after another. */
  function RequestExpired(s: State, expired: set<Channel>, from: From): State {
    var sent := Sent(s, expired);
    s.(channelRequesting := s.channelRequesting + sent,
       channelInFlight := s.channelInFlight + multiset(sent),
       byPts := s.byPts.(channels := s.byPts.channels - expired),
       afterFail := s.afterFail.(channels := s.afterFail.channels - (if from == AfterFail then expired else sent)))
  }

  function AfterMainByPts(s: State, now: int): State {
    if s.byPts.main != 0 && s.byPts.main <= now then AskMain(s) else s
  }

  function AfterMainAfterFail(s: State, now: int): State {
    if s.afterFail.main != 0 && s.afterFail.main <= now then AskMain(s.(requesting := false)) else s
  }

  function RecomputeByPts(s: State, now: int): State {
    var s1 := AfterMainByPts(s, now);
    var s2 := RequestExpired(s1, Expired(s1.byPts.channels, now), PtsGapOrShortPoll);
    s2.(byPtsTimer := s2.byPts.Earliest())
  }

  function RecomputeAfterFail(s: State, now: int): State {
    var s1 := AfterMainAfterFail(s, now);
    var s2 := RequestExpired(s1, Expired(s1.afterFail.channels, now), AfterFail);
    s2.(failTimer := s2.afterFail.Earliest())
  }

  function StartTimer(s: State, channel: Option<Channel>, ms: int, now: int): State {
    var (table, changed) := s.byPts.Changed(channel, ms, now);
    var s1 := s.(byPts := table);
    if changed then RecomputeByPts(s1, now) else s1
  }

  function Doubled(t: int): int {
    if t < 64 then t * 2 else t
  }

  function TimeoutOf(s: State, channel: Option<Channel>): int {
    match channel
    case None => s.timeout
    case Some(c) => if c in s.channelTimeout then s.channelTimeout[c] else 1
  }

  function WithTimeout(s: State, channel: Option<Channel>, t: int): State {
    match channel
    case None => s.(timeout := t)
    case Some(c) => s.(channelTimeout := s.channelTimeout[c := t])
  }

  /** failDifferenceStartTimerFor: the next try comes after the timeout, which then doubles. */
  function StartFailTimer(s: State, channel: Option<Channel>, now: int): State {
    var t := TimeoutOf(s, channel);
    var (table, changed) := s.afterFail.Changed(channel, t * 1000, now);
    var s1 := WithTimeout(s, channel, t).(afterFail := table);
    var s2 := if changed then RecomputeAfterFail(s1, now) else s1;
    WithTimeout(s2, channel, Doubled(t))
  }

  // ---------------------------------------------------------------- what the loops rely on

  /** Visiting one more expired channel: request it, then erase it from the walked table. */
  function Visit(s: State, c: Channel, from: From): State {
    var s1 := AskChannel(s, c, from);
    if from == AfterFail then s1.(afterFail := s1.afterFail.(channels := s1.afterFail.channels - {c}))
    else s1.(byPts := s1.byPts.(channels := s1.byPts.channels - {c}))
  }

  lemma SentAddsUp(s: State, expired: set<Channel>, c: Channel)
    requires c !in expired
    ensures Sent(s, expired + {c}) == if CanRequest(s, c) then Sent(s, expired) + {c} else Sent(s, expired)
    ensures c !in Sent(s, expired)
    ensures multiset(Sent(s, expired + {c})) ==
            multiset(Sent(s, expired)) + if CanRequest(s, c) then multiset{c} else multiset{}
  {
    assert Sent(s, expired + {c}) == if CanRequest(s, c) then Sent(s, expired) + {c} else Sent(s, expired);
  }

  lemma VisitSkips(s: State, expired: set<Channel>, c: Channel, from: From)
    requires c !in expired && !CanRequest(s, c)
    ensures RequestExpired(s, expired + {c}, from) == Visit(RequestExpired(s, expired, from), c, from)
  {
    SentAddsUp(s, expired, c);
    var t := RequestExpired(s, expired, from);
    var m, n := s.byPts.channels, s.afterFail.channels;
    assert m - (expired + {c}) == (m - expired) - {c} == ((m - expired) - {c}) - {c};
    assert n - (expired + {c}) == (n - expired) - {c};
    assert !CanRequest(t, c);
    if from == PtsGapOrShortPoll {
      assert AskChannel(t, c, from) == t;
    } else {
      assert AskChannel(t, c, from) == t.(byPts := t.byPts.(channels := t.byPts.channels - {c}));
    }
  }

  lemma VisitSendsAfterFail(s: State, expired: set<Channel>, c: Channel)
    requires c !in expired && CanRequest(s, c)
    ensures RequestExpired(s, expired + {c}, AfterFail) == Visit(RequestExpired(s, expired, AfterFail), c, AfterFail)
  {
    SentAddsUp(s, expired, c);
    var sent, t := Sent(s, expired), RequestExpired(s, expired, AfterFail);
    var m, n := s.byPts.channels, s.afterFail.channels;
    assert m - (expired + {c}) == (m - expired) - {c};
    assert n - (expired + {c}) == (n - expired) - {c};
    assert s.channelRequesting + (sent + {c}) == t.channelRequesting + {c};
    assert s.channelInFlight + (multiset(sent) + multiset{c}) == t.channelInFlight + multiset{c};
    assert CanRequest(t, c);
  }

  lemma VisitSendsByPts(s: State, expired: set<Channel>, c: Channel)
    requires c !in expired && CanRequest(s, c)
    ensures RequestExpired(s, expired + {c}, PtsGapOrShortPoll) ==
            Visit(RequestExpired(s, expired, PtsGapOrShortPoll), c, PtsGapOrShortPoll)
  {
    SentAddsUp(s, expired, c);
    var sent, t := Sent(s, expired), RequestExpired(s, expired, PtsGapOrShortPoll);
    var m, n := s.byPts.channels, s.afterFail.channels;
    assert m - (expired + {c}) == (m - expired) - {c};
    assert n - (sent + {c}) == (n - sent) - {c};
    assert s.channelRequesting + (sent + {c}) == t.channelRequesting + {c};
    assert s.channelInFlight + (multiset(sent) + multiset{c}) == t.channelInFlight + multiset{c};
    assert CanRequest(t, c);
  }

  lemma VisitsAddUp(s: State, expired: set<Channel>, c: Channel, from: From)
    requires c !in expired && from != Unknown
    ensures RequestExpired(s, expired + {c}, from) == Visit(RequestExpired(s, expired, from), c, from)
  {
    if CanRequest(s, c) {
      if from == AfterFail {
        VisitSendsAfterFail(s, expired, c);
      } else {
        VisitSendsByPts(s, expired, c);
      }
    } else {
      VisitSkips(s, expired, c, from);
    }
  }

  /** The walk leaves one more channel behind. */
  lemma ExpiredWithout(m: map<Channel, int>, rest: set<Channel>, c: Channel, now: int)
    requires c in rest && rest <= m.Keys
    ensures var expired := Expired(m, now) - rest;
            if m[c] > now then Expired(m, now) - (rest - {c}) == expired
            else Expired(m, now) - (rest - {c}) == expired + {c} && m - (expired + {c}) == (m - expired) - {c}
  {
  }

  lemma RequestNone(s: State, from: From)
    ensures RequestExpired(s, {}, from) == s
  {
    assert Sent(s, {}) == {};
    assert s.byPts.channels - {} == s.byPts.channels;
    assert s.afterFail.channels - {} == s.afterFail.channels;
    assert s.channelInFlight + multiset(Sent(s, {})) == s.channelInFlight;
    assert s.channelRequesting + Sent(s, {}) == s.channelRequesting;
  }

  function Shorter(wait: int, left: int): int {
    if wait != 0 && wait < left then wait else left
  }

  /** `d` is a deadline ahead that the walk over `m` has met, with `rest` still to be visited. */
  ghost predicate Met(d: int, main: int, m: map<Channel, int>, rest: set<Channel>, now: int) {
    d > now && ((main != 0 && d == main) || exists c :: c in m && c !in rest && m[c] == d)
  }

  /** `wait` is what is left until the earliest deadline met so far, or 0 when there is none. */
  ghost predicate WaitIs(wait: int, main: int, m: map<Channel, int>, rest: set<Channel>, now: int) {
    && (wait == 0 || (wait > 0 && Met(now + wait, main, m, rest, now)))
    && (forall d :: Met(d, main, m, rest, now) ==> wait != 0 && now + wait <= d)
  }

  lemma WaitMeets(wait: int, main: int, m: map<Channel, int>, rest: set<Channel>, now: int, c: Channel)
    requires WaitIs(wait, main, m, rest, now) && c in rest && c in m
    ensures WaitIs(if m[c] > now then Shorter(wait, m[c] - now) else wait, main, m, rest - {c}, now)
  {
    var wait' := if m[c] > now then Shorter(wait, m[c] - now) else wait;
    forall d ensures Met(d, main, m, rest - {c}, now) <==> Met(d, main, m, rest, now) || (d > now && d == m[c]) {
      if d > now && d == m[c] { assert c in m && c !in rest - {c} && m[c] == d; }
    }
    if m[c] > now { assert Met(m[c], main, m, rest - {c}, now); }
    if wait != 0 { assert Met(now + wait, main, m, rest - {c}, now); }
  }

  lemma WaitEnds(wait: int, main: int, m: map<Channel, int>, now: int)
    requires WaitIs(wait, main, m, {}, now) && (main == 0 || main > now)
    ensures Deadlines(main, m - Expired(m, now)).Earliest() == if wait == 0 then Idle else Due(now + wait)
  {
    var t := Deadlines(main, m - Expired(m, now));
    forall d ensures d in t.All() <==> Met(d, main, m, {}, now) {
      if d in t.channels.Values {
        var x :| x in t.channels && t.channels[x] == d;
        assert x in m && m[x] == d;
      }
      if Met(d, main, m, {}, now) && !(main != 0 && d == main) {
        var c :| c in m && m[c] == d;
        assert c in t.channels && t.channels[c] == d;
      }
    }
    if wait != 0 {
      MinIs(t.All(), now + wait);
    } else {
      assert forall d :: d !in t.All();
      assert t.All() == {};
    }
  }

  // ---------------------------------------------------------------- the widget

  class MainWidget {
    var timeByPts: int
    var channelTimeByPts: map<Channel, int>
    var timeAfterFail: int
    var channelTimeAfterFail: map<Channel, int>
    var byPtsTimer: Timer
    var failDifferenceTimer: Timer
    var requesting: bool
    var inited: set<Channel>
    var channelRequesting: set<Channel>
    var failDifferenceTimeout: int
    var channelFailDifferenceTimeout: map<Channel, int>
    ghost var inFlight: nat
    ghost var channelInFlight: multiset<Channel>
    ghost var lost: bool

    ghost function Model(): State
      reads this
    {
      State(
        Deadlines(timeByPts, channelTimeByPts), Deadlines(timeAfterFail, channelTimeAfterFail),
        byPtsTimer, failDifferenceTimer, requesting, inited, channelRequesting,
        failDifferenceTimeout, channelFailDifferenceTimeout, inFlight, channelInFlight, lost)
    }

    method GetDifference()
      modifies this
      ensures Model() == AskMain(old(Model()))
    {
      timeByPts := 0;
      if requesting {
        return;
      }
      timeAfterFail := 0;
      requesting := true;
      inFlight := inFlight + 1;
    }

    method GetChannelDifference(c: Channel, from: From)
      modifies this
      ensures Model() == AskChannel(old(Model()), c, from)
    {
      if from != PtsGapOrShortPoll {
        channelTimeByPts := channelTimeByPts - {c};
      }
      if c !in inited || c in channelRequesting {
        return;
      }
      if from != AfterFail {
        channelTimeAfterFail := channelTimeAfterFail - {c};
      }
      channelRequesting := channelRequesting + {c};
      channelInFlight := channelInFlight + multiset{c};
    }

    method VisitByPts(c: Channel)
      modifies this
      ensures Model() == Visit(old(Model()), c, PtsGapOrShortPoll)
      ensures channelTimeByPts == old(channelTimeByPts) - {c}
    {
      GetChannelDifference(c, PtsGapOrShortPoll);
      channelTimeByPts := channelTimeByPts - {c};
    }

    /** The walk that started in `s` has requested and erased the expired channels outside `rest`. */
    ghost predicate WalkingByPts(s: State, rest: set<Channel>, wait: int, now: int)
      reads this
    {
      var m := s.byPts.channels;
      && rest <= m.Keys && channelTimeByPts == m - (Expired(m, now) - rest)
      && Model() == RequestExpired(s, Expired(m, now) - rest, PtsGapOrShortPoll)
      && WaitIs(wait, s.byPts.main, m, rest, now)
    }

    /** One turn of the loop: keep the deadline and shorten the wait, or request and erase. */
    method TurnByPts(c: Channel, now: int, wait0: int, ghost s: State, ghost rest: set<Channel>) returns (wait: int)
      requires c in rest && WalkingByPts(s, rest, wait0, now)
      modifies this
      ensures WalkingByPts(s, rest - {c}, wait, now)
    {
      ghost var m := s.byPts.channels;
      ghost var expired := Expired(m, now) - rest;
      assert channelTimeByPts[c] == m[c];
      WaitMeets(wait0, s.byPts.main, m, rest, now, c);
      wait := wait0;
      ExpiredWithout(m, rest, c, now);
      if channelTimeByPts[c] > now {
        var left := channelTimeByPts[c] - now;
        wait := if wait != 0 then (if wait < left then wait else left) else left;
      } else {
        VisitsAddUp(s, expired, c, PtsGapOrShortPoll);
        VisitByPts(c);
      }
    }

    /** The loop erases from the table it walks; that is sound because the nested request never
        touches that table: every key still to be visited stays in it. */
    method WalkByPts(now: int, wait0: int) returns (wait: int)
      requires WaitIs(wait0, timeByPts, channelTimeByPts, channelTimeByPts.Keys, now)
      modifies this
      ensures Model() == RequestExpired(old(Model()), Expired(old(channelTimeByPts), now), PtsGapOrShortPoll)
      ensures WaitIs(wait, old(timeByPts), old(channelTimeByPts), {}, now)
    {
      wait := wait0;
      ghost var s := Model();
      var rest := channelTimeByPts.Keys;
      RequestNone(s, PtsGapOrShortPoll);
      assert Expired(channelTimeByPts, now) - rest == {};
      while rest != {}
        invariant WalkingByPts(s, rest, wait, now)
        decreases rest
      {
        EmptyOrMember(rest);
        var c :| c in rest;
        wait := TurnByPts(c, now, wait, s, rest);
        rest := rest - {c};
      }
      assert Expired(s.byPts.channels, now) - rest == Expired(s.byPts.channels, now);
    }

    method MainByPts(now: int) returns (wait: int)
      modifies this
      ensures Model() == AfterMainByPts(old(Model()), now)
      ensures WaitIs(wait, timeByPts, channelTimeByPts, channelTimeByPts.Keys, now)
              && (timeByPts == 0 || timeByPts > now)
    {
      wait := 0;
      if timeByPts != 0 {
        if timeByPts > now {
          wait := timeByPts - now;
        } else {
          GetDifference();
        }
      }
    }

    method GetDifferenceByPts(now: int)
      modifies this
      ensures Model() == RecomputeByPts(old(Model()), now)
    {
      var wait := MainByPts(now);
      ghost var s1 := Model();
      wait := WalkByPts(now, wait);
      ghost var s2 := Model();
      WaitEnds(wait, s1.byPts.main, s1.byPts.channels, now);
      if wait != 0 {
        byPtsTimer := Due(now + wait);
      } else {
        byPtsTimer := Idle;
      }
      assert Model() == s2.(byPtsTimer := s2.byPts.Earliest());
    }

    method MainAfterFail(now: int) returns (wait: int)
      modifies this
      ensures Model() == AfterMainAfterFail(old(Model()), now)
      ensures WaitIs(wait, timeAfterFail, channelTimeAfterFail, channelTimeAfterFail.Keys, now)
              && (timeAfterFail == 0 || timeAfterFail > now)
    {
      wait := 0;
      if timeAfterFail != 0 {
        if timeAfterFail > now {
          wait := timeAfterFail - now;
        } else {
          requesting := false;
          GetDifference();
        }
      }
    }

    method VisitAfterFail(c: Channel)
      modifies this
      ensures Model() == Visit(old(Model()), c, AfterFail)
      ensures channelTimeAfterFail == old(channelTimeAfterFail) - {c}
    {
      GetChannelDifference(c, AfterFail);
      channelTimeAfterFail := channelTimeAfterFail - {c};
    }

    /** The walk that started in `s` has requested and erased the expired channels outside `rest`. */
    ghost predicate WalkingAfterFail(s: State, rest: set<Channel>, wait: int, now: int)
      reads this
    {
      var m := s.afterFail.channels;
      && rest <= m.Keys && channelTimeAfterFail == m - (Expired(m, now) - rest)
      && Model() == RequestExpired(s, Expired(m, now) - rest, AfterFail)
      && WaitIs(wait, s.afterFail.main, m, rest, now)
    }

    /** One turn of the loop: keep the deadline and shorten the wait, or request and erase. */
    method TurnAfterFail(c: Channel, now: int, wait0: int, ghost s: State, ghost rest: set<Channel>) returns (wait: int)
      requires c in rest && WalkingAfterFail(s, rest, wait0, now)
      modifies this
      ensures WalkingAfterFail(s, rest - {c}, wait, now)
    {
      ghost var m := s.afterFail.channels;
      ghost var expired := Expired(m, now) - rest;
      assert channelTimeAfterFail[c] == m[c];
      WaitMeets(wait0, s.afterFail.main, m, rest, now, c);
      wait := wait0;
      ExpiredWithout(m, rest, c, now);
      if channelTimeAfterFail[c] > now {
        var left := channelTimeAfterFail[c] - now;
        wait := if wait != 0 then (if wait < left then wait else left) else left;
      } else {
        VisitsAddUp(s, expired, c, AfterFail);
        VisitAfterFail(c);
      }
    }

    method WalkAfterFail(now: int, wait0: int) returns (wait: int)
      requires WaitIs(wait0, timeAfterFail, channelTimeAfterFail, channelTimeAfterFail.Keys, now)
      modifies this
      ensures Model() == RequestExpired(old(Model()), Expired(old(channelTimeAfterFail), now), AfterFail)
      ensures WaitIs(wait, old(timeAfterFail), old(channelTimeAfterFail), {}, now)
    {
      wait := wait0;
      ghost var s := Model();
      var rest := channelTimeAfterFail.Keys;
      RequestNone(s, AfterFail);
      assert Expired(channelTimeAfterFail, now) - rest == {};
      while rest != {}
        invariant WalkingAfterFail(s, rest, wait, now)
        decreases rest
      {
        EmptyOrMember(rest);
        var c :| c in rest;
        wait := TurnAfterFail(c, now, wait, s, rest);
        rest := rest - {c};
      }
      assert Expired(s.afterFail.channels, now) - rest == Expired(s.afterFail.channels, now);
    }

    method GetDifferenceAfterFail(now: int)
      modifies this
      ensures Model() == RecomputeAfterFail(old(Model()), now)
    {
      var wait := MainAfterFail(now);
      ghost var s1 := Model();
      wait := WalkAfterFail(now, wait);
      ghost var s2 := Model();
      WaitEnds(wait, s1.afterFail.main, s1.afterFail.channels, now);
      if wait != 0 {
        failDifferenceTimer := Due(now + wait);
      } else {
        failDifferenceTimer := Idle;
      }
      assert Model() == s2.(failTimer := s2.afterFail.Earliest());
    }

    /** getDifferenceTimeChanged over one of the two tables, which are passed by reference there. */
    method GetDifferenceTimeChanged(channel: Option<Channel>, ms: int, now: int,
                                    channelCurTime: map<Channel, int>, curTime: int)
      returns (channelNewTime: map<Channel, int>, newTime: int, changed: bool)
      ensures (Deadlines(newTime, channelNewTime), changed)
              == Deadlines(curTime, channelCurTime).Changed(channel, ms, now)
    {
      channelNewTime, newTime, changed := channelCurTime, curTime, true;
      if channel.Some? {
        var c := channel.value;
        if ms <= 0 {
          if c in channelCurTime {
            channelNewTime := channelCurTime - {c};
          } else {
            assert channelCurTime - {c} == channelCurTime;
            changed := false;
          }
        } else {
          var when := now + ms;
          if c in channelCurTime {
            if channelCurTime[c] > when {
              channelNewTime := channelCurTime[c := when];
            } else {
              changed := false;
            }
          } else {
            channelNewTime := channelCurTime[c := when];
          }
        }
      } else {
        if ms <= 0 {
          if curTime != 0 {
            newTime := 0;
          } else {
            changed := false;
          }
        } else {
          var when := now + ms;
          if curTime == 0 || curTime > when {
            newTime := when;
          } else {
            changed := false;
          }
        }
      }
    }

    method PtsWaiterStartTimerFor(channel: Option<Channel>, ms: int, now: int)
      modifies this
      ensures Model() == StartTimer(old(Model()), channel, ms, now)
    {
      var changed;
      channelTimeByPts, timeByPts, changed := GetDifferenceTimeChanged(channel, ms, now, channelTimeByPts, timeByPts);
      if changed {
        GetDifferenceByPts(now);
      }
    }

    /** The lambda at the start of failDifferenceStartTimerFor: the channel gets its entry. */
    method FailTimeout(channel: Option<Channel>) returns (timeout: int)
      modifies this
      ensures timeout == TimeoutOf(old(Model()), channel)
      ensures Model() == WithTimeout(old(Model()), channel, timeout)
    {
      if channel.None? {
        return failDifferenceTimeout;
      }
      var c := channel.value;
      if c !in channelFailDifferenceTimeout {
        channelFailDifferenceTimeout := channelFailDifferenceTimeout[c := 1];
      }
      timeout := channelFailDifferenceTimeout[c];
      assert channelFailDifferenceTimeout == old(channelFailDifferenceTimeout)[c := timeout];
    }

    method SetFailTimeout(channel: Option<Channel>, timeout: int)
      modifies this
      ensures Model() == WithTimeout(old(Model()), channel, timeout)
    {
      if channel.Some? {
        channelFailDifferenceTimeout := channelFailDifferenceTimeout[channel.value := timeout];
      } else {
        failDifferenceTimeout := timeout;
      }
    }

    method FailDifferenceStartTimerFor(channel: Option<Channel>, now: int)
      modifies this
      ensures Model() == StartFailTimer(old(Model()), channel, now)
    {
      var timeout := FailTimeout(channel);
      ghost var s := Model();
      var changed;
      channelTimeAfterFail, timeAfterFail, changed :=
        GetDifferenceTimeChanged(channel, timeout * 1000, now, channelTimeAfterFail, timeAfterFail);
      assert Model() == s.(afterFail := s.afterFail.Changed(channel, timeout * 1000, now).0);
      if changed {
        GetDifferenceAfterFail(now);
      }
      if timeout < 64 {
        timeout := timeout * 2;
      }
      SetFailTimeout(channel, timeout);
    }
  }

  // ---------------------------------------------------------------- runs

  datatype Answer = TheState | Difference | Slice | Nothing

  /** `Nothing` is differenceTooLong, or a failure of the first getState, which has no fail handler. */
  datatype Event =
    | PtsWait(channel: Option<Channel>, ms: int)     // PtsWaiter asks for a timer or drops it
    | ByPtsTimerFires
    | FailTimerFires
    | MainAsked                                      // other callers of getDifference()
    | ChannelAsked(c: Channel)                       // other callers of getChannelDifference()
    | MainAnswers(answer: Answer)
    | MainFails
    | ChannelAnswers(c: Channel, isFinal: bool, poll: Option<int>)
    | ChannelFails(c: Channel)
    | ChannelInited(c: Channel)

  function Fires(t: Timer, now: int): bool {
    t.Due? && t.at <= now
  }

  function Step(s: State, e: Event, now: int): State {
    match e
    case PtsWait(channel, ms) => StartTimer(s, channel, ms, now)
    case ByPtsTimerFires => OnByPtsTimer(s, now)
    case FailTimerFires => OnFailTimer(s, now)
    case MainAsked => AskMain(s)
    case ChannelAsked(c) => AskChannel(s, c, Unknown)
    case MainAnswers(answer) => OnMainAnswer(s, answer)
    case MainFails => OnMainFail(s, now)
    case ChannelAnswers(c, isFinal, poll) => OnChannelAnswer(s, c, isFinal, poll, now)
    case ChannelFails(c) => OnChannelFail(s, c, now)
    case ChannelInited(c) => OnChannelInited(s, c)
  }

  function OnByPtsTimer(s: State, now: int): State {
    if Fires(s.byPtsTimer, now) then RecomputeByPts(s.(byPtsTimer := Idle), now) else s
  }

  function OnFailTimer(s: State, now: int): State {
    if Fires(s.failTimer, now) then RecomputeAfterFail(s.(failTimer := Idle), now) else s
  }

  function OnMainAnswer(s: State, answer: Answer): State {
    if s.inFlight == 0 then s else MainAnswered(s.(inFlight := s.inFlight - 1), answer)
  }

  function OnMainFail(s: State, now: int): State {
    if s.inFlight == 0 then s else StartFailTimer(s.(inFlight := s.inFlight - 1), None, now)
  }

  function OnChannelAnswer(s: State, c: Channel, isFinal: bool, poll: Option<int>, now: int): State {
    if c !in s.channelInFlight then s else ChannelAnswered(Answered(s, c), c, isFinal, poll, now)
  }

  function OnChannelFail(s: State, c: Channel, now: int): State {
    if c !in s.channelInFlight then s else StartFailTimer(Answered(s, c), Some(c), now)
  }

  function OnChannelInited(s: State, c: Channel): State {
    s.(inited := s.inited + {c})
  }

  function Answered(s: State, c: Channel): State {
    s.(channelInFlight := s.channelInFlight - multiset{c})
  }

  /** gotState and gotDifference. */
  function MainAnswered(s: State, answer: Answer): State {
    match answer
    case TheState => s.(requesting := false)
    case Difference => s.(timeout := 1, requesting := false)
    case Slice => AskMain(s.(timeout := 1, requesting := false))
    case Nothing => s.(lost := true)
  }

  /** gotChannelDifference. */
  function ChannelAnswered(s: State, c: Channel, isFinal: bool, poll: Option<int>, now: int): State {
    var s1 := s.(channelTimeout := s.channelTimeout - {c}, channelRequesting := s.channelRequesting - {c});
    if !isFinal then AskChannel(s1, c, Unknown)
    else if poll.Some? then StartTimer(s1, Some(c), poll.value, now)
    else s1
  }

  datatype Moment = Moment(event: Event, now: int)

  function Run(s: State, moments: seq<Moment>): State {
    if moments == [] then s
    else
      var last := moments[|moments| - 1];
      Step(Run(s, moments[..|moments| - 1]), last.event, last.now)
  }

  lemma RunGoesOn(s: State, moments: seq<Moment>, last: Moment)
    ensures Run(s, moments + [last]) == Step(Run(s, moments), last.event, last.now) && Run(s, []) == s
  {
    assert (moments + [last])[..|moments|] == moments;
  }

  /** The widget after its constructor and start(): the first getState is in flight. */
  function Started(): State {
    State(Deadlines(0, map[]), Deadlines(0, map[]), Idle, Idle, true, {}, {}, 1, map[], 1, multiset{}, false)
  }

  // ---------------------------------------------------------------- deadlines are covered

  ghost predicate Covered(s: State) {
    s.byPts.CoveredBy(s.byPtsTimer) && s.afterFail.CoveredBy(s.failTimer)
  }

  ghost predicate FewerDeadlines(t: Deadlines, u: Deadlines) {
    t.All() <= u.All()
  }

  lemma RequestsOnlyRemove(s: State, c: Channel, from: From)
    ensures
      var t := AskChannel(s, c, from);
      && FewerDeadlines(t.byPts, s.byPts) && FewerDeadlines(t.afterFail, s.afterFail)
      && t.byPtsTimer == s.byPtsTimer && t.failTimer == s.failTimer
  {
    ErasingRemoves(s.byPts, {c});
    ErasingRemoves(s.afterFail, {c});
  }

  lemma ErasingRemoves(t: Deadlines, cs: set<Channel>)
    ensures FewerDeadlines(t.(channels := t.channels - cs), t)
  {
  }

  lemma AskMainOnlyRemoves(s: State)
    ensures FewerDeadlines(AskMain(s).byPts, s.byPts) && FewerDeadlines(AskMain(s).afterFail, s.afterFail)
  {
  }

  lemma UnchangedIsSame(t: Deadlines, channel: Option<Channel>, ms: int, now: int)
    ensures !t.Changed(channel, ms, now).1 ==> t.Changed(channel, ms, now).0 == t
  {
    if channel.Some? && channel.value !in t.channels {
      assert t.channels - {channel.value} == t.channels;
    }
  }

  lemma RecomputeByPtsCovers(s: State, now: int)
    requires s.afterFail.CoveredBy(s.failTimer)
    ensures Covered(RecomputeByPts(s, now))
  {
    var s1 := AfterMainByPts(s, now);
    assert FewerDeadlines(s1.afterFail, s.afterFail);
    ErasingRemoves(s1.afterFail, Sent(s1, Expired(s1.byPts.channels, now)));
  }

  lemma RecomputeAfterFailCovers(s: State, now: int)
    requires s.byPts.CoveredBy(s.byPtsTimer)
    ensures Covered(RecomputeAfterFail(s, now))
  {
    var s1 := AfterMainAfterFail(s, now);
    assert FewerDeadlines(s1.byPts, s.byPts);
    ErasingRemoves(s1.byPts, Expired(s1.afterFail.channels, now));
  }

  lemma StartTimerCovers(s: State, channel: Option<Channel>, ms: int, now: int)
    requires Covered(s)
    ensures Covered(StartTimer(s, channel, ms, now))
  {
    var (table, changed) := s.byPts.Changed(channel, ms, now);
    if changed {
      RecomputeByPtsCovers(s.(byPts := table), now);
    } else {
      UnchangedIsSame(s.byPts, channel, ms, now);
    }
  }

  lemma StartFailTimerCovers(s: State, channel: Option<Channel>, now: int)
    requires Covered(s)
    ensures Covered(StartFailTimer(s, channel, now))
  {
    var t := TimeoutOf(s, channel);
    var (table, changed) := s.afterFail.Changed(channel, t * 1000, now);
    if changed {
      RecomputeAfterFailCovers(WithTimeout(s, channel, t).(afterFail := table), now);
    } else {
      UnchangedIsSame(s.afterFail, channel, t * 1000, now);
    }
  }

  lemma MainAnsweredCovers(s: State, answer: Answer)
    requires Covered(s)
    ensures Covered(MainAnswered(s, answer))
  {
    if answer == Slice { AskMainOnlyRemoves(s.(timeout := 1, requesting := false)); }
  }

  lemma ChannelAnsweredCovers(s: State, c: Channel, isFinal: bool, poll: Option<int>, now: int)
    requires Covered(s)
    ensures Covered(ChannelAnswered(s, c, isFinal, poll, now))
  {
    var s1 := s.(channelTimeout := s.channelTimeout - {c}, channelRequesting := s.channelRequesting - {c});
    if !isFinal {
      RequestsOnlyRemove(s1, c, Unknown);
    } else if poll.Some? {
      StartTimerCovers(s1, Some(c), poll.value, now);
    }
  }

  lemma OnByPtsTimerCovers(s: State, now: int)
    requires Covered(s)
    ensures Covered(OnByPtsTimer(s, now))
  {
    RecomputeByPtsCovers(s.(byPtsTimer := Idle), now);
  }

  lemma OnFailTimerCovers(s: State, now: int)
    requires Covered(s)
    ensures Covered(OnFailTimer(s, now))
  {
    RecomputeAfterFailCovers(s.(failTimer := Idle), now);
  }

  lemma OnMainAnswerCovers(s: State, answer: Answer)
    requires Covered(s)
    ensures Covered(OnMainAnswer(s, answer))
  {
    if s.inFlight > 0 { MainAnsweredCovers(s.(inFlight := s.inFlight - 1), answer); }
  }

  lemma OnMainFailCovers(s: State, now: int)
    requires Covered(s)
    ensures Covered(OnMainFail(s, now))
  {
    if s.inFlight > 0 { StartFailTimerCovers(s.(inFlight := s.inFlight - 1), None, now); }
  }

  lemma OnChannelAnswerCovers(s: State, c: Channel, isFinal: bool, poll: Option<int>, now: int)
    requires Covered(s)
    ensures Covered(OnChannelAnswer(s, c, isFinal, poll, now))
  {
    ChannelAnsweredCovers(Answered(s, c), c, isFinal, poll, now);
  }

  lemma OnChannelFailCovers(s: State, c: Channel, now: int)
    requires Covered(s)
    ensures Covered(OnChannelFail(s, c, now))
  {
    StartFailTimerCovers(Answered(s, c), Some(c), now);
  }

  lemma StepCovers(s: State, e: Event, now: int)
    requires Covered(s)
    ensures Covered(Step(s, e, now))
  {
    match e
    case MainAnswers(answer) => OnMainAnswerCovers(s, answer);
    case MainFails => OnMainFailCovers(s, now);
    case ChannelAnswers(c, isFinal, poll) => OnChannelAnswerCovers(s, c, isFinal, poll, now);
    case ChannelFails(c) => OnChannelFailCovers(s, c, now);
    case _ => OwnEventCovers(s, e, now);
  }

  /** An event that does not come from the server. */
  predicate Own(e: Event) {
    !e.MainAnswers? && !e.MainFails? && !e.ChannelAnswers? && !e.ChannelFails?
  }

  lemma OwnEventCovers(s: State, e: Event, now: int)
    requires Covered(s) && Own(e)
    ensures Covered(Step(s, e, now))
  {
    match e
    case PtsWait(channel, ms) => StartTimerCovers(s, channel, ms, now);
    case ByPtsTimerFires => OnByPtsTimerCovers(s, now);
    case FailTimerFires => OnFailTimerCovers(s, now);
    case MainAsked => MainAskedCovers(s);
    case ChannelAsked(c) => ChannelAskedCovers(s, c);
    case ChannelInited(c) => assert Covered(OnChannelInited(s, c));
  }

  lemma MainAskedCovers(s: State)
    requires Covered(s)
    ensures Covered(AskMain(s))
  {
    AskMainOnlyRemoves(s);
  }

  lemma ChannelAskedCovers(s: State, c: Channel)
    requires Covered(s)
    ensures Covered(AskChannel(s, c, Unknown))
  {
    RequestsOnlyRemove(s, c, Unknown);
  }

  /** In every reachable state each pending deadline, of the main stream or of a channel, is
      covered by the active timer of its table, due no later. */
  lemma {:induction false} EveryRunCovers(moments: seq<Moment>)
    ensures Covered(Run(Started(), moments))
  {
    if moments != [] {
      var last := moments[|moments| - 1];
      EveryRunCovers(moments[..|moments| - 1]);
      StepCovers(Run(Started(), moments[..|moments| - 1]), last.event, last.now);
    }
  }

  /** A recompute arms the timer for exactly the earliest deadline that is left, or cancels it;
      no passed deadline stays in the table, and every channel whose deadline passed and that
      could be requested has a request in flight. */
  lemma RecomputeServes(s: State, now: int)
    ensures
      var t := RecomputeByPts(s, now);
      && (forall d :: d in t.byPts.All() ==> d > now)
      && (t.byPtsTimer == Idle <==> t.byPts.All() == {})
      && (t.byPtsTimer.Due? ==> t.byPtsTimer.at in t.byPts.All() && t.byPts.CoveredBy(t.byPtsTimer))
      && (forall c :: c in s.byPts.channels && s.byPts.channels[c] <= now && CanRequest(s, c) ==>
           c in t.channelInFlight)
      && (s.byPts.main != 0 && s.byPts.main <= now && !s.requesting ==> t.inFlight == s.inFlight + 1)
    ensures
      var t := RecomputeAfterFail(s, now);
      && (forall d :: d in t.afterFail.All() ==> d > now)
      && (t.failTimer == Idle <==> t.afterFail.All() == {})
      && (t.failTimer.Due? ==> t.failTimer.at in t.afterFail.All() && t.afterFail.CoveredBy(t.failTimer))
      && (forall c :: c in s.afterFail.channels && s.afterFail.channels[c] <= now && CanRequest(s, c) ==>
           c in t.channelInFlight)
      && (s.afterFail.main != 0 && s.afterFail.main <= now ==> t.inFlight == s.inFlight + 1)
  {
    ByPtsServes(s, now);
    AfterFailServes(s, now);
  }

  lemma ByPtsServes(s: State, now: int)
    ensures
      var t := RecomputeByPts(s, now);
      && (forall d :: d in t.byPts.All() ==> d > now)
      && (forall c :: c in s.byPts.channels && s.byPts.channels[c] <= now && CanRequest(s, c) ==>
           c in t.channelInFlight)
  {
    var s1 := AfterMainByPts(s, now);
    var expired := Expired(s1.byPts.channels, now);
    forall c | c in expired && CanRequest(s, c) ensures c in multiset(Sent(s1, expired)) {
      assert c in Sent(s1, expired);
    }
  }

  lemma AfterFailServes(s: State, now: int)
    ensures
      var t := RecomputeAfterFail(s, now);
      && (forall d :: d in t.afterFail.All() ==> d > now)
      && (forall c :: c in s.afterFail.channels && s.afterFail.channels[c] <= now && CanRequest(s, c) ==>
           c in t.channelInFlight)
  {
    var s1 := AfterMainAfterFail(s, now);
    var expired := Expired(s1.afterFail.channels, now);
    forall c | c in expired && CanRequest(s, c) ensures c in multiset(Sent(s1, expired)) {
      assert c in Sent(s1, expired);
    }
  }

  // ---------------------------------------------------------------- the main stream

  predicate Backoff(t: int) {
    t in {1, 2, 4, 8, 16, 32, 64}
  }

  ghost predicate BackoffsOk(s: State) {
    Backoff(s.timeout) && forall c :: c in s.channelTimeout ==> Backoff(s.channelTimeout[c])
  }

  /** At most one main request is in flight, only while `requesting` and with no retry scheduled.  A
      stream that is requesting has a request in flight or a retry scheduled if and only if no answer
      without any state has come; once one has, it has neither, and is requesting. */
  ghost predicate MainOk(s: State) {
    && s.inFlight <= 1
    && (s.inFlight == 1 ==> s.requesting && s.afterFail.main == 0)
    && (s.requesting ==> (s.inFlight == 1 || s.afterFail.main != 0 <==> !s.lost))
    && (s.lost ==> s.requesting)
  }

  lemma StartFailTimerMainOk(s: State, channel: Option<Channel>, now: int)
    requires now >= 0 && BackoffsOk(s)
    requires match channel
             case None => s.inFlight == 0 && s.requesting && !s.lost
             case Some(_) => MainOk(s)
    ensures MainOk(StartFailTimer(s, channel, now)) && BackoffsOk(StartFailTimer(s, channel, now))
  {
    var t := TimeoutOf(s, channel);
    assert Backoff(t) && Backoff(Doubled(t));
    var (table, changed) := s.afterFail.Changed(channel, t * 1000, now);
    var s1 := WithTimeout(s, channel, t).(afterFail := table);
    ScheduledMainOk(s, channel, now);
    if changed { AfterFailMainOk(s1, now); }
    DoubledOk(if changed then RecomputeAfterFail(s1, now) else s1, channel, t);
  }

  lemma ScheduledMainOk(s: State, channel: Option<Channel>, now: int)
    requires now >= 0 && BackoffsOk(s)
    requires match channel
             case None => s.inFlight == 0 && s.requesting && !s.lost
             case Some(_) => MainOk(s)
    ensures var t := TimeoutOf(s, channel);
            var s1 := WithTimeout(s, channel, t).(afterFail := s.afterFail.Changed(channel, t * 1000, now).0);
            MainOk(s1) && BackoffsOk(s1)
  {
    assert Backoff(TimeoutOf(s, channel));
  }

  lemma DoubledOk(s: State, channel: Option<Channel>, t: int)
    requires MainOk(s) && BackoffsOk(s) && Backoff(t)
    ensures MainOk(WithTimeout(s, channel, Doubled(t))) && BackoffsOk(WithTimeout(s, channel, Doubled(t)))
  {
    assert Backoff(Doubled(t));
  }

  lemma ByPtsMainOk(s: State, now: int)
    requires MainOk(s) && BackoffsOk(s)
    ensures MainOk(RecomputeByPts(s, now)) && BackoffsOk(RecomputeByPts(s, now))
  {
  }

  lemma AfterFailMainOk(s: State, now: int)
    requires MainOk(s) && BackoffsOk(s)
    ensures MainOk(RecomputeAfterFail(s, now)) && BackoffsOk(RecomputeAfterFail(s, now))
  {
  }

  lemma StartTimerMainOk(s: State, channel: Option<Channel>, ms: int, now: int)
    requires MainOk(s) && BackoffsOk(s)
    ensures MainOk(StartTimer(s, channel, ms, now)) && BackoffsOk(StartTimer(s, channel, ms, now))
  {
    ByPtsMainOk(s.(byPts := s.byPts.Changed(channel, ms, now).0), now);
  }

  lemma MainAnsweredOk(s: State, answer: Answer)
    requires s.inFlight == 0 && s.requesting && s.afterFail.main == 0 && !s.lost && BackoffsOk(s)
    ensures MainOk(MainAnswered(s, answer)) && BackoffsOk(MainAnswered(s, answer))
  {
  }

  lemma ChannelAnsweredMainOk(s: State, c: Channel, isFinal: bool, poll: Option<int>, now: int)
    requires MainOk(s) && BackoffsOk(s)
    ensures
      var t := ChannelAnswered(s, c, isFinal, poll, now);
      MainOk(t) && BackoffsOk(t)
  {
    var s1 := s.(channelTimeout := s.channelTimeout - {c}, channelRequesting := s.channelRequesting - {c});
    if isFinal && poll.Some? { StartTimerMainOk(s1, Some(c), poll.value, now); }
  }

  lemma OnByPtsTimerMainOk(s: State, now: int)
    requires MainOk(s) && BackoffsOk(s) && now >= 0
    ensures MainOk(OnByPtsTimer(s, now)) && BackoffsOk(OnByPtsTimer(s, now))
  {
    ByPtsMainOk(s.(byPtsTimer := Idle), now);
  }

  lemma OnFailTimerMainOk(s: State, now: int)
    requires MainOk(s) && BackoffsOk(s) && now >= 0
    ensures MainOk(OnFailTimer(s, now)) && BackoffsOk(OnFailTimer(s, now))
  {
    AfterFailMainOk(s.(failTimer := Idle), now);
  }

  lemma OnMainAnswerMainOk(s: State, answer: Answer)
    requires MainOk(s) && BackoffsOk(s)
    ensures MainOk(OnMainAnswer(s, answer)) && BackoffsOk(OnMainAnswer(s, answer))
  {
    if s.inFlight > 0 { MainAnsweredOk(s.(inFlight := s.inFlight - 1), answer); }
  }

  lemma OnMainFailMainOk(s: State, now: int)
    requires MainOk(s) && BackoffsOk(s) && now >= 0
    ensures MainOk(OnMainFail(s, now)) && BackoffsOk(OnMainFail(s, now))
  {
    if s.inFlight > 0 { StartFailTimerMainOk(s.(inFlight := s.inFlight - 1), None, now); }
  }

  lemma OnChannelAnswerMainOk(s: State, c: Channel, isFinal: bool, poll: Option<int>, now: int)
    requires MainOk(s) && BackoffsOk(s) && now >= 0
    ensures MainOk(OnChannelAnswer(s, c, isFinal, poll, now)) && BackoffsOk(OnChannelAnswer(s, c, isFinal, poll, now))
  {
    ChannelAnsweredMainOk(Answered(s, c), c, isFinal, poll, now);
  }

  lemma OnChannelFailMainOk(s: State, c: Channel, now: int)
    requires MainOk(s) && BackoffsOk(s) && now >= 0
    ensures MainOk(OnChannelFail(s, c, now)) && BackoffsOk(OnChannelFail(s, c, now))
  {
    StartFailTimerMainOk(Answered(s, c), Some(c), now);
  }

  lemma StepMainOk(s: State, e: Event, now: int)
    requires MainOk(s) && BackoffsOk(s) && now >= 0
    ensures MainOk(Step(s, e, now)) && BackoffsOk(Step(s, e, now))
  {
    match e
    case MainAnswers(answer) => OnMainAnswerMainOk(s, answer);
    case MainFails => OnMainFailMainOk(s, now);
    case ChannelAnswers(c, isFinal, poll) => OnChannelAnswerMainOk(s, c, isFinal, poll, now);
    case ChannelFails(c) => OnChannelFailMainOk(s, c, now);
    case _ => OwnEventMainOk(s, e, now);
  }

  lemma OwnEventMainOk(s: State, e: Event, now: int)
    requires MainOk(s) && BackoffsOk(s) && now >= 0 && Own(e)
    ensures MainOk(Step(s, e, now)) && BackoffsOk(Step(s, e, now))
  {
    match e
    case PtsWait(channel, ms) => StartTimerMainOk(s, channel, ms, now);
    case ByPtsTimerFires => OnByPtsTimerMainOk(s, now);
    case FailTimerFires => OnFailTimerMainOk(s, now);
    case MainAsked => AsksMainOk(s, 0);
    case ChannelAsked(c) => AsksMainOk(s, c);
    case ChannelInited(c) =>
  }

  lemma AsksMainOk(s: State, c: Channel)
    requires MainOk(s) && BackoffsOk(s)
    ensures MainOk(AskMain(s)) && BackoffsOk(AskMain(s))
    ensures MainOk(AskChannel(s, c, Unknown)) && BackoffsOk(AskChannel(s, c, Unknown))
  {
  }

  lemma {:induction false} EveryRunMainOk(moments: seq<Moment>)
    requires forall i :: 0 <= i < |moments| ==> moments[i].now >= 0
    ensures MainOk(Run(Started(), moments)) && BackoffsOk(Run(Started(), moments))
  {
    if moments != [] {
      var last := moments[|moments| - 1];
      EveryRunMainOk(moments[..|moments| - 1]);
      StepMainOk(Run(Started(), moments[..|moments| - 1]), last.event, last.now);
    }
  }

  /** The event after which the main stream stops: an answer without any state. */
  predicate Stops(s: State, e: Event) {
    e == MainAnswers(Nothing) && s.inFlight > 0
  }

  lemma StopsExactlyWhen(s: State, e: Event, now: int)
    ensures Step(s, e, now).lost <==> s.lost || Stops(s, e)
  {
    match e
    case MainAnswers(answer) => OnMainAnswerLoses(s, answer);
    case MainFails => OnMainFailKeepsLost(s, now);
    case ChannelAnswers(c, isFinal, poll) => OnChannelAnswerKeepsLost(s, c, isFinal, poll, now);
    case ChannelFails(c) => OnChannelFailKeepsLost(s, c, now);
    case _ => OwnEventKeepsLost(s, e, now);
  }

  lemma OwnEventKeepsLost(s: State, e: Event, now: int)
    requires Own(e)
    ensures Step(s, e, now).lost == s.lost
  {
    match e
    case PtsWait(channel, ms) => StartTimerKeepsLost(s, channel, ms, now);
    case ByPtsTimerFires => ByPtsKeepsLost(s.(byPtsTimer := Idle), now);
    case FailTimerFires => AfterFailKeepsLost(s.(failTimer := Idle), now);
    case MainAsked => AsksKeepLost(s, 0);
    case ChannelAsked(c) => AsksKeepLost(s, c);
    case ChannelInited(c) =>
  }

  lemma AsksKeepLost(s: State, c: Channel)
    ensures AskMain(s).lost == s.lost && AskChannel(s, c, Unknown).lost == s.lost
  {
  }

  lemma OnMainAnswerLoses(s: State, answer: Answer)
    ensures OnMainAnswer(s, answer).lost <==> s.lost || (answer == Nothing && s.inFlight > 0)
  {
  }

  lemma OnMainFailKeepsLost(s: State, now: int)
    ensures OnMainFail(s, now).lost == s.lost
  {
    if s.inFlight > 0 { StartFailTimerKeepsLost(s.(inFlight := s.inFlight - 1), None, now); }
  }

  lemma OnChannelFailKeepsLost(s: State, c: Channel, now: int)
    ensures OnChannelFail(s, c, now).lost == s.lost
  {
    if c in s.channelInFlight { StartFailTimerKeepsLost(Answered(s, c), Some(c), now); }
  }

  lemma OnChannelAnswerKeepsLost(s: State, c: Channel, isFinal: bool, poll: Option<int>, now: int)
    ensures OnChannelAnswer(s, c, isFinal, poll, now).lost == s.lost
  {
    if c in s.channelInFlight { ChannelAnsweredKeepsLost(Answered(s, c), c, isFinal, poll, now); }
  }

  lemma ByPtsKeepsLost(s: State, now: int)
    ensures RecomputeByPts(s, now).lost == s.lost
  {
  }

  lemma AfterFailKeepsLost(s: State, now: int)
    ensures RecomputeAfterFail(s, now).lost == s.lost
  {
  }

  lemma StartTimerKeepsLost(s: State, channel: Option<Channel>, ms: int, now: int)
    ensures StartTimer(s, channel, ms, now).lost == s.lost
  {
    ByPtsKeepsLost(s.(byPts := s.byPts.Changed(channel, ms, now).0), now);
  }

  lemma StartFailTimerKeepsLost(s: State, channel: Option<Channel>, now: int)
    ensures StartFailTimer(s, channel, now).lost == s.lost
  {
    var t := TimeoutOf(s, channel);
    AfterFailKeepsLost(WithTimeout(s, channel, t).(afterFail := s.afterFail.Changed(channel, t * 1000, now).0), now);
  }

  lemma ChannelAnsweredKeepsLost(s: State, c: Channel, isFinal: bool, poll: Option<int>, now: int)
    ensures ChannelAnswered(s, c, isFinal, poll, now).lost == s.lost
  {
    var s1 := s.(channelTimeout := s.channelTimeout - {c}, channelRequesting := s.channelRequesting - {c});
    if isFinal && poll.Some? { StartTimerKeepsLost(s1, Some(c), poll.value, now); }
  }

  /** From then on no run puts another main request in flight. */
  lemma {:induction false} StoppedStaysStopped(s: State, moments: seq<Moment>)
    requires MainOk(s) && BackoffsOk(s) && s.lost
    requires forall i :: 0 <= i < |moments| ==> moments[i].now >= 0
    ensures var t := Run(s, moments);
            MainOk(t) && BackoffsOk(t) && t.lost && t.requesting && t.inFlight == 0 && t.afterFail.main == 0
  {
    if moments != [] {
      var last := moments[|moments| - 1];
      var before := moments[..|moments| - 1];
      StoppedStaysStopped(s, before);
      StepMainOk(Run(s, before), last.event, last.now);
      StopsExactlyWhen(Run(s, before), last.event, last.now);
    }
  }

  /** A run that was asked for the difference, got no state, and was asked again and again in vain. */
  lemma TooLongStopsTheStream()
    ensures var s := Step(Started(), MainAnswers(Nothing), 0);
            s.requesting && s.inFlight == 0 && Step(Step(s, MainAsked, 1), FailTimerFires, 2) == s
  {
  }

  // ---------------------------------------------------------------- the channels

  ghost predicate ChannelsOk(s: State) {
    forall c :: c in s.channelInFlight ==> s.channelInFlight[c] == 1 && c in s.channelRequesting
  }

  /** The channel is marked as requesting although nothing was sent that could be answered. */
  ghost predicate Stuck(s: State, c: Channel) {
    c in s.channelRequesting && c !in s.channelInFlight
  }

  lemma RequestExpiredChannels(s: State, expired: set<Channel>, from: From, stuck: Channel)
    requires ChannelsOk(s)
    ensures ChannelsOk(RequestExpired(s, expired, from))
    ensures Stuck(s, stuck) ==> Stuck(RequestExpired(s, expired, from), stuck)
  {
    var sent := Sent(s, expired);
    assert forall c :: c in sent ==> multiset(sent)[c] == 1;
  }

  lemma AskChannelChannels(s: State, c: Channel, from: From, stuck: Channel)
    requires ChannelsOk(s)
    ensures ChannelsOk(AskChannel(s, c, from))
    ensures Stuck(s, stuck) ==> Stuck(AskChannel(s, c, from), stuck)
  {
  }

  lemma ChannelAnsweredChannels(s: State, c: Channel, isFinal: bool, poll: Option<int>, now: int, stuck: Channel)
    requires ChannelsOk(s) && c !in s.channelInFlight && c != stuck
    ensures ChannelsOk(ChannelAnswered(s, c, isFinal, poll, now))
    ensures Stuck(s, stuck) ==> Stuck(ChannelAnswered(s, c, isFinal, poll, now), stuck)
  {
    var s1 := s.(channelTimeout := s.channelTimeout - {c}, channelRequesting := s.channelRequesting - {c});
    if !isFinal {
      AskChannelChannels(s1, c, Unknown, stuck);
    } else if poll.Some? {
      StartTimerChannels(s1, Some(c), poll.value, now, stuck);
    }
  }

  lemma OnByPtsTimerChannels(s: State, now: int, stuck: Channel)
    requires ChannelsOk(s)
    ensures ChannelsOk(OnByPtsTimer(s, now))
    ensures Stuck(s, stuck) ==> Stuck(OnByPtsTimer(s, now), stuck)
  {
    RecomputeByPtsChannels(s.(byPtsTimer := Idle), now, stuck);
  }

  lemma OnFailTimerChannels(s: State, now: int, stuck: Channel)
    requires ChannelsOk(s)
    ensures ChannelsOk(OnFailTimer(s, now))
    ensures Stuck(s, stuck) ==> Stuck(OnFailTimer(s, now), stuck)
  {
    RecomputeAfterFailChannels(s.(failTimer := Idle), now, stuck);
  }

  lemma OnMainAnswerChannels(s: State, answer: Answer, stuck: Channel)
    requires ChannelsOk(s)
    ensures ChannelsOk(OnMainAnswer(s, answer))
    ensures Stuck(s, stuck) ==> Stuck(OnMainAnswer(s, answer), stuck)
  {
  }

  lemma OnMainFailChannels(s: State, now: int, stuck: Channel)
    requires ChannelsOk(s)
    ensures ChannelsOk(OnMainFail(s, now))
    ensures Stuck(s, stuck) ==> Stuck(OnMainFail(s, now), stuck)
  {
    if s.inFlight > 0 { StartFailTimerChannels(s.(inFlight := s.inFlight - 1), None, now, stuck); }
  }

  lemma OnChannelAnswerChannels(s: State, c: Channel, isFinal: bool, poll: Option<int>, now: int, stuck: Channel)
    requires ChannelsOk(s)
    ensures ChannelsOk(OnChannelAnswer(s, c, isFinal, poll, now))
    ensures Stuck(s, stuck) ==> Stuck(OnChannelAnswer(s, c, isFinal, poll, now), stuck)
  {
    if c in s.channelInFlight {
      ChannelAnsweredChannels(Answered(s, c), c, isFinal, poll, now, if stuck == c then c + 1 else stuck);
    }
  }

  lemma OnChannelFailChannels(s: State, c: Channel, now: int, stuck: Channel)
    requires ChannelsOk(s)
    ensures ChannelsOk(OnChannelFail(s, c, now))
    ensures Stuck(s, stuck) ==> Stuck(OnChannelFail(s, c, now), stuck)
  {
    if c in s.channelInFlight { StartFailTimerChannels(Answered(s, c), Some(c), now, stuck); }
  }

  lemma StepChannels(s: State, e: Event, now: int, stuck: Channel)
    requires ChannelsOk(s)
    ensures ChannelsOk(Step(s, e, now))
    ensures Stuck(s, stuck) ==> Stuck(Step(s, e, now), stuck)
  {
    match e
    case PtsWait(channel, ms) => StartTimerChannels(s, channel, ms, now, stuck);
    case ByPtsTimerFires => OnByPtsTimerChannels(s, now, stuck);
    case FailTimerFires => OnFailTimerChannels(s, now, stuck);
    case MainAsked =>
    case ChannelAsked(c) => AskChannelChannels(s, c, Unknown, stuck);
    case MainAnswers(answer) => OnMainAnswerChannels(s, answer, stuck);
    case MainFails => OnMainFailChannels(s, now, stuck);
    case ChannelAnswers(c, isFinal, poll) => OnChannelAnswerChannels(s, c, isFinal, poll, now, stuck);
    case ChannelFails(c) => OnChannelFailChannels(s, c, now, stuck);
    case ChannelInited(c) =>
  }

  lemma RecomputeByPtsChannels(s: State, now: int, stuck: Channel)
    requires ChannelsOk(s)
    ensures ChannelsOk(RecomputeByPts(s, now))
    ensures Stuck(s, stuck) ==> Stuck(RecomputeByPts(s, now), stuck)
  {
    var s1 := AfterMainByPts(s, now);
    RequestExpiredChannels(s1, Expired(s1.byPts.channels, now), PtsGapOrShortPoll, stuck);
  }

  lemma RecomputeAfterFailChannels(s: State, now: int, stuck: Channel)
    requires ChannelsOk(s)
    ensures ChannelsOk(RecomputeAfterFail(s, now))
    ensures Stuck(s, stuck) ==> Stuck(RecomputeAfterFail(s, now), stuck)
  {
    var s1 := AfterMainAfterFail(s, now);
    RequestExpiredChannels(s1, Expired(s1.afterFail.channels, now), AfterFail, stuck);
  }

  lemma StartTimerChannels(s: State, channel: Option<Channel>, ms: int, now: int, stuck: Channel)
    requires ChannelsOk(s)
    ensures ChannelsOk(StartTimer(s, channel, ms, now))
    ensures Stuck(s, stuck) ==> Stuck(StartTimer(s, channel, ms, now), stuck)
  {
    RecomputeByPtsChannels(s.(byPts := s.byPts.Changed(channel, ms, now).0), now, stuck);
  }

  lemma StartFailTimerChannels(s: State, channel: Option<Channel>, now: int, stuck: Channel)
    requires ChannelsOk(s)
    ensures ChannelsOk(StartFailTimer(s, channel, now))
    ensures Stuck(s, stuck) ==> Stuck(StartFailTimer(s, channel, now), stuck)
  {
    var t := TimeoutOf(s, channel);
    var s1 := WithTimeout(s, channel, t).(afterFail := s.afterFail.Changed(channel, t * 1000, now).0);
    RecomputeAfterFailChannels(s1, now, stuck);
  }

  lemma {:induction false} EveryRunChannels(s: State, moments: seq<Moment>, stuck: Channel)
    requires ChannelsOk(s)
    ensures ChannelsOk(Run(s, moments))
    ensures Stuck(s, stuck) ==> Stuck(Run(s, moments), stuck)
  {
    if moments != [] {
      var last := moments[|moments| - 1];
      EveryRunChannels(s, moments[..|moments| - 1], stuck);
      StepChannels(Run(s, moments[..|moments| - 1]), last.event, last.now, stuck);
    }
  }

  /** A failed channel difference is scheduled for a retry, but the retry never sends anything:
      after the failure no run puts another request for that channel in flight. */
  lemma FailedChannelIsNeverRetried(s: State, c: Channel, now: int, moments: seq<Moment>)
    requires ChannelsOk(s) && c in s.channelInFlight
    ensures c !in Run(Step(s, ChannelFails(c), now), moments).channelInFlight
  {
    var s1 := Step(s, ChannelFails(c), now);
    StartFailTimerChannels(Answered(s, c), Some(c), now, c);
    EveryRunChannels(s1, moments, c);
  }
}
