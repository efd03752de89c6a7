/** What becomes of each container: the outcome of every event of the update sequence, stated on the
    states alone, and the fate of a container over a whole run. */
module UpdateFates {
  import opened UpdateSequence

  // ---------------------------------------------------------------- the outcome of one event

  /** What is buffered for later than the next seq. */
  function Beyond(m: map<int, Batch>, u: int): map<int, Batch> {
    map k | k in m && k > u + 1 :: m[k]
  }

  /** The last of the containers ran into something that asks for the difference. */
  predicate EndsInGap(news: seq<Applied>) {
    news != [] && news[|news| - 1].batch.gap
  }

  ghost predicate FromBuffer(s: State, a: Applied) {
    a.before + 1 in s.bySeq && a.batch == s.bySeq[a.before + 1]
  }

  /** The seq is set to n.  Buffered containers are applied as long as the one in turn is there and no
      request has cleared the buffer; the ones that are passed are dropped, and the timer runs exactly
      if some are left. */
  ghost predicate Walked(s: State, n: int, news: seq<Applied>, t: State) {
    var clears := !s.requesting && EndsInGap(news);
    && t.log == s.log + news && Chain(n, news) && n <= t.updSeq == SeqAfter(n, news, |news|)
    && (forall i :: 0 <= i < |news| ==> FromBuffer(s, news[i]))
    && (forall i :: 0 <= i < |news| - 1 ==> s.requesting || !news[i].batch.gap)
    && t.requesting == (s.requesting || clears)
    && (if clears then t.bySeq == map[] else t.updSeq + 1 !in s.bySeq && t.bySeq == Beyond(s.bySeq, t.updSeq))
    && t.timer == (t.bySeq != map[])
  }

  ghost predicate Moved(s: State, n: int, news: seq<Applied>, t: State) {
    if n == 0 || n == s.updSeq then t == s && news == [] else Walked(s, n, news, t)
  }

  /** A container without a seq, or with the next one, is applied at once; an earlier one is dropped,
      and a later one is buffered. */
  ghost predicate Fed(s: State, b: Batch, news: seq<Applied>, t: State) {
    if b.start != 0 && b.start <= s.updSeq then
      t == s && news == []
    else if b.start != 0 && b.start > s.updSeq + 1 then
      t == s.(bySeq := s.bySeq[b.start := b], timer := true) && news == []
    else
      && news != [] && news[0] == Applied(s.updSeq, b)
      && var applied := s.(log := s.log + [news[0]]);
         if b.gap && !s.requesting then
           && news[1..] == []
           && t == applied.(bySeq := map[], timer := false, requesting := true,
                            updSeq := if b.end == 0 then s.updSeq else b.end)
         else Moved(applied, b.end, news[1..], t)
  }

  /** A request for the difference empties the buffer, unless one is under way. */
  ghost predicate Asked(s: State, t: State) {
    && t.requesting && t.updSeq == s.updSeq && t.log == s.log
    && (if s.requesting then t.bySeq == s.bySeq && t.timer == s.timer else t.bySeq == map[] && !t.timer)
  }

  /** The outcome of an event; `news` are the containers that are applied during it. */
  ghost predicate Outcome(s: State, e: Event, news: seq<Applied>, t: State) {
    match e
    case Received(b, forceLogout) => if s.requesting && !forceLogout then t == s && news == [] else Fed(s, b, news, t)
    case NewSession => Asked(s.(updSeq := 0), t) && news == []
    case SeqTimerFired => (if s.timer then Asked(s.(timer := false), t) else t == s) && news == []
    case AskedForDifference => Asked(s, t) && news == []
    case GotDifference(seqNo, slice) =>
      exists u: State :: Moved(s, seqNo, news, u)
                         && if slice then Asked(u.(requesting := false), t) else t == u.(requesting := false)
  }

  lemma {:induction false} DrainWalks(s: State) returns (news: seq<Applied>)
    requires Draining(s) && !s.timer
    ensures Walked(s, s.updSeq, news, Drain(s))
    decreases |s.bySeq|
  {
    hide Walked, Drain, Draining, Advanced;
    news := [];
    if s.bySeq == map[] || FirstKey(s.bySeq) > s.updSeq + 1 {
      WalkEnds(s);
    } else if FirstKey(s.bySeq) < s.updSeq + 1 {
      var k := FirstKey(s.bySeq);
      DrainSkips(s);
      news := DrainWalks(s.(bySeq := s.bySeq - {k}));
      WalkedPast(s, k, news, Drain(s));
    } else {
      var k := s.updSeq + 1;
      DrainTurns(s);
      var more := DrainWalks(Advanced(s.(bySeq := s.bySeq - {k}), s.bySeq[k]));
      news := [Applied(s.updSeq, s.bySeq[k])] + more;
      WalkedOn(s, s.bySeq[k], more, Drain(s));
    }
  }

  lemma DrainSkips(s: State)
    requires Draining(s) && s.bySeq != map[] && FirstKey(s.bySeq) < s.updSeq + 1
    ensures var rest := s.(bySeq := s.bySeq - {FirstKey(s.bySeq)});
            Drain(s) == Drain(rest) && Draining(rest) && |rest.bySeq| < |s.bySeq|
  {
  }

  lemma DrainTurns(s: State)
    requires Draining(s) && s.bySeq != map[] && FirstKey(s.bySeq) == s.updSeq + 1
    ensures var k := s.updSeq + 1;
            var next := Advanced(s.(bySeq := s.bySeq - {k}), s.bySeq[k]);
            && Drain(s) == Drain(next) && Draining(next) && !next.timer && |next.bySeq| < |s.bySeq|
            && s.bySeq[k].start == k <= s.bySeq[k].end && next.updSeq == s.bySeq[k].end
  {
    DrainAdvances(s);
    ApplyInTurn(s, s.updSeq + 1);
  }

  lemma WalkEnds(s: State)
    requires Draining(s) && !s.timer && forall k :: k in s.bySeq ==> k > s.updSeq + 1
    ensures Walked(s, s.updSeq, [], Drain(s))
  {
    assert Drain(s) == s.(timer := s.bySeq != map[]);
    assert Beyond(s.bySeq, s.updSeq) == s.bySeq;
  }

  lemma WalkedPast(s: State, k: int, news: seq<Applied>, t: State)
    requires k in s.bySeq && k < s.updSeq + 1 && Walked(s.(bySeq := s.bySeq - {k}), s.updSeq, news, t)
    ensures Walked(s, s.updSeq, news, t)
  {
    assert Beyond(s.bySeq, t.updSeq) == Beyond(s.bySeq - {k}, t.updSeq);
    var rest := s.(bySeq := s.bySeq - {k});
    forall i | 0 <= i < |news| ensures FromBuffer(s, news[i]) {
      assert FromBuffer(rest, news[i]);
    }
  }

  lemma WalkedOn(s: State, b: Batch, more: seq<Applied>, t: State)
    requires s.updSeq + 1 in s.bySeq && s.bySeq[s.updSeq + 1] == b && b.start == s.updSeq + 1 <= b.end
    requires Walked(Advanced(s.(bySeq := s.bySeq - {s.updSeq + 1}), b), b.end, more, t)
    ensures Walked(s, s.updSeq, [Applied(s.updSeq, b)] + more, t)
  {
    var k := s.updSeq + 1;
    var first, news := Applied(s.updSeq, b), [Applied(s.updSeq, b)] + more;
    var s1 := Advanced(s.(bySeq := s.bySeq - {k}), b);
    assert s.log + [first] + more == s.log + news;
    ChainOn(s.updSeq, first, more);
    if b.gap && !s.requesting {
      NothingFromNothing(s1, more);
    } else {
      forall i | 0 <= i < |news| ensures FromBuffer(s, news[i]) {
        if i > 0 { assert FromBuffer(s1, news[i]) && news[i] == more[i - 1]; }
      }
      forall i | 0 <= i < |news| - 1 ensures s.requesting || !news[i].batch.gap {
        if i > 0 { assert news[i] == more[i - 1]; }
      }
      assert Beyond(s.bySeq, t.updSeq) == Beyond(s.bySeq - {k}, t.updSeq);
    }
  }

  lemma NothingFromNothing(s: State, news: seq<Applied>)
    requires s.bySeq == map[] && (news != [] ==> FromBuffer(s, news[0]))
    ensures news == []
  {
  }

  lemma ChainOn(u: int, first: Applied, more: seq<Applied>)
    requires first.before == u && first.batch.start == u + 1 && Chain(first.batch.end, more)
    ensures Chain(u, [first] + more)
    ensures SeqAfter(u, [first] + more, |more| + 1) == SeqAfter(first.batch.end, more, |more|)
  {
    var log := [first] + more;
    forall i: nat | i < |log| ensures InTurn(u, log, i) {
      if i > 0 { assert InTurn(first.batch.end, more, i - 1); }
    }
  }

  lemma SetSeqMoves(s: State, seqNo: int) returns (news: seq<Applied>)
    requires Safe(s) && seqNo >= 0
    ensures Moved(s, seqNo, news, SetSeq(s, seqNo))
  {
    news := [];
    if seqNo != 0 && seqNo != s.updSeq {
      news := DrainWalks(s.(updSeq := seqNo, timer := false));
    }
  }

  lemma FeedHas(s: State, b: Batch) returns (news: seq<Applied>)
    requires Safe(s) && b.start <= b.end
    ensures Fed(s, b, news, Feed(s, b))
  {
    news := [];
    if b.start == 0 || b.start == s.updSeq + 1 {
      var more := SetSeqMoves(AfterApply(s, b), b.end);
      news := [Applied(s.updSeq, b)] + more;
      assert news[1..] == more;
      if b.gap && !s.requesting && more != [] {
        NothingFromNothing(AfterApply(s, b), more);
      }
    }
  }

  /** Every event has its outcome. */
  lemma StepHasOutcome(s: State, e: Event) returns (news: seq<Applied>)
    requires Safe(s) && WellFormed(e)
    ensures Outcome(s, e, news, Step(s, e)) && Step(s, e).log == s.log + news
  {
    news := [];
    match e
    case Received(b, forceLogout) => if !s.requesting || forceLogout { news := FeedHas(s, b); }
    case GotDifference(seqNo, slice) =>
      news := SetSeqMoves(s, seqNo);
      assert Moved(s, seqNo, news, SetSeq(s, seqNo));
    case _ =>
  }

  // ---------------------------------------------------------------- the fate of a container

  /** The container is applied during the event. */
  ghost predicate Applies(s: State, e: Event, b: Batch) {
    exists i :: |s.log| <= i < |Step(s, e).log| && Step(s, e).log[i].batch == b
  }

  /** A container with the same first seq takes its place. */
  predicate Replaces(s: State, e: Event, k: int) {
    e.Received? && (!s.requesting || e.forceLogout) && e.batch.start == k
  }

  /** The seq goes from below the container to its end or further without being the one before it. */
  ghost predicate Overtakes(s: State, e: Event, k: int) {
    var t := Step(s, e);
    s.updSeq + 1 < k <= t.updSeq && forall i :: |s.log| <= i < |t.log| ==> t.log[i].before + 1 != k
  }

  /** The event starts a request for the difference, which brings again whatever was buffered. */
  ghost predicate Asks(s: State, e: Event) {
    match e
    case NewSession => !s.requesting
    case AskedForDifference => !s.requesting
    case SeqTimerFired => s.timer && !s.requesting
    case GotDifference(_, slice) => slice || GapApplied(s, e)
    case Received(_, _) => GapApplied(s, e)
  }

  ghost predicate GapApplied(s: State, e: Event) {
    !s.requesting && exists i :: |s.log| <= i < |Step(s, e).log| && Step(s, e).log[i].batch.gap
  }

  predicate Buffered(s: State, b: Batch) {
    b.start in s.bySeq && s.bySeq[b.start] == b
  }

  /** The four ways in which a container leaves the buffer. */
  ghost predicate Leaves(s: State, e: Event, b: Batch) {
    || Applies(s, e, b) || Replaces(s, e, b.start) || Overtakes(s, e, b.start)
    || (Asks(s, e) && Step(s, e).bySeq == map[])
  }

  /** One of the containers is b, and that is so exactly if the seq was the one before it at some time. */
  ghost predicate Among(news: seq<Applied>, b: Batch) {
    exists i :: 0 <= i < |news| && news[i].batch == b
  }

  ghost predicate Before(news: seq<Applied>, k: int) {
    exists i :: 0 <= i < |news| && news[i].before + 1 == k
  }

  lemma MovedLeaves(s: State, n: int, news: seq<Applied>, t: State, b: Batch)
    requires Moved(s, n, news, t) && Buffered(s, b)
    ensures Buffered(t, b) || Among(news, b) || (b.start <= t.updSeq && !Before(news, b.start))
            || (!s.requesting && EndsInGap(news) && t.bySeq == map[])
  {
    if Before(news, b.start) {
      var i :| 0 <= i < |news| && news[i].before + 1 == b.start;
      assert news == [] || FromBuffer(s, news[i]);
    }
  }

  lemma NewsInLog(s: State, e: Event, news: seq<Applied>, b: Batch, k: int)
    requires Step(s, e).log == s.log + news
    ensures Applies(s, e, b) <==> Among(news, b)
    ensures (forall i :: |s.log| <= i < |Step(s, e).log| ==> Step(s, e).log[i].before + 1 != k) <==> !Before(news, k)
    ensures GapApplied(s, e) <==> !s.requesting && exists i :: 0 <= i < |news| && news[i].batch.gap
  {
    var log := Step(s, e).log;
    assert forall i :: 0 <= i < |news| ==> log[|s.log| + i] == news[i];
    assert forall i :: |s.log| <= i < |log| ==> log[i] == news[i - |s.log|];
  }

  lemma FedLeaves(s: State, c: Batch, news: seq<Applied>, t: State, b: Batch)
    requires Safe(s) && Fed(s, c, news, t) && Buffered(s, b) && c.start != b.start
    ensures Buffered(t, b) || Among(news, b) || (b.start <= t.updSeq && !Before(news, b.start))
            || (!s.requesting && (exists i :: 0 <= i < |news| && news[i].batch.gap) && t.bySeq == map[])
  {
    if news != [] && !(c.gap && !s.requesting) {
      var s1 := s.(log := s.log + [news[0]]);
      MovedLeaves(s1, c.end, news[1..], t, b);
      if Among(news[1..], b) {
        var i :| 0 <= i < |news[1..]| && news[1..][i].batch == b;
        assert news[i + 1].batch == b;
      }
      if Before(news, b.start) {
        var i :| 0 <= i < |news| && news[i].before + 1 == b.start;
        assert i > 0 && news[1..][i - 1] == news[i];
      }
    }
  }

  /** A container that is buffered stays there, unless it leaves in one of the four ways. */
  lemma BufferedStaysOrLeaves(s: State, e: Event, b: Batch)
    requires Safe(s) && WellFormed(e) && Buffered(s, b)
    ensures Buffered(Step(s, e), b) || Leaves(s, e, b)
  {
    var news := StepHasOutcome(s, e);
    NewsInLog(s, e, news, b, b.start);
    match e
    case Received(c, forceLogout) =>
      if (!s.requesting || forceLogout) && c.start != b.start { FedLeaves(s, c, news, Step(s, e), b); }
    case GotDifference(seqNo, slice) =>
      var u: State :| Moved(s, seqNo, news, u)
                      && if slice then Asked(u.(requesting := false), Step(s, e))
                         else Step(s, e) == u.(requesting := false);
      if !slice { MovedLeaves(s, seqNo, news, u, b); }
    case _ =>
  }

  /** A container that is fed is applied at once, or is an earlier one, or is buffered. */
  lemma ReceivedHasFate(s: State, b: Batch, forceLogout: bool)
    requires Safe(s) && b.start <= b.end && (!s.requesting || forceLogout)
    ensures var e := Received(b, forceLogout);
            var t := Step(s, e);
            if b.start == 0 || b.start == s.updSeq + 1 then s.log + [Applied(s.updSeq, b)] <= t.log
            else t == if b.start <= s.updSeq then s else s.(bySeq := s.bySeq[b.start := b], timer := true)
  {
    var news := StepHasOutcome(s, Received(b, forceLogout));
    if b.start == 0 || b.start == s.updSeq + 1 { assert news == [news[0]] + news[1..]; }
  }

  // ---------------------------------------------------------------- over a run

  /** The container is applied after the first n applied ones. */
  ghost predicate AppliedSince(n: nat, log: seq<Applied>, b: Batch) {
    exists i :: n <= i < |log| && log[i].batch == b
  }

  /** During the run after the first n events the container left the buffer without being applied. */
  ghost predicate Lost(s: State, events: seq<Event>, n: nat, b: Batch) {
    exists j :: n <= j < |events| && LostAt(s, events, j, b)
  }

  ghost predicate LostAt(s: State, events: seq<Event>, j: nat, b: Batch)
    requires j < |events|
  {
    var u, e := Run(s, events[..j]), events[j];
    && Buffered(u, b)
    && (Replaces(u, e, b.start) || Overtakes(u, e, b.start) || (Asks(u, e) && Step(u, e).bySeq == map[]))
  }

  lemma StepKeepsLog(s: State, e: Event)
    requires Safe(s) && WellFormed(e)
    ensures s.log <= Step(s, e).log
  {
    var news := StepHasOutcome(s, e);
  }

  /** The i-th event brings a container.  It is not fed, or it was an earlier one; or it is applied,
      then or later; or it is still buffered; or it was buffered and then replaced, overtaken, or cleared
      when a request for the difference was started. */
  ghost predicate HasFate(s: State, events: seq<Event>, i: nat)
    requires i < |events| && events[i].Received?
  {
    var u, b, t := Run(s, events[..i]), events[i].batch, Run(s, events);
    && u.log <= t.log
    && ((u.requesting && !events[i].forceLogout)
        || (b.start != 0 && b.start <= u.updSeq)
        || AppliedSince(|u.log|, t.log, b)
        || Buffered(t, b)
        || Lost(s, events, i + 1, b))
  }

  lemma {:induction false} EveryContainerHasFate(s: State, events: seq<Event>, i: nat)
    requires Safe(s) && (forall j :: 0 <= j < |events| ==> WellFormed(events[j]))
    requires i < |events| && events[i].Received?
    ensures HasFate(s, events, i)
  {
    hide HasFate;
    var last := |events| - 1;
    EveryRunIsSafe(s, events[..last]);
    if i == last {
      FateAtOnce(s, events);
    } else {
      EveryContainerHasFate(s, events[..last], i);
      FateGoesOn(s, events, i);
    }
  }

  lemma FateAtOnce(s: State, events: seq<Event>)
    requires events != [] && events[|events| - 1].Received? && WellFormed(events[|events| - 1])
    requires Safe(Run(s, events[..|events| - 1]))
    ensures HasFate(s, events, |events| - 1)
  {
    var e, u, t := events[|events| - 1], Run(s, events[..|events| - 1]), Run(s, events);
    StepKeepsLog(u, e);
    if !u.requesting || e.forceLogout { ReceivedHasFate(u, e.batch, e.forceLogout); }
    if AppliedFirst(u, e.batch, t) { assert t.log[|u.log|].batch == e.batch; }
  }

  lemma FateGoesOn(s: State, events: seq<Event>, i: nat)
    requires i < |events| - 1 && events[i].Received? && WellFormed(events[|events| - 1])
    requires Safe(Run(s, events[..|events| - 1])) && HasFate(s, events[..|events| - 1], i)
    ensures HasFate(s, events, i)
  {
    var last := |events| - 1;
    var before, w, t, b := events[..last], Run(s, events[..last]), Run(s, events), events[i].batch;
    assert before[..i] == events[..i];
    StepKeepsLog(w, events[last]);
    var n := |Run(s, events[..i]).log|;
    if AppliedSince(n, w.log, b) {
      var j :| n <= j < |w.log| && w.log[j].batch == b;
      assert t.log[j].batch == b;
    } else if Buffered(w, b) {
      LeavesInRun(s, events, n, b);
    } else if Lost(s, before, i + 1, b) {
      LostBefore(s, events, i + 1, b);
    }
  }

  lemma LeavesInRun(s: State, events: seq<Event>, n: nat, b: Batch)
    requires events != [] && WellFormed(events[|events| - 1]) && Buffered(Run(s, events[..|events| - 1]), b)
    requires Safe(Run(s, events[..|events| - 1])) && n <= |Run(s, events[..|events| - 1]).log|
    ensures AppliedSince(n, Run(s, events).log, b) || Buffered(Run(s, events), b) || LostAt(s, events, |events| - 1, b)
  {
    BufferedStaysOrLeaves(Run(s, events[..|events| - 1]), events[|events| - 1], b);
  }

  lemma LostBefore(s: State, events: seq<Event>, n: nat, b: Batch)
    requires events != [] && Lost(s, events[..|events| - 1], n, b)
    ensures Lost(s, events, n, b)
  {
    var before := events[..|events| - 1];
    var j :| n <= j < |before| && LostAt(s, before, j, b);
    assert before[..j] == events[..j];
    assert LostAt(s, events, j, b);
  }

  ghost predicate AppliedFirst(u: State, b: Batch, t: State) {
    u.log + [Applied(u.updSeq, b)] <= t.log
  }

  /** Whatever is applied was received, or buffered at the start. */
  lemma {:induction false} OnlyReceivedIsApplied(s: State, events: seq<Event>, b: Batch)
    requires Safe(s) && (forall j :: 0 <= j < |events| ==> WellFormed(events[j]))
    ensures s.log <= Run(s, events).log
    ensures AppliedSince(|s.log|, Run(s, events).log, b) || b in Run(s, events).bySeq.Values ==>
              b in s.bySeq.Values || exists j :: 0 <= j < |events| && events[j].Received? && events[j].batch == b
  {
    if events != [] {
      var last := |events| - 1;
      var before := events[..last];
      OnlyReceivedIsApplied(s, before, b);
      EveryRunIsSafe(s, before);
      var w, e := Run(s, before), events[last];
      StepKeepsLog(w, e);
      OneStepApplies(w, e, b);
      if AppliedSince(|s.log|, Run(s, events).log, b) { NowOrBefore(|s.log|, w, e, b); }
      assert forall j :: 0 <= j < last ==> before[j] == events[j];
      assert events[last] == e;
    }
  }

  lemma NowOrBefore(n: nat, s: State, e: Event, b: Batch)
    requires n <= |s.log| && s.log <= Step(s, e).log && AppliedSince(n, Step(s, e).log, b)
    ensures AppliedSince(n, s.log, b) || Applies(s, e, b)
  {
    var i :| n <= i < |Step(s, e).log| && Step(s, e).log[i].batch == b;
    if i < |s.log| { assert s.log[i].batch == b; }
  }

  lemma OneStepApplies(s: State, e: Event, b: Batch)
    requires Safe(s) && WellFormed(e)
    ensures Applies(s, e, b) || b in Step(s, e).bySeq.Values ==> b in s.bySeq.Values || (e.Received? && e.batch == b)
  {
    var news := StepHasOutcome(s, e);
    NewsInLog(s, e, news, b, 0);
    match e
    case Received(c, forceLogout) => if !s.requesting || forceLogout { FedBrings(s, c, news, Step(s, e), b); }
    case GotDifference(seqNo, slice) =>
      var u: State :| Moved(s, seqNo, news, u)
                      && if slice then Asked(u.(requesting := false), Step(s, e))
                         else Step(s, e) == u.(requesting := false);
      MovedBrings(s, seqNo, news, u, b);
    case _ =>
  }

  lemma MovedBrings(s: State, n: int, news: seq<Applied>, t: State, b: Batch)
    requires Moved(s, n, news, t)
    ensures Among(news, b) || b in t.bySeq.Values ==> b in s.bySeq.Values
  {
    if Among(news, b) {
      var i :| 0 <= i < |news| && news[i].batch == b;
      assert FromBuffer(s, news[i]);
    }
  }

  lemma FedBrings(s: State, c: Batch, news: seq<Applied>, t: State, b: Batch)
    requires Fed(s, c, news, t)
    ensures Among(news, b) || b in t.bySeq.Values ==> b in s.bySeq.Values || b == c
  {
    if news != [] {
      var s1 := s.(log := s.log + [news[0]]);
      if !(c.gap && !s.requesting) { MovedBrings(s1, c.end, news[1..], t, b); }
      if Among(news, b) {
        var i :| 0 <= i < |news| && news[i].batch == b;
        assert i > 0 ==> news[1..][i - 1].batch == b;
      }
    }
  }
}
