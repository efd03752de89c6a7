/** What every operation of the difference scheduler does to each deadline and each request, one slot at
    a time. */
module DifferenceSlots {
  import opened DifferenceScheduler
  import opened OrderedKeys
  import opened Options

  /** A deadline of a table: that of the main stream, or that of a channel.  The main stream of None is
      how the functions of the scheduler name it, too. */
  type Slot = Option<Channel>

  function At(t: Deadlines, slot: Slot): Option<int> {
    match slot
    case None => if t.main == 0 then None else Some(t.main)
    case Some(c) => if c in t.channels then Some(t.channels[c]) else None
  }

  predicate Passed(deadline: Option<int>, now: int) {
    deadline.Some? && deadline.value <= now
  }

  function Later(deadline: Option<int>, now: int): Option<int> {
    if Passed(deadline, now) then None else deadline
  }

  function Sooner(deadline: Option<int>, when: int): Option<int> {
    if deadline.Some? && deadline.value <= when then deadline else Some(when)
  }

  // ---------------------------------------------------------------- asking for a timer

  /** The slot gets the lesser of what it holds and the new deadline, or is cleared; no other slot
      changes, and the flag tells whether this one did. */
  lemma ChangedSlots(t: Deadlines, slot: Slot, ms: int, now: int)
    requires now >= 0
    ensures var (u, changed) := t.Changed(slot, ms, now);
            && At(u, slot) == (if ms <= 0 then None else Sooner(At(t, slot), now + ms))
            && (forall other :: other != slot ==> At(u, other) == At(t, other))
            && (changed <==> u != t) && (changed <==> At(u, slot) != At(t, slot))
  {
    var (u, changed) := t.Changed(slot, ms, now);
    UnchangedIsSame(t, slot, ms, now);
  }

  // ---------------------------------------------------------------- requests

  /** A request for the main stream is sent unless one is under way or a retry is waited for. */
  lemma AskMainIs(s: State)
    ensures var t := AskMain(s);
            && t.requesting && t.inFlight == s.inFlight + (if s.requesting then 0 else 1)
            && At(t.byPts, None) == None
            && At(t.afterFail, None) == (if s.requesting then At(s.afterFail, None) else None)
            && (forall c :: SameChannel(s, t, c)) && SameBut(s, t)
  {
  }

  /** The channel has a pts, and no request of it is under way. */
  predicate MayAsk(s: State, c: Channel) {
    c in s.inited && !(c in s.channelRequesting)
  }

  /** What no request changes. */
  predicate SameBut(s: State, t: State) {
    && t.byPtsTimer == s.byPtsTimer && t.failTimer == s.failTimer && t.inited == s.inited
    && t.timeout == s.timeout && t.channelTimeout == s.channelTimeout && t.lost == s.lost
  }

  predicate SameMain(s: State, t: State) {
    t.requesting == s.requesting && t.inFlight == s.inFlight
    && At(t.byPts, None) == At(s.byPts, None) && At(t.afterFail, None) == At(s.afterFail, None)
  }

  predicate SameChannel(s: State, t: State, c: Channel) {
    && t.channelInFlight[c] == s.channelInFlight[c] && (c in t.channelRequesting <==> c in s.channelRequesting)
    && At(t.byPts, Some(c)) == At(s.byPts, Some(c)) && At(t.afterFail, Some(c)) == At(s.afterFail, Some(c))
  }

  /** A request for a channel that has a pts and is not requesting is sent, whatever asked for it. */
  predicate SentFor(s: State, t: State, c: Channel, sends: bool) {
    && t.channelInFlight[c] == s.channelInFlight[c] + (if sends then 1 else 0)
    && (c in t.channelRequesting <==> sends || c in s.channelRequesting)
  }

  lemma AskChannelIs(s: State, c: Channel, from: From)
    ensures var t := AskChannel(s, c, from);
            && SentFor(s, t, c, MayAsk(s, c))
            && At(t.byPts, Some(c)) == (if from == PtsGapOrShortPoll then At(s.byPts, Some(c)) else None)
            && At(t.afterFail, Some(c))
               == (if MayAsk(s, c) && from != AfterFail then None else At(s.afterFail, Some(c)))
            && (forall d :: d != c ==> SameChannel(s, t, d)) && SameMain(s, t) && SameBut(s, t)
  {
  }

  /** A channel that gets its pts may be asked for, and nothing else changes. */
  lemma InitedMayAsk(s: State, c: Channel, now: int)
    ensures var t := Step(s, ChannelInited(c), now);
            && (MayAsk(t, c) <==> c !in s.channelRequesting) && SameMain(s, t) && SameBut(s, t.(inited := s.inited))
            && (forall d :: SameChannel(s, t, d) && (d != c ==> (MayAsk(t, d) <==> MayAsk(s, d))))
  {
  }

  // ---------------------------------------------------------------- the recomputes

  /** Requesting all expired channels at once, seen from one channel. */
  lemma RequestExpiredIs(s: State, expired: set<Channel>, from: From, c: Channel)
    ensures var t, passed := RequestExpired(s, expired, from), c in expired;
            && SentFor(s, t, c, passed && MayAsk(s, c))
            && At(t.byPts, Some(c)) == (if passed then None else At(s.byPts, Some(c)))
            && At(t.afterFail, Some(c))
               == (if passed && (from == AfterFail || MayAsk(s, c)) then None else At(s.afterFail, Some(c)))
  {
    assert multiset(Sent(s, expired))[c] == if c in expired && MayAsk(s, c) then 1 else 0;
  }

  ghost predicate RecomputedByPts(s: State, t: State, c: Channel, now: int) {
    var passed := Passed(At(s.byPts, Some(c)), now);
    var sends := passed && MayAsk(s, c);
    && SentFor(s, t, c, sends)
    && At(t.byPts, Some(c)) == Later(At(s.byPts, Some(c)), now)
    && At(t.afterFail, Some(c)) == (if sends then None else At(s.afterFail, Some(c)))
  }

  ghost predicate MainByPts(s: State, t: State, now: int) {
    var asked := Passed(At(s.byPts, None), now) && !s.requesting;
    && At(t.byPts, None) == Later(At(s.byPts, None), now)
    && t.inFlight == s.inFlight + (if asked then 1 else 0) && t.requesting == (asked || s.requesting)
    && At(t.afterFail, None) == (if asked then None else At(s.afterFail, None))
  }

  /** Deadlines that have passed are gone and lead to requests where they can, the others stay. */
  lemma RecomputeByPtsIs(s: State, now: int)
    ensures var t := RecomputeByPts(s, now);
            && MainByPts(s, t, now) && (forall c :: RecomputedByPts(s, t, c, now))
            && SameBut(s, t.(byPtsTimer := s.byPtsTimer))
  {
    hide AskMain, RequestExpired;
    var s1 := AfterMainByPts(s, now);
    var expired := Expired(s1.byPts.channels, now);
    ByPtsMain(s, now);
    forall c ensures RecomputedByPts(s, RecomputeByPts(s, now), c, now) {
      RequestExpiredIs(s1, expired, PtsGapOrShortPoll, c);
      assert SameChannel(s, s1, c) && (MayAsk(s1, c) <==> MayAsk(s, c));
      assert c in expired <==> Passed(At(s.byPts, Some(c)), now);
    }
  }

  lemma ByPtsMain(s: State, now: int)
    ensures var t := RecomputeByPts(s, now);
            MainByPts(s, t, now) && SameBut(s, t.(byPtsTimer := s.byPtsTimer))
    ensures forall c :: SameChannel(s, AfterMainByPts(s, now), c)
    ensures forall c :: MayAsk(AfterMainByPts(s, now), c) <==> MayAsk(s, c)
  {
  }

  ghost predicate RecomputedAfterFail(s: State, t: State, c: Channel, now: int) {
    var passed := Passed(At(s.afterFail, Some(c)), now);
    && SentFor(s, t, c, passed && MayAsk(s, c))
    && At(t.afterFail, Some(c)) == Later(At(s.afterFail, Some(c)), now)
    && At(t.byPts, Some(c)) == (if passed then None else At(s.byPts, Some(c)))
  }

  ghost predicate MainAfterFail(s: State, t: State, now: int) {
    var asked := Passed(At(s.afterFail, None), now);
    && At(t.afterFail, None) == Later(At(s.afterFail, None), now)
    && t.inFlight == s.inFlight + (if asked then 1 else 0) && t.requesting == (asked || s.requesting)
    && At(t.byPts, None) == (if asked then None else At(s.byPts, None))
  }

  lemma RecomputeAfterFailIs(s: State, now: int)
    ensures var t := RecomputeAfterFail(s, now);
            && MainAfterFail(s, t, now) && (forall c :: RecomputedAfterFail(s, t, c, now))
            && SameBut(s, t.(failTimer := s.failTimer))
  {
    hide AskMain, RequestExpired;
    var s1 := AfterMainAfterFail(s, now);
    var expired := Expired(s1.afterFail.channels, now);
    AfterFailMain(s, now);
    forall c ensures RecomputedAfterFail(s, RecomputeAfterFail(s, now), c, now) {
      RequestExpiredIs(s1, expired, AfterFail, c);
      assert SameChannel(s, s1, c) && (MayAsk(s1, c) <==> MayAsk(s, c));
      assert c in expired <==> Passed(At(s.afterFail, Some(c)), now);
    }
  }

  lemma AfterFailMain(s: State, now: int)
    ensures var t := RecomputeAfterFail(s, now);
            MainAfterFail(s, t, now) && SameBut(s, t.(failTimer := s.failTimer))
    ensures forall c :: SameChannel(s, AfterMainAfterFail(s, now), c)
    ensures forall c :: MayAsk(AfterMainAfterFail(s, now), c) <==> MayAsk(s, c)
  {
  }

  // ---------------------------------------------------------------- deadlines are kept

  /** Whoever asks for a timer has it in time: the slot holds a deadline that is no later, and the timer
      is due by then. */
  lemma StartTimerInTime(s: State, slot: Slot, ms: int, now: int)
    requires Covered(s) && now >= 0
    ensures var t := StartTimer(s, slot, ms, now);
            && At(t.byPts, slot) == (if ms <= 0 then None else Sooner(At(s.byPts, slot), now + ms))
            && (ms > 0 ==> t.byPtsTimer.Due? && t.byPtsTimer.at <= now + ms)
  {
    var t := StartTimer(s, slot, ms, now);
    ChangedSlots(s.byPts, slot, ms, now);
    var (table, changed) := s.byPts.Changed(slot, ms, now);
    if changed { SlotStays(s.(byPts := table), slot, now); }
    StartTimerCovers(s, slot, ms, now);
    if ms > 0 { HeldIsDue(t.byPts, t.byPtsTimer, slot); }
  }

  lemma SlotStays(s: State, slot: Slot, now: int)
    ensures At(RecomputeByPts(s, now).byPts, slot) == Later(At(s.byPts, slot), now)
    ensures At(RecomputeAfterFail(s, now).afterFail, slot) == Later(At(s.afterFail, slot), now)
    ensures forall other :: TimeoutOf(RecomputeAfterFail(s, now), other) == TimeoutOf(s, other)
  {
    RecomputeByPtsIs(s, now);
    RecomputeAfterFailIs(s, now);
    if slot.Some? {
      assert RecomputedByPts(s, RecomputeByPts(s, now), slot.value, now);
      assert RecomputedAfterFail(s, RecomputeAfterFail(s, now), slot.value, now);
    }
  }

  lemma HeldIsDue(t: Deadlines, timer: Timer, slot: Slot)
    requires t.CoveredBy(timer) && At(t, slot).Some?
    ensures timer.Due? && timer.at <= At(t, slot).value
  {
    var d := At(t, slot).value;
    assert slot.Some? ==> d in t.channels.Values;
    assert d in t.All();
  }

  /** A failed request has its retry after the back-off in use, and the back-off doubles up to 64. */
  lemma StartFailTimerInTime(s: State, slot: Slot, now: int)
    requires Covered(s) && BackoffsOk(s) && now >= 0
    ensures var t, wait := StartFailTimer(s, slot, now), TimeoutOf(s, slot);
            && At(t.afterFail, slot) == Sooner(At(s.afterFail, slot), now + wait * 1000)
            && t.failTimer.Due? && t.failTimer.at <= now + wait * 1000
  {
    hide StartFailTimer, Covered, TimeoutOf;
    FailSlot(s, slot, now);
    StartFailTimerCovers(s, slot, now);
    CoveredFails(StartFailTimer(s, slot, now), slot);
  }

  lemma FailSlot(s: State, slot: Slot, now: int)
    requires BackoffsOk(s) && now >= 0
    ensures var t, wait := StartFailTimer(s, slot, now), TimeoutOf(s, slot);
            At(t.afterFail, slot) == Sooner(At(s.afterFail, slot), now + wait * 1000)
  {
    hide RecomputeAfterFail, WithTimeout, TimeoutOf;
    var wait := TimeoutOf(s, slot);
    PositiveBackoff(s, slot);
    ChangedSlots(s.afterFail, slot, wait * 1000, now);
    var (table, changed) := s.afterFail.Changed(slot, wait * 1000, now);
    var s1 := WithTimeout(s, slot, wait).(afterFail := table);
    SlotStays(s1, slot, now);
    var s2 := if changed then RecomputeAfterFail(s1, now) else s1;
    WithTimeoutIs(s2, slot, Doubled(wait));
  }

  lemma PositiveBackoff(s: State, slot: Slot)
    requires BackoffsOk(s)
    ensures TimeoutOf(s, slot) > 0
  {
  }

  lemma CoveredFails(s: State, slot: Slot)
    requires Covered(s) && At(s.afterFail, slot).Some?
    ensures s.failTimer.Due? && s.failTimer.at <= At(s.afterFail, slot).value
  {
    HeldIsDue(s.afterFail, s.failTimer, slot);
  }

  lemma WithTimeoutIs(s: State, slot: Slot, t: int)
    ensures forall other ::
              TimeoutOf(WithTimeout(s, slot, t), other) == if other == slot then t else TimeoutOf(s, other)
    ensures WithTimeout(s, slot, t).afterFail == s.afterFail
  {
  }

  /** The timeouts after a failure that was put into the table. */
  lemma FailDoubles(s: State, slot: Slot, now: int)
    ensures var t := StartFailTimer(s, slot, now);
            && TimeoutOf(t, slot) == (if TimeoutOf(s, slot) < 64 then 2 * TimeoutOf(s, slot) else TimeoutOf(s, slot))
            && (forall other :: other != slot ==> TimeoutOf(t, other) == TimeoutOf(s, other))
  {
    hide RecomputeAfterFail, WithTimeout, TimeoutOf;
    var wait := TimeoutOf(s, slot);
    var (table, changed) := s.afterFail.Changed(slot, wait * 1000, now);
    var s0 := WithTimeout(s, slot, wait);
    WithTimeoutIs(s, slot, wait);
    TableHasNoTimeout(s0, table);
    var s1 := s0.(afterFail := table);
    SlotStays(s1, slot, now);
    var s2 := if changed then RecomputeAfterFail(s1, now) else s1;
    WithTimeoutIs(s2, slot, Doubled(wait));
  }

  lemma TableHasNoTimeout(s: State, table: Deadlines)
    ensures forall other :: TimeoutOf(s.(afterFail := table), other) == TimeoutOf(s, other)
  {
  }

  /** After n failures in a row the back-off is 2^n, or 64 from the sixth on. */
  lemma {:induction false} FailuresDouble(s: State, slot: Slot, times: seq<int>)
    requires TimeoutOf(s, slot) == 1
    ensures TimeoutOf(Failed(s, slot, times), slot) == (if |times| < 6 then Power(|times|) else 64)
  {
    hide StartFailTimer, TimeoutOf;
    assert Power(3) == 8;
    if times != [] {
      FailuresDouble(s, slot, times[..|times| - 1]);
      FailDoubles(Failed(s, slot, times[..|times| - 1]), slot, times[|times| - 1]);
    }
  }

  function Failed(s: State, slot: Slot, times: seq<int>): State {
    if times == [] then s else StartFailTimer(Failed(s, slot, times[..|times| - 1]), slot, times[|times| - 1])
  }

  function Power(n: nat): nat {
    if n == 0 then 1 else 2 * Power(n - 1)
  }

  /** Other code asks for a difference, or for a timer. */
  lemma AskedEventsAre(s: State, c: Channel, slot: Slot, ms: int, now: int)
    requires Covered(s) && now >= 0
    ensures var t := Step(s, MainAsked, now);
            t.requesting && t.inFlight == s.inFlight + (if s.requesting then 0 else 1)
    ensures SentFor(s, Step(s, ChannelAsked(c), now), c, MayAsk(s, c))
    ensures var t := Step(s, PtsWait(slot, ms), now);
            && At(t.byPts, slot) == (if ms <= 0 then None else Sooner(At(s.byPts, slot), now + ms))
            && (ms > 0 ==> t.byPtsTimer.Due? && t.byPtsTimer.at <= now + ms)
  {
    hide AskMain, AskChannel, StartTimer;
    AskMainIs(s);
    AskChannelIs(s, c, Unknown);
    StartTimerInTime(s, slot, ms, now);
  }

  // ---------------------------------------------------------------- answers

  /** An answer of the main stream ends its request, and a slice asks for the rest at once. */
  lemma MainAnswerLeadsOn(s: State, answer: Answer, now: int)
    requires s.inFlight > 0
    ensures var t := Step(s, MainAnswers(answer), now);
            && t.inFlight == s.inFlight - (if answer == Slice then 0 else 1)
            && t.requesting == (if answer == Nothing then s.requesting else answer == Slice)
            && t.timeout == (if answer == Slice || answer == Difference then 1 else s.timeout)
            && (forall c :: SameChannel(s, t, c))
  {
  }

  /** An answer for a channel ends its request and its back-off; one that is not final asks for the rest
      at once, and a final one may ask for the next poll. */
  lemma ChannelAnswerLeadsOn(s: State, c: Channel, isFinal: bool, poll: Option<int>, now: int)
    requires ChannelsOk(s) && Covered(s) && c in s.channelInFlight && now >= 0
    ensures var t := Step(s, ChannelAnswers(c, isFinal, poll), now);
            && TimeoutOf(t, Some(c)) == 1
            && (if !isFinal && c in s.inited then t.channelInFlight[c] == 1 && c in t.channelRequesting
                else t.channelInFlight[c] == 0 && c !in t.channelRequesting)
            && (isFinal && poll.Some? && poll.value > 0 ==>
                  && At(t.byPts, Some(c)) == Sooner(At(s.byPts, Some(c)), now + poll.value)
                  && t.byPtsTimer.Due? && t.byPtsTimer.at <= now + poll.value)
  {
    hide AskChannel, StartTimer, Covered;
    AnsweredIs(s, c);
    if !isFinal {
      AskChannelIs(Unasked(s, c), c, Unknown);
      SameTimeout(Unasked(s, c), AskChannel(Unasked(s, c), c, Unknown), c);
    } else if poll.Some? {
      PollIsLater(Unasked(s, c), c, poll.value, now);
    }
  }

  /** The channel after an answer and before what the answer leads to. */
  function Unasked(s: State, c: Channel): State {
    var s1 := Answered(s, c);
    s1.(channelTimeout := s1.channelTimeout - {c}, channelRequesting := s1.channelRequesting - {c})
  }

  lemma AnsweredIs(s: State, c: Channel)
    requires ChannelsOk(s) && Covered(s) && c in s.channelInFlight
    ensures var t := Unasked(s, c);
            && t.channelInFlight[c] == 0 && c !in t.channelRequesting && TimeoutOf(t, Some(c)) == 1 && Covered(t)
            && t.byPts == s.byPts && t.inited == s.inited
  {
  }

  lemma SameTimeout(s: State, t: State, c: Channel)
    requires SameBut(s, t)
    ensures TimeoutOf(t, Some(c)) == TimeoutOf(s, Some(c)) && t.inited == s.inited
  {
  }

  lemma PollIsLater(s: State, c: Channel, ms: int, now: int)
    requires Covered(s) && now >= 0
    ensures var t := StartTimer(s, Some(c), ms, now);
            && SentFor(s, t, c, false) && TimeoutOf(t, Some(c)) == TimeoutOf(s, Some(c))
            && (ms > 0 ==> && At(t.byPts, Some(c)) == Sooner(At(s.byPts, Some(c)), now + ms)
                           && t.byPtsTimer.Due? && t.byPtsTimer.at <= now + ms)
  {
    StartTimerInTime(s, Some(c), ms, now);
    ChangedSlots(s.byPts, Some(c), ms, now);
    var (table, changed) := s.byPts.Changed(Some(c), ms, now);
    if changed {
      RecomputeByPtsIs(s.(byPts := table), now);
      assert RecomputedByPts(s.(byPts := table), RecomputeByPts(s.(byPts := table), now), c, now);
    }
  }

  /** A failure ends the request and leaves a retry after the back-off, which doubles. */
  lemma FailureLeadsOn(s: State, slot: Slot, now: int)
    requires Covered(s) && BackoffsOk(s) && now >= 0
    requires match slot case None => s.inFlight > 0 case Some(c) => c in s.channelInFlight
    ensures var t := Step(s, if slot.None? then MainFails else ChannelFails(slot.value), now);
            var wait := TimeoutOf(s, slot);
            && At(t.afterFail, slot) == Sooner(At(s.afterFail, slot), now + wait * 1000)
            && t.failTimer.Due? && t.failTimer.at <= now + wait * 1000
            && TimeoutOf(t, slot) == (if wait < 64 then 2 * wait else wait)
  {
    hide StartFailTimer;
    var s1 := if slot.None? then s.(inFlight := s.inFlight - 1) else Answered(s, slot.value);
    StartFailTimerInTime(s1, slot, now);
    FailDoubles(s1, slot, now);
  }

  /** A timer that fires in time, or late, leads to the requests of all deadlines that have passed, and is
      set for the first of the others. */
  lemma TimersLeadOn(s: State, now: int)
    ensures s.byPtsTimer.Due? && s.byPtsTimer.at <= now ==>
              var u, t := s.(byPtsTimer := Idle), Step(s, ByPtsTimerFires, now);
              && MainByPts(u, t, now) && (forall c :: RecomputedByPts(u, t, c, now))
              && t.byPtsTimer == t.byPts.Earliest()
    ensures s.failTimer.Due? && s.failTimer.at <= now ==>
              var u, t := s.(failTimer := Idle), Step(s, FailTimerFires, now);
              && MainAfterFail(u, t, now) && (forall c :: RecomputedAfterFail(u, t, c, now))
              && t.failTimer == t.afterFail.Earliest()
    ensures !(s.byPtsTimer.Due? && s.byPtsTimer.at <= now) ==> Step(s, ByPtsTimerFires, now) == s
    ensures !(s.failTimer.Due? && s.failTimer.at <= now) ==> Step(s, FailTimerFires, now) == s
  {
    hide MainByPts, RecomputedByPts, MainAfterFail, RecomputedAfterFail, RecomputeByPts, RecomputeAfterFail;
    RecomputeByPtsIs(s.(byPtsTimer := Idle), now);
    RecomputeAfterFailIs(s.(failTimer := Idle), now);
    TimersAreSet(s.(byPtsTimer := Idle), now);
    TimersAreSet(s.(failTimer := Idle), now);
  }

  lemma TimersAreSet(s: State, now: int)
    ensures RecomputeByPts(s, now).byPtsTimer == RecomputeByPts(s, now).byPts.Earliest()
    ensures RecomputeAfterFail(s, now).failTimer == RecomputeAfterFail(s, now).afterFail.Earliest()
  {
  }

  // ---------------------------------------------------------------- no deadline is forgotten

  /** A request is under way or waited for, or the channel has no pts that one could be sent with. */
  predicate Served(t: State, slot: Slot) {
    match slot
    case None => t.requesting
    case Some(c) => c in t.channelRequesting || c !in t.inited
  }

  predicate Remembered(was: Option<int>, held: Option<int>) {
    was.Some? ==> held.Some? && held.value <= was.value
  }

  /** Both deadlines of the slot are there, perhaps earlier, unless the slot has been served. */
  predicate NotForgotten(s: State, t: State, slot: Slot) {
    Served(t, slot)
    || (Remembered(At(s.byPts, slot), At(t.byPts, slot)) && Remembered(At(s.afterFail, slot), At(t.afterFail, slot)))
  }

  lemma AskMainForgetsNothing(s: State, slot: Slot)
    ensures NotForgotten(s, AskMain(s), slot)
  {
    AskMainIs(s);
    if slot.Some? { assert SameChannel(s, AskMain(s), slot.value); }
  }

  lemma AskChannelForgetsNothing(s: State, c: Channel, from: From, slot: Slot)
    ensures NotForgotten(s, AskChannel(s, c, from), slot)
  {
    AskChannelIs(s, c, from);
    if slot.Some? && slot.value != c { assert SameChannel(s, AskChannel(s, c, from), slot.value); }
  }

  lemma RecomputesForgetNothing(s: State, now: int, slot: Slot)
    ensures NotForgotten(s, RecomputeByPts(s, now), slot) && NotForgotten(s, RecomputeAfterFail(s, now), slot)
  {
    RecomputeByPtsIs(s, now);
    RecomputeAfterFailIs(s, now);
    if slot.Some? {
      assert RecomputedByPts(s, RecomputeByPts(s, now), slot.value, now);
      assert RecomputedAfterFail(s, RecomputeAfterFail(s, now), slot.value, now);
    }
  }

  lemma StartTimerForgetsNothing(s: State, asked: Slot, ms: int, now: int, slot: Slot)
    requires now >= 0 && (slot != asked || ms > 0)
    ensures NotForgotten(s, StartTimer(s, asked, ms, now), slot)
  {
    hide RecomputeByPts;
    ChangedSlots(s.byPts, asked, ms, now);
    var (table, changed) := s.byPts.Changed(asked, ms, now);
    if changed { RecomputesForgetNothing(s.(byPts := table), now, slot); }
  }

  lemma StartFailTimerForgetsNothing(s: State, asked: Slot, now: int, slot: Slot)
    requires now >= 0 && BackoffsOk(s)
    ensures NotForgotten(s, StartFailTimer(s, asked, now), slot)
  {
    hide RecomputeAfterFail;
    var wait := TimeoutOf(s, asked);
    ChangedSlots(s.afterFail, asked, wait * 1000, now);
    var (table, changed) := s.afterFail.Changed(asked, wait * 1000, now);
    var s1 := WithTimeout(s, asked, wait).(afterFail := table);
    var s2 := if changed then RecomputeAfterFail(s1, now) else s1;
    if changed { RecomputesForgetNothing(s1, now, slot); }
    TimeoutsForget(s, s1, s2, asked, Doubled(wait), slot);
  }

  lemma TimeoutsForget(s: State, s1: State, s2: State, asked: Slot, timeout: int, slot: Slot)
    requires Remembered(At(s.byPts, slot), At(s1.byPts, slot)) && NotForgotten(s1, s2, slot)
    requires Remembered(At(s.afterFail, slot), At(s1.afterFail, slot))
    ensures NotForgotten(s, WithTimeout(s2, asked, timeout), slot)
  {
  }

  /** Somebody gives up the deadline of the slot in the first table. */
  predicate Drops(e: Event, slot: Slot) {
    || (e.PtsWait? && e.channel == slot && e.ms <= 0)
    || (e.ChannelAnswers? && Some(e.c) == slot && e.isFinal && e.poll.Some? && e.poll.value <= 0)
  }

  /** Whatever happens, a deadline stays in its table, or is made earlier, until its slot is served or
      the deadline is given up. */
  lemma StepForgetsNothing(s: State, e: Event, now: int, slot: Slot)
    requires BackoffsOk(s) && now >= 0 && !Drops(e, slot)
    ensures NotForgotten(s, Step(s, e, now), slot)
  {
    hide StartTimer, StartFailTimer, RecomputeByPts, RecomputeAfterFail, AskMain, AskChannel;
    match e
    case PtsWait(asked, ms) => StartTimerForgetsNothing(s, asked, ms, now, slot);
    case ByPtsTimerFires => RecomputesForgetNothing(s.(byPtsTimer := Idle), now, slot);
    case FailTimerFires => RecomputesForgetNothing(s.(failTimer := Idle), now, slot);
    case MainAsked => AskMainForgetsNothing(s, slot);
    case ChannelAsked(c) => AskChannelForgetsNothing(s, c, Unknown, slot);
    case MainAnswers(answer) => MainAnswerForgetsNothing(s, answer, slot);
    case MainFails =>
      if s.inFlight > 0 { StartFailTimerForgetsNothing(s.(inFlight := s.inFlight - 1), None, now, slot); }
    case ChannelAnswers(c, isFinal, poll) =>
      if c in s.channelInFlight { ChannelAnswerForgetsNothing(Answered(s, c), c, isFinal, poll, now, slot); }
    case ChannelFails(c) =>
      if c in s.channelInFlight { StartFailTimerForgetsNothing(Answered(s, c), Some(c), now, slot); }
    case ChannelInited(c) => InitedForgetsNothing(s, c, slot);
  }

  lemma InitedForgetsNothing(s: State, c: Channel, slot: Slot)
    ensures NotForgotten(s, s.(inited := s.inited + {c}), slot)
  {
  }

  lemma MainAnswerForgetsNothing(s: State, answer: Answer, slot: Slot)
    ensures NotForgotten(s, OnMainAnswer(s, answer), slot)
  {
    hide AskMain;
    if s.inFlight > 0 && answer == Slice {
      AskMainForgetsNothing(s.(inFlight := s.inFlight - 1).(timeout := 1, requesting := false), slot);
    }
  }

  lemma ChannelAnswerForgetsNothing(s: State, c: Channel, isFinal: bool, poll: Option<int>, now: int, slot: Slot)
    requires now >= 0 && !Drops(ChannelAnswers(c, isFinal, poll), slot)
    ensures NotForgotten(s, ChannelAnswered(s, c, isFinal, poll, now), slot)
  {
    hide AskChannel, StartTimer;
    var s1 := s.(channelTimeout := s.channelTimeout - {c}, channelRequesting := s.channelRequesting - {c});
    if !isFinal {
      AskChannelForgetsNothing(s1, c, Unknown, slot);
    } else if poll.Some? {
      StartTimerForgetsNothing(s1, Some(c), poll.value, now, slot);
    }
  }

  /** Over a whole run, if the deadline is never given up: it is still there, or the slot was served at
      some moment. */
  lemma {:induction false} EveryRunForgetsNothing(s: State, moments: seq<Moment>, slot: Slot)
    requires MainOk(s) && BackoffsOk(s) && (forall i :: 0 <= i < |moments| ==> moments[i].now >= 0)
    requires forall i :: 0 <= i < |moments| ==> !Drops(moments[i].event, slot)
    ensures NotForgotten(s, Run(s, moments), slot)
            || exists i :: 0 < i <= |moments| && Served(Run(s, moments[..i]), slot)
    ensures MainOk(Run(s, moments)) && BackoffsOk(Run(s, moments))
  {
    hide Step, MainOk, BackoffsOk, At;
    if moments != [] {
      var n := |moments| - 1;
      var before, last := moments[..n], moments[n];
      EveryRunForgetsNothing(s, before, slot);
      StepForgetsNothing(Run(s, before), last.event, last.now, slot);
      StepMainOk(Run(s, before), last.event, last.now);
      if i :| 0 < i <= |before| && Served(Run(s, before[..i]), slot) {
        assert before[..i] == moments[..i];
      } else if Served(Run(s, moments), slot) {
        assert moments[..n + 1] == moments;
      }
    }
  }
}
