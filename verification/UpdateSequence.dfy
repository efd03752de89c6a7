/** The seq reorder buffer of MainWidget: `updSeq`, `_bySeqUpdates`, `_bySeqTimer`
    and the mutual recursion between `feedUpdates` and `updSetState`. */
module UpdateSequence {
  import opened OrderedKeys

  /** An `updates` container has start == end == seq; an `updatesCombined` one carries
      seq_start and seq.  start == 0 means that the container carries no seq.
      `gap` says whether feeding its content runs into something that calls getDifference(). */
  datatype Batch = Batch(start: int, end: int, gap: bool, payload: nat)

  /** One applied container, with the value updSeq had when it was applied. */
  datatype Applied = Applied(before: int, batch: Batch)

  datatype State = State(
    updSeq: int,
    bySeq: map<int, Batch>,
    timer: bool,
    requesting: bool,
    log: seq<Applied>)

  /** `*_bySeqUpdates.begin()`: a QMap is walked in ascending key order. */
  function FirstKey(m: map<int, Batch>): (k: int)
    requires m != map[]
    ensures k in m && forall j :: j in m ==> k <= j
    ensures |m - {k}| < |m|
  {
    assert m.Keys != {};
    var k := Min(m.Keys);
    assert (m - {k}).Keys == m.Keys - {k};
    k
  }

  // ---------------------------------------------------------------- transition functions

  function AfterGetDifference(s: State): State {
    if s.requesting then s else s.(bySeq := map[], timer := false, requesting := true)
  }

  function AfterApply(s: State, b: Batch): State {
    var s1 := s.(log := s.log + [Applied(s.updSeq, b)]);
    if b.gap then AfterGetDifference(s1) else s1
  }

  function Feed(s: State, b: Batch): State
    decreases |s.bySeq|, 2
  {
    if b.start != 0 && b.start <= s.updSeq then s
    else if b.start != 0 && b.start > s.updSeq + 1 then
      s.(bySeq := s.bySeq[b.start := b], timer := true)
    else
      SetSeq(AfterApply(s, b), b.end)
  }

  function SetSeq(s: State, seqNo: int): State
    decreases |s.bySeq|, 1
  {
    if seqNo == 0 || seqNo == s.updSeq then s
    else Drain(s.(updSeq := seqNo, timer := false))
  }

  function Drain(s: State): State
    decreases |s.bySeq|, 0
  {
    if s.bySeq == map[] then s
    else
      var k := FirstKey(s.bySeq);
      if k > s.updSeq + 1 then s.(timer := true)
      else
        var rest := s.(bySeq := s.bySeq - {k});
        if k == s.updSeq + 1 then Feed(rest, s.bySeq[k]) else Drain(rest)
  }

  /** The state in which updSetState starts walking the buffer after b was applied. */
  function Advanced(s: State, b: Batch): State {
    AfterApply(s, b).(updSeq := b.end, timer := false)
  }

  lemma FeedAdvances(s: State, b: Batch)
    requires b.start == 0 || b.start == s.updSeq + 1
    requires b.end != 0 && b.end != s.updSeq
    ensures Feed(s, b) == Drain(Advanced(s, b))
  {
    var s1 := AfterApply(s, b);
    assert s1.updSeq == s.updSeq;
    assert Feed(s, b) == SetSeq(s1, b.end);
  }

  /** One round of the recursion: the first buffered container is next in turn. */
  lemma DrainAdvances(s: State)
    requires s.bySeq != map[] && s.updSeq >= 0
    requires var k := FirstKey(s.bySeq); k == s.updSeq + 1 && s.bySeq[k].start == k && k <= s.bySeq[k].end
    ensures
      var k := FirstKey(s.bySeq);
      Drain(s) == Drain(Advanced(s.(bySeq := s.bySeq - {k}), s.bySeq[k]))
  {
    var k := FirstKey(s.bySeq);
    FeedAdvances(s.(bySeq := s.bySeq - {k}), s.bySeq[k]);
  }

  // ---------------------------------------------------------------- the widget

  class MainWidget {
    var updSeq: int
    var bySeqUpdates: map<int, Batch>
    var bySeqTimer: bool          // isActive()
    var requesting: bool          // _ptsWaiter.requesting()
    ghost var log: seq<Applied>

    ghost function Model(): State
      reads this
    {
      State(updSeq, bySeqUpdates, bySeqTimer, requesting, log)
    }

    constructor ()
      ensures Model() == State(0, map[], false, true, [])
    {
      updSeq, bySeqUpdates, bySeqTimer, requesting, log := 0, map[], false, true, [];
    }

    method GetDifference()
      modifies this
      ensures Model() == AfterGetDifference(old(Model()))
    {
      if requesting {
        return;
      }
      bySeqUpdates := map[];
      bySeqTimer := false;
      requesting := true;
    }

    method FeedUpdates(b: Batch)
      modifies this
      ensures Model() == Feed(old(Model()), b)
      decreases |bySeqUpdates|, 1
    {
      if b.start != 0 {
        if b.start <= updSeq {
          return;
        }
        if b.start > updSeq + 1 {
          bySeqUpdates := bySeqUpdates[b.start := b];
          bySeqTimer := true;
          return;
        }
      }
      log := log + [Applied(updSeq, b)];
      if b.gap {
        GetDifference();
      }
      UpdSetState(b.end);
    }

    method UpdSetState(seqNo: int)
      modifies this
      ensures Model() == SetSeq(old(Model()), seqNo)
      decreases |bySeqUpdates|, 0
    {
      if seqNo != 0 && seqNo != updSeq {
        updSeq := seqNo;
        if bySeqTimer {
          bySeqTimer := false;
        }
        ghost var goal := Drain(Model());
        while bySeqUpdates != map[]
          invariant updSeq == seqNo && !bySeqTimer
          invariant |bySeqUpdates| <= |old(bySeqUpdates)|
          invariant Drain(Model()) == goal
          decreases |bySeqUpdates|
        {
          var s := FirstKey(bySeqUpdates);
          if s <= seqNo + 1 {
            var v := bySeqUpdates[s];
            bySeqUpdates := bySeqUpdates - {s};
            if s == seqNo + 1 {
              FeedUpdates(v);
              return;
            }
          } else {
            if !bySeqTimer {
              bySeqTimer := true;
            }
            break;
          }
        }
      }
    }

    method UpdateReceived(b: Batch, forceLogout: bool)
      modifies this
      ensures Model() == Step(old(Model()), Received(b, forceLogout))
    {
      if !requesting || forceLogout {
        FeedUpdates(b);
      }
    }

    method NewSessionCreated()
      modifies this
      ensures Model() == Step(old(Model()), NewSession)
    {
      updSeq := 0;
      GetDifference();
    }

    method BySeqTimerCallback()
      requires bySeqTimer
      modifies this
      ensures Model() == Step(old(Model()), SeqTimerFired)
    {
      bySeqTimer := false;
      GetDifference();
    }

    method GotState(seqNo: int, slice: bool)
      modifies this
      ensures Model() == Step(old(Model()), GotDifference(seqNo, slice))
    {
      UpdSetState(seqNo);
      requesting := false;
      if slice {
        GetDifference();
      }
    }
  }

  // ---------------------------------------------------------------- every run is safe

  /** What reaches the widget from outside, in any order. */
  datatype Event =
    | Received(batch: Batch, forceLogout: bool)   // updateReceived with updates
    | NewSession                                  // updateReceived with new_session_created
    | SeqTimerFired
    | AskedForDifference                          // any other caller of getDifference()
    | GotDifference(seqNo: int, slice: bool)      // gotState / gotDifference with a state

  predicate WellFormed(e: Event) {
    match e
    case Received(b, _) => b.start <= b.end
    case GotDifference(seqNo, _) => seqNo >= 0
    case _ => true
  }

  function Step(s: State, e: Event): State {
    match e
    case Received(b, forceLogout) => if !s.requesting || forceLogout then Feed(s, b) else s
    case NewSession => AfterGetDifference(s.(updSeq := 0))
    case SeqTimerFired => if s.timer then AfterGetDifference(s.(timer := false)) else s
    case AskedForDifference => AfterGetDifference(s)
    case GotDifference(seqNo, slice) =>
      var s1 := SetSeq(s, seqNo).(requesting := false);
      if slice then AfterGetDifference(s1) else s1
  }

  function Run(s: State, events: seq<Event>): State {
    if events == [] then s else Step(Run(s, events[..|events| - 1]), events[|events| - 1])
  }

  lemma RunGoesOn(s: State, events: seq<Event>, last: Event)
    ensures Run(s, events + [last]) == Step(Run(s, events), last) && Run(s, []) == s
  {
    assert (events + [last])[..|events|] == events;
  }

  /** Nothing is ever applied out of turn: a container that carries a seq is applied
      only when it starts right after the value updSeq had at that moment. */
  ghost predicate AppliedInTurn(log: seq<Applied>) {
    forall i :: 0 <= i < |log| ==> log[i].batch.start == 0 || log[i].batch.start == log[i].before + 1
  }

  ghost predicate Draining(s: State) {
    && s.updSeq >= 0
    && (forall k :: k in s.bySeq ==> s.bySeq[k].start == k && k <= s.bySeq[k].end)
    && AppliedInTurn(s.log)
  }

  ghost predicate Safe(s: State) {
    Draining(s) && forall k :: k in s.bySeq ==> k > s.updSeq + 1
  }

  lemma ApplyInTurn(s: State, k: int)
    requires Draining(s) && k in s.bySeq && k == s.updSeq + 1
    ensures Draining(Advanced(s.(bySeq := s.bySeq - {k}), s.bySeq[k]))
  {
  }

  lemma {:induction false} DrainIsSafe(s: State)
    requires Draining(s)
    ensures Safe(Drain(s))
    decreases |s.bySeq|
  {
    if s.bySeq != map[] {
      var k := FirstKey(s.bySeq);
      if k <= s.updSeq + 1 {
        var rest := s.(bySeq := s.bySeq - {k});
        if k == s.updSeq + 1 {
          DrainAdvances(s);
          ApplyInTurn(s, k);
          DrainIsSafe(Advanced(rest, s.bySeq[k]));
        } else {
          DrainIsSafe(rest);
        }
      }
    }
  }

  lemma FeedIsSafe(s: State, b: Batch)
    requires Safe(s) && b.start <= b.end
    ensures Safe(Feed(s, b))
  {
    if b.start == 0 || b.start == s.updSeq + 1 {
      SetSeqIsSafe(AfterApply(s, b), b.end);
    }
  }

  lemma SetSeqIsSafe(s: State, seqNo: int)
    requires Safe(s) && seqNo >= 0
    ensures Safe(SetSeq(s, seqNo))
  {
    if seqNo != 0 && seqNo != s.updSeq {
      DrainIsSafe(s.(updSeq := seqNo, timer := false));
    }
  }

  /** After every event of every run (differences, session resets, overlapping and stale
      containers included) all buffered keys exceed updSeq + 1 and nothing was applied out of turn. */
  lemma {:induction false} EveryRunIsSafe(s: State, events: seq<Event>)
    requires Safe(s)
    requires forall i :: 0 <= i < |events| ==> WellFormed(events[i])
    ensures Safe(Run(s, events))
  {
    if events != [] {
      var before := events[..|events| - 1];
      EveryRunIsSafe(s, before);
      match events[|events| - 1]
      case Received(b, _) => FeedIsSafe(Run(s, before), b);
      case GotDifference(seqNo, _) => SetSeqIsSafe(Run(s, before), seqNo);
      case _ =>
    }
  }

  /** The gap timer runs exactly while something is buffered, and nothing is buffered
      while a difference is being requested. */
  ghost predicate TimerExact(s: State) {
    && (s.timer <==> s.bySeq != map[])
    && (s.requesting ==> s.bySeq == map[])
  }

  lemma {:induction false} DrainArmsTimer(s: State)
    requires Draining(s) && !s.timer && (s.requesting ==> s.bySeq == map[])
    ensures TimerExact(Drain(s))
    decreases |s.bySeq|
  {
    if s.bySeq != map[] {
      var k := FirstKey(s.bySeq);
      if k <= s.updSeq + 1 {
        var rest := s.(bySeq := s.bySeq - {k});
        if k == s.updSeq + 1 {
          DrainAdvances(s);
          DrainArmsTimer(Advanced(rest, s.bySeq[k]));
        } else {
          DrainArmsTimer(rest);
        }
      }
    }
  }

  lemma SetSeqArmsTimer(s: State, seqNo: int)
    requires Safe(s) && TimerExact(s) && seqNo >= 0
    ensures TimerExact(SetSeq(s, seqNo).(requesting := false))
    ensures TimerExact(SetSeq(s, seqNo))
  {
    if seqNo != 0 && seqNo != s.updSeq {
      DrainArmsTimer(s.(updSeq := seqNo, timer := false));
    }
  }

  /** A container that has to wait. */
  predicate Gap(s: State, b: Batch) {
    b.start != 0 && b.start > s.updSeq + 1
  }

  lemma FeedArmsTimer(s: State, b: Batch)
    requires Safe(s) && TimerExact(s) && b.start <= b.end
    ensures TimerExact(Feed(s, b)) <==> !(s.requesting && Gap(s, b))
  {
    if b.start == 0 || b.start == s.updSeq + 1 {
      SetSeqArmsTimer(AfterApply(s, b), b.end);
    } else if b.start > s.updSeq {
      assert b.start in Feed(s, b).bySeq;
    }
  }

  /** Exactly one kind of event breaks this: a container with a force-logout notification, fed while
      a difference is requested, that has to wait. */
  lemma StepArmsTimerExactlyWhen(s: State, e: Event)
    requires Safe(s) && TimerExact(s) && WellFormed(e)
    ensures TimerExact(Step(s, e)) <==> !(e.Received? && e.forceLogout && s.requesting && Gap(s, e.batch))
  {
    match e
    case Received(b, forceLogout) => if !s.requesting || forceLogout { FeedArmsTimer(s, b); }
    case GotDifference(seqNo, _) => SetSeqArmsTimer(s, seqNo);
    case _ =>
  }

  /** In every run without a force-logout notification the timer covers the buffer exactly,
      so a gap is always followed by a request for the difference. */
  lemma {:induction false} EveryRunArmsTimer(s: State, events: seq<Event>)
    requires Safe(s) && TimerExact(s)
    requires forall i :: 0 <= i < |events| ==> WellFormed(events[i])
    requires forall i :: 0 <= i < |events| && events[i].Received? ==> !events[i].forceLogout
    ensures TimerExact(Run(s, events))
  {
    if events != [] {
      var before := events[..|events| - 1];
      EveryRunArmsTimer(s, before);
      EveryRunIsSafe(s, before);
      StepArmsTimerExactlyWhen(Run(s, before), events[|events| - 1]);
    }
  }

  /** A force-logout container that is fed while a difference is requested leaves the buffer
      filled and, once the timer fired and the same seq came back, not covered by any timer. */
  lemma ForceLogoutLosesTimer()
    ensures
      var s := Run(State(0, map[], false, true, []),
                   [Received(Batch(5, 5, false, 0), true), SeqTimerFired, GotDifference(0, false)]);
      s.bySeq != map[] && !s.timer && !s.requesting
  {
    var s0 := State(0, map[], false, true, []);
    var e0, e1, e2 := Received(Batch(5, 5, false, 0), true), SeqTimerFired, GotDifference(0, false);
    assert [e0, e1, e2][..2] == [e0, e1] && [e0, e1][..1] == [e0] && [e0][..0] == [];
    assert Run(s0, [e0]) == Step(s0, e0);
    assert Run(s0, [e0, e1]) == Step(Step(s0, e0), e1);
    assert 5 in Run(s0, [e0, e1]).bySeq;
  }

  /** Whatever is buffered will be looked at again: when the gap timer fires, or when the answer comes. */
  ghost predicate Covered(s: State) {
    s.bySeq != map[] ==> s.timer || s.requesting
  }

  lemma {:induction false} DrainStaysCovered(s: State)
    requires Draining(s)
    ensures Drain(s).bySeq != map[] ==> Drain(s).timer
    decreases |s.bySeq|
  {
    if s.bySeq != map[] {
      var k := FirstKey(s.bySeq);
      if k <= s.updSeq + 1 {
        var rest := s.(bySeq := s.bySeq - {k});
        if k == s.updSeq + 1 {
          DrainAdvances(s);
          ApplyInTurn(s, k);
          DrainStaysCovered(Advanced(rest, s.bySeq[k]));
        } else {
          DrainStaysCovered(rest);
        }
      }
    }
  }

  lemma SetSeqStaysCovered(s: State, seqNo: int)
    requires Safe(s) && seqNo >= 0
    ensures SetSeq(s, seqNo).bySeq != map[] ==>
              if seqNo == 0 || seqNo == s.updSeq then SetSeq(s, seqNo) == s else SetSeq(s, seqNo).timer
  {
    if seqNo != 0 && seqNo != s.updSeq {
      DrainStaysCovered(s.(updSeq := seqNo, timer := false));
    }
  }

  /** The answer that loses a buffer: it is final and has no seq or the one that is there already, and
      no timer runs, so that updSetState does not look at what is buffered. */
  predicate Loses(s: State, e: Event) {
    && e.GotDifference? && !e.slice && (e.seqNo == 0 || e.seqNo == s.updSeq)
    && s.bySeq != map[] && !s.timer
  }

  /** A buffer is left with neither a timer nor a request by exactly this event. */
  lemma StepStaysCoveredExactlyWhen(s: State, e: Event)
    requires Safe(s) && Covered(s) && WellFormed(e)
    ensures Covered(Step(s, e)) <==> !Loses(s, e)
  {
    match e
    case Received(b, _) =>
      if b.start == 0 || b.start == s.updSeq + 1 {
        SetSeqStaysCovered(AfterApply(s, b), b.end);
      }
    case GotDifference(seqNo, _) => SetSeqStaysCovered(s, seqNo);
    case _ =>
  }

  /** In every run without such an event whatever is buffered is covered. */
  lemma {:induction false} EveryRunStaysCovered(s: State, events: seq<Event>)
    requires Safe(s) && Covered(s)
    requires forall i :: 0 <= i < |events| ==> WellFormed(events[i])
    requires forall i :: 0 <= i < |events| ==> !Loses(Run(s, events[..i]), events[i])
    ensures Covered(Run(s, events))
  {
    if events != [] {
      var before := events[..|events| - 1];
      forall i | 0 <= i < |before| ensures !Loses(Run(s, before[..i]), before[i]) {
        assert before[..i] == events[..i];
      }
      EveryRunStaysCovered(s, before);
      EveryRunIsSafe(s, before);
      StepStaysCoveredExactlyWhen(Run(s, before), events[|events| - 1]);
    }
  }

  // ---------------------------------------------------------------- deliveries

  /** Seq-carrying containers fed one after another, with nothing else in between. */
  function Deliver(u: int, ds: seq<Batch>): State {
    if ds == [] then State(u, map[], false, false, [])
    else Feed(Deliver(u, ds[..|ds| - 1]), ds[|ds| - 1])
  }

  predicate Plain(b: Batch) {
    b.start != 0 && b.start <= b.end && !b.gap
  }

  /** The last delivered container that starts at k. */
  function Latest(ds: seq<Batch>, k: int): (b: Batch)
    requires exists i :: 0 <= i < |ds| && ds[i].start == k
    ensures b in ds && b.start == k
  {
    if ds[|ds| - 1].start == k then ds[|ds| - 1]
    else
      var i :| 0 <= i < |ds| && ds[i].start == k;
      assert ds[..|ds| - 1][i].start == k;
      Latest(ds[..|ds| - 1], k)
  }

  ghost predicate Delivered(ds: seq<Batch>, k: int) {
    exists i :: 0 <= i < |ds| && ds[i].start == k
  }

  /** updSeq once the first i containers of the log are applied. */
  function SeqAfter(u: int, log: seq<Applied>, i: nat): int
    requires i <= |log|
  {
    if i == 0 then u else log[i - 1].batch.end
  }

  /** The applied containers follow each other without a hole and without overlap. */
  ghost predicate Chain(u: int, log: seq<Applied>) {
    forall i {:trigger InTurn(u, log, i)} :: 0 <= i < |log| ==> InTurn(u, log, i)
  }

  ghost predicate InTurn(u: int, log: seq<Applied>, i: nat)
    requires i < |log|
  {
    log[i].before == SeqAfter(u, log, i) && log[i].batch.start == log[i].before + 1
  }

  ghost predicate Pending(u: int, ds: seq<Batch>, s: State) {
    && s.updSeq >= 0 && !s.requesting
    && Chain(u, s.log) && s.updSeq == SeqAfter(u, s.log, |s.log|)
    && (forall i :: 0 <= i < |s.log| ==> s.log[i].batch in ds)
    && (forall k :: k in s.bySeq ==> Delivered(ds, k) && s.bySeq[k] == Latest(ds, k) && Plain(s.bySeq[k]))
    && (forall b :: b in ds && b.start > s.updSeq ==> b.start in s.bySeq)
  }

  /** The state after the deliveries `ds`, without reference to their order:
      the log is a gapless chain of delivered containers that cannot be continued by any
      delivered one, and the buffer holds exactly the later starts, each with its last container. */
  ghost predicate Settled(u: int, ds: seq<Batch>, s: State) {
    && Pending(u, ds, s)
    && (forall k :: k in s.bySeq ==> k > s.updSeq + 1)
    && (s.timer <==> s.bySeq != map[])
  }

  lemma {:induction false} DrainSettles(u: int, ds: seq<Batch>, s: State)
    requires Pending(u, ds, s) && !s.timer
    ensures Settled(u, ds, Drain(s))
    decreases |s.bySeq|
  {
    if s.bySeq != map[] {
      var k := FirstKey(s.bySeq);
      if k <= s.updSeq + 1 {
        var rest := s.(bySeq := s.bySeq - {k});
        if k == s.updSeq + 1 {
          DrainAdvances(s);
          ApplyKeepsPending(u, ds, rest, s.bySeq[k]);
          DrainSettles(u, ds, Advanced(rest, s.bySeq[k]));
        } else {
          DrainSettles(u, ds, rest);
        }
      }
    }
  }

  lemma ApplyKeepsPending(u: int, ds: seq<Batch>, s: State, b: Batch)
    requires b in ds && Plain(b) && b.start == s.updSeq + 1
    requires s.updSeq >= 0 && !s.requesting
    requires Chain(u, s.log) && s.updSeq == SeqAfter(u, s.log, |s.log|)
    requires forall i :: 0 <= i < |s.log| ==> s.log[i].batch in ds
    requires forall k :: k in s.bySeq ==> Delivered(ds, k) && s.bySeq[k] == Latest(ds, k) && Plain(s.bySeq[k])
    requires forall d :: d in ds && d.start > b.start ==> d.start in s.bySeq
    ensures Pending(u, ds, Advanced(s, b))
  {
    var log := s.log + [Applied(s.updSeq, b)];
    forall i: nat | i < |log| ensures InTurn(u, log, i) {
      if i < |s.log| { assert InTurn(u, s.log, i); }
    }
  }

  lemma FeedSettles(u: int, ds: seq<Batch>, s: State, b: Batch)
    requires Settled(u, ds, s) && Plain(b)
    ensures Settled(u, ds + [b], Feed(s, b))
  {
    var ds' := ds + [b];
    assert ds'[..|ds|] == ds;
    assert forall k :: Delivered(ds', k) <==> Delivered(ds, k) || k == b.start by {
      assert ds'[|ds|] == b;
      forall k | Delivered(ds, k) ensures Delivered(ds', k) {
        var i :| 0 <= i < |ds| && ds[i].start == k;
        assert ds'[i].start == k;
      }
    }
    assert forall k :: Delivered(ds, k) && k != b.start ==> Latest(ds', k) == Latest(ds, k);
    if b.start == s.updSeq + 1 {
      FeedAdvances(s, b);
      ApplyKeepsPending(u, ds', s, b);
      DrainSettles(u, ds', Advanced(s, b));
    } else if b.start > s.updSeq {
      assert b.start in Feed(s, b).bySeq;
    }
  }

  /** For every delivery sequence with arbitrary, possibly overlapping ranges. */
  lemma {:induction false} DeliverSettles(u: int, ds: seq<Batch>)
    requires u >= 0
    requires forall b :: b in ds ==> Plain(b)
    ensures Settled(u, ds, Deliver(u, ds))
  {
    if ds != [] {
      var before := ds[..|ds| - 1];
      DeliverSettles(u, before);
      FeedSettles(u, before, Deliver(u, before), ds[|ds| - 1]);
      assert before + [ds[|ds| - 1]] == ds;
    }
  }

  // ---------------------------------------------------------------- confluence

  /** The ranges tile u + 1 .. n. */
  ghost predicate Tiling(u: int, tiles: seq<Batch>) {
    && (forall i :: 0 <= i < |tiles| ==> Plain(tiles[i]))
    && (forall i {:trigger Follows(u, tiles, i)} :: 0 <= i < |tiles| ==> Follows(u, tiles, i))
  }

  ghost predicate Follows(u: int, tiles: seq<Batch>, i: nat)
    requires i < |tiles|
  {
    tiles[i].start == (if i == 0 then u else tiles[i - 1].end) + 1
  }

  lemma {:induction false} TilesIncrease(u: int, tiles: seq<Batch>, i: nat, j: nat)
    requires Tiling(u, tiles) && i < j < |tiles|
    ensures tiles[i].end < tiles[j].start
    decreases j
  {
    assert Follows(u, tiles, j);
    if i < j - 1 { TilesIncrease(u, tiles, i, j - 1); }
  }

  function Batches(log: seq<Applied>): (bs: seq<Batch>)
    ensures |bs| == |log| && forall i :: 0 <= i < |log| ==> bs[i] == log[i].batch
  {
    seq(|log|, i requires 0 <= i < |log| => log[i].batch)
  }

  lemma {:induction false} ChainIsPrefix(u: int, tiles: seq<Batch>, log: seq<Applied>)
    requires Tiling(u, tiles) && Chain(u, log)
    requires forall i :: 0 <= i < |log| ==> log[i].batch in tiles
    ensures |log| <= |tiles| && Batches(log) == tiles[..|log|]
  {
    if log != [] {
      var p := |log| - 1;
      var before := log[..p];
      forall i: nat | i < p ensures InTurn(u, before, i) { assert InTurn(u, log, i); }
      ChainIsPrefix(u, tiles, before);
      assert InTurn(u, log, p);
      assert p > 0 ==> Batches(before)[p - 1] == tiles[p - 1];
      OneTileFits(u, tiles, p, log[p].batch);
      assert Batches(log) == Batches(before) + [log[p].batch];
    }
  }

  lemma OneTileFits(u: int, tiles: seq<Batch>, p: nat, b: Batch)
    requires Tiling(u, tiles) && b in tiles && p <= |tiles|
    requires b.start == (if p == 0 then u else tiles[p - 1].end) + 1
    ensures p < |tiles| && tiles[p] == b
  {
    var j :| 0 <= j < |tiles| && tiles[j] == b;
    if j < p {
      if j < p - 1 { TilesIncrease(u, tiles, j, p - 1); }
    } else {
      assert Follows(u, tiles, p);
      if p < j { TilesIncrease(u, tiles, p, j); }
    }
  }

  /** Whatever tiles arrived, in whatever order and however often: the applied ones are the
      longest run of tiles from the front that has fully arrived. */
  lemma AppliedIsPrefix(u: int, tiles: seq<Batch>, ds: seq<Batch>) returns (p: nat)
    requires u >= 0 && Tiling(u, tiles)
    requires forall b :: b in ds ==> b in tiles
    ensures p <= |tiles| && Batches(Deliver(u, ds).log) == tiles[..p]
    ensures Deliver(u, ds).updSeq == if p == 0 then u else tiles[p - 1].end
    ensures forall i :: 0 <= i < p ==> tiles[i] in ds
    ensures p < |tiles| ==> tiles[p] !in ds
  {
    var s := Deliver(u, ds);
    DeliverSettles(u, ds);
    p := |s.log|;
    ChainIsPrefix(u, tiles, s.log);
    forall i | 0 <= i < p ensures tiles[i] == s.log[i].batch {
      assert Batches(s.log)[i] == tiles[..p][i];
    }
    assert p > 0 ==> Batches(s.log)[p - 1] == tiles[p - 1];
    if p < |tiles| { assert Follows(u, tiles, p); }
  }

  /** The final state is a function of the set of tiles delivered: order and repeats are invisible. */
  lemma DeliveryOrderIsInvisible(u: int, tiles: seq<Batch>, ds: seq<Batch>, es: seq<Batch>)
    requires u >= 0 && Tiling(u, tiles)
    requires forall b :: b in ds <==> b in es
    requires forall b :: b in ds ==> b in tiles
    ensures
      var s, t := Deliver(u, ds), Deliver(u, es);
      s.updSeq == t.updSeq && s.bySeq == t.bySeq && s.timer == t.timer && Batches(s.log) == Batches(t.log)
  {
    var s, t := Deliver(u, ds), Deliver(u, es);
    var p := AppliedIsPrefix(u, tiles, ds);
    var q := AppliedIsPrefix(u, tiles, es);
    assert p == q;
    SameBuffer(u, tiles, ds, es);
  }

  lemma SameBuffer(u: int, tiles: seq<Batch>, ds: seq<Batch>, es: seq<Batch>)
    requires u >= 0 && Tiling(u, tiles)
    requires forall b :: b in ds <==> b in es
    requires forall b :: b in ds ==> b in tiles
    requires Deliver(u, ds).updSeq == Deliver(u, es).updSeq
    ensures Deliver(u, ds).bySeq == Deliver(u, es).bySeq && Deliver(u, ds).timer == Deliver(u, es).timer
  {
    var s, t := Deliver(u, ds), Deliver(u, es);
    DeliverSettles(u, ds);
    DeliverSettles(u, es);
    assert forall k :: k in s.bySeq ==> s.bySeq[k] in ds && s.bySeq[k].start == k;
    assert forall k :: k in t.bySeq ==> t.bySeq[k] in es && t.bySeq[k].start == k;
    assert s.bySeq.Keys == t.bySeq.Keys;
    forall k | k in s.bySeq ensures s.bySeq[k] == t.bySeq[k] {
      UniqueStart(u, tiles, s.bySeq[k], t.bySeq[k]);
    }
  }

  lemma UniqueStart(u: int, tiles: seq<Batch>, b: Batch, c: Batch)
    requires Tiling(u, tiles) && b in tiles && c in tiles && b.start == c.start
    ensures b == c
  {
    var i :| 0 <= i < |tiles| && tiles[i] == b;
    var j :| 0 <= j < |tiles| && tiles[j] == c;
    if i < j { TilesIncrease(u, tiles, i, j); }
    if j < i { TilesIncrease(u, tiles, j, i); }
  }

  /** Confluence: once every tile has arrived at least once, each was applied exactly once,
      in ascending order, updSeq is the end of the last one and nothing is buffered. */
  lemma CompleteDelivery(u: int, tiles: seq<Batch>, ds: seq<Batch>)
    requires u >= 0 && Tiling(u, tiles)
    requires forall b :: b in ds <==> b in tiles
    ensures
      var s := Deliver(u, ds);
      && Batches(s.log) == tiles
      && s.updSeq == (if tiles == [] then u else tiles[|tiles| - 1].end)
      && s.bySeq == map[] && !s.timer
  {
    var s := Deliver(u, ds);
    var p := AppliedIsPrefix(u, tiles, ds);
    assert p == |tiles| && tiles[..p] == tiles;
    DeliverSettles(u, ds);
    forall k | k in s.bySeq ensures false {
      NothingBeyond(u, tiles, s.bySeq[k]);
    }
    assert s.bySeq == map[];
  }

  lemma NothingBeyond(u: int, tiles: seq<Batch>, b: Batch)
    requires Tiling(u, tiles) && b in tiles
    ensures b.start <= tiles[|tiles| - 1].end
  {
    var i :| 0 <= i < |tiles| && tiles[i] == b;
    if i < |tiles| - 1 { TilesIncrease(u, tiles, i, |tiles| - 1); }
  }
}
