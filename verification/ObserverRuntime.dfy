/** The event queues of all observables and the two global registries, pending and active. */
module ObserverRuntime {
  import opened OrderedKeys

  type Obs = nat      // the address of an ObservableData; OrderedSet walks them in ascending order
  type Event = nat

  /** The data of one observable.  The ghost part of the story: everything it was notified of,
      everything it delivered, and what the running callHandlers has taken and not delivered yet. */
  datatype Data = Data(
    events: seq<Event>, subscribers: nat, notified: seq<Event>, delivered: seq<Event>, inHand: seq<Event>)

  /** `done` is the history of what handlers and other code did, in the order in which they did it. */
  datatype State = State(
    data: map<Obs, Data>, handling: set<Obs>, pending: set<Obs>, active: set<Obs>, next: Obs, done: seq<Action>)

  /** What a handler does before it returns. */
  datatype Action =
    | Notify(o: Obs, event: Event, sync: bool)
    | Subscribe(o: Obs)
    | Unsubscribe(o: Obs)
    | Create
    | Return

  /** No event is lost, and every queue that is not empty is registered. */
  ghost predicate Kept(s: State, o: Obs)
    requires o in s.data
  {
    var d := s.data[o];
    && o < s.next
    && d.notified == d.delivered + d.inHand + d.events
    && (o !in s.handling ==> d.inHand == [] && d.subscribers > 0)
    && (o !in s.handling && d.events != [] ==> o in s.pending || o in s.active)
    && (o in s.handling && d.events != [] ==> o in s.pending)
  }

  ghost predicate Inv(s: State) {
    && s.handling <= s.data.Keys && s.pending <= s.data.Keys && s.active <= s.data.Keys
    && forall o :: o in s.data ==> Kept(s, o)
  }

  /** How one observable may change while other code runs: its history only grows, nothing is
      delivered to it while one of its events is being handled (it is in h), and it leaves the active
      registry only after everything it was notified of before has been delivered. */
  ghost predicate Grows(s: State, t: State, h: set<Obs>, o: Obs)
    requires o in s.data && o in t.data
  {
    var d, e := s.data[o], t.data[o];
    && d.notified <= e.notified && d.delivered <= e.delivered
    && (o in h ==> e.delivered == d.delivered && e.inHand == d.inHand)
    && (o in s.active && o !in t.active ==> d.notified <= e.delivered)
  }

  // ---------------------------------------------------------------- how long an observable lives

  function AfterOne(n: nat, a: Action, o: Obs): nat {
    if a == Subscribe(o) then n + 1 else if a == Unsubscribe(o) && n > 0 then n - 1 else n
  }

  /** How many of n subscriptions of an observable are left. */
  function Left(n: nat, log: seq<Action>, o: Obs): nat
    decreases |log|
  {
    if log == [] then n else Left(AfterOne(n, log[0], o), log[1..], o)
  }

  /** Whether there was a moment without any subscription. */
  predicate RunsOut(n: nat, log: seq<Action>, o: Obs)
    decreases |log|
  {
    n == 0 || (log != [] && RunsOut(AfterOne(n, log[0], o), log[1..], o))
  }

  lemma {:induction false} LeftAndThen(n: nat, log: seq<Action>, more: seq<Action>, o: Obs)
    ensures Left(n, log + more, o) == Left(Left(n, log, o), more, o)
    ensures RunsOut(n, log + more, o) <==> RunsOut(n, log, o) || RunsOut(Left(n, log, o), more, o)
    decreases |log|
  {
    if log == [] {
      assert log + more == more;
    } else {
      LeftAndThen(AfterOne(n, log[0], o), log[1..], more, o);
      assert (log + more)[1..] == log[1..] + more;
    }
  }

  lemma {:induction false} LeftWithout(n: nat, log: seq<Action>, o: Obs)
    requires n > 0 && Unsubscribe(o) !in log
    ensures !RunsOut(n, log, o) && Left(n, log, o) >= n
    decreases |log|
  {
    if log != [] { LeftWithout(AfterOne(n, log[0], o), log[1..], o); }
  }

  /** An observable that is still there has the subscriptions that are left to it by what was done;
      one that is not there any more had none at some moment. */
  ghost predicate Spent(s: State, t: State, o: Obs)
    requires o in s.data && s.done <= t.done
  {
    var log := t.done[|s.done|..];
    if o in t.data then t.data[o].subscribers == Left(s.data[o].subscribers, log, o)
    else RunsOut(s.data[o].subscribers, log, o)
  }

  /** The observables in h are in the middle of callHandlers and stay alive. */
  ghost predicate Later(s: State, t: State, h: set<Obs>) {
    && t.active <= s.active && s.next <= t.next && h <= t.data.Keys
    && (forall o :: o in t.data && o !in s.data ==> o >= s.next)
    && (forall o :: o in s.data && o in t.data ==> Grows(s, t, h, o))
    && s.done <= t.done && (forall o :: o in s.data ==> Spent(s, t, o))
  }

  lemma LaterTrans(s: State, t: State, u: State, h: set<Obs>)
    requires Inv(s) && Later(s, t, h) && Later(t, u, h)
    ensures Later(s, u, h)
  {
    forall o | o in s.data && o in u.data ensures Grows(s, u, h, o) {
      assert Kept(s, o);
      assert o in t.data;
      assert Grows(s, t, h, o) && Grows(t, u, h, o);
    }
    forall o | o in s.data ensures Spent(s, u, o) {
      assert Kept(s, o);
      SpentTwice(s, t, u, o);
    }
  }

  lemma SpentTwice(s: State, t: State, u: State, o: Obs)
    requires o in s.data && s.done <= t.done <= u.done && Spent(s, t, o)
    requires if o in t.data then Spent(t, u, o) else o !in u.data
    ensures Spent(s, u, o)
  {
    var log, more := t.done[|s.done|..], u.done[|t.done|..];
    assert u.done[|s.done|..] == log + more;
    LeftAndThen(s.data[o].subscribers, log, more, o);
  }

  /** Nothing was done, and nobody lost a subscription. */
  lemma NothingSpent(s: State, t: State)
    requires t.done == s.done
    requires forall o :: o in s.data ==> o in t.data && t.data[o].subscribers == s.data[o].subscribers
    ensures forall o :: o in s.data ==> Spent(s, t, o)
  {
    assert t.done[|s.done|..] == [];
  }

  lemma OneSpent(s: State, t: State, a: Action)
    requires t.done == s.done + [a]
    requires forall o :: o in s.data ==>
               if o in t.data then t.data[o].subscribers == AfterOne(s.data[o].subscribers, a, o)
               else AfterOne(s.data[o].subscribers, a, o) == 0
    ensures forall o :: o in s.data ==> Spent(s, t, o)
  {
    var log := t.done[|s.done|..];
    assert log == [a] && log[1..] == [];
    forall o | o in s.data ensures Spent(s, t, o) {
      var n := AfterOne(s.data[o].subscribers, a, o);
      assert Left(n, log[1..], o) == n && (RunsOut(n, log[1..], o) <==> n == 0);
    }
  }

  /** An observable with subscriptions stays, unless somebody gives one of them up. */
  lemma StaysUnless(s: State, t: State, h: set<Obs>, o: Obs)
    requires Later(s, t, h) && o in s.data && s.data[o].subscribers > 0
    requires Unsubscribe(o) !in t.done[|s.done|..]
    ensures o in t.data && t.data[o].subscribers >= s.data[o].subscribers
  {
    LeftWithout(s.data[o].subscribers, t.done[|s.done|..], o);
  }

  lemma SwappedLater(s0: State, s1: State, t: State)
    requires s0.active == {} && s1 == s0.(active := s0.pending, pending := {}) && t.active == {}
    requires Later(s1, t, {})
    ensures Later(s0, t, {})
  {
    forall o | o in s0.data && o in t.data ensures Grows(s0, t, {}, o) {
      assert Grows(s1, t, {}, o);
    }
    forall o | o in s0.data ensures Spent(s0, t, o) {
      assert Spent(s1, t, o);
    }
  }

  lemma SwappedDelivers(s0: State, s1: State, t: State)
    requires Inv(s0) && s0.handling == {}
    requires s0.active == {} && s1 == s0.(active := s0.pending, pending := {}) && t.active == {}
    requires Later(s1, t, {})
    ensures forall o :: o in s0.data && o in t.data ==> s0.data[o].notified <= t.data[o].delivered
    ensures forall o :: o in s0.data && Unsubscribe(o) !in t.done[|s0.done|..] ==> o in t.data
  {
    forall o | o in s0.data && o in t.data ensures s0.data[o].notified <= t.data[o].delivered {
      assert Kept(s0, o) && Grows(s1, t, {}, o);
    }
    forall o | o in s0.data && Unsubscribe(o) !in t.done[|s0.done|..] ensures o in t.data {
      assert Kept(s0, o);
      StaysUnless(s1, t, {}, o);
    }
  }

  /** When no observable is registered or being handled, everything that it was notified of has been
      delivered, in that order and once. */
  lemma QuietMeansDelivered(s: State)
    requires Inv(s) && s.handling == {} && s.pending == {} && s.active == {}
    ensures forall o :: o in s.data ==> s.data[o].delivered == s.data[o].notified
  {
    forall o | o in s.data ensures s.data[o].delivered == s.data[o].notified {
      assert Kept(s, o);
    }
  }

  lemma LaterWeaker(s: State, t: State, h: set<Obs>, g: set<Obs>)
    requires Later(s, t, h) && g <= h
    ensures Later(s, t, g)
  {
    forall o | o in s.data && o in t.data ensures Grows(s, t, g, o) {
      assert Grows(s, t, h, o);
    }
  }

  // ---------------------------------------------------------------- what is notified

  /** The events of one observable in the log, in their order. */
  function EventsFor(log: seq<Action>, o: Obs): seq<Event> {
    if log == [] then []
    else
      var a := log[|log| - 1];
      EventsFor(log[..|log| - 1], o) + if a.Notify? && a.o == o then [a.event] else []
  }

  function Creates(log: seq<Action>): nat {
    if log == [] then 0 else Creates(log[..|log| - 1]) + if log[|log| - 1].Create? then 1 else 0
  }

  lemma {:induction false} EventsAdd(log: seq<Action>, more: seq<Action>)
    ensures forall o :: EventsFor(log + more, o) == EventsFor(log, o) + EventsFor(more, o)
    ensures Creates(log + more) == Creates(log) + Creates(more)
    decreases |more|
  {
    if more == [] {
      assert log + more == log;
    } else {
      var n := |more| - 1;
      EventsAdd(log, more[..n]);
      assert (log + more)[..|log + more| - 1] == log + more[..n];
    }
  }

  /** Whatever an observable was notified of is in the log, and nothing in the log was left undone: every
      observable that is still there got exactly the events that the log has for it, in their order, and
      as many were created as the log says. */
  ghost predicate Heard(s: State, t: State) {
    && s.done <= t.done && t.next == s.next + Creates(t.done[|s.done|..])
    && forall o :: o in s.data && o in t.data ==> HeardBy(s, t, o)
  }

  ghost predicate HeardBy(s: State, t: State, o: Obs)
    requires o in s.data && o in t.data && s.done <= t.done
  {
    t.data[o].notified == s.data[o].notified + EventsFor(t.done[|s.done|..], o)
  }

  lemma HeardTwice(s: State, t: State, u: State)
    requires Heard(s, t) && Heard(t, u) && forall o :: o in s.data && o in u.data ==> o in t.data
    ensures Heard(s, u)
  {
    hide EventsFor, Creates, HeardBy;
    var log, more := t.done[|s.done|..], u.done[|t.done|..];
    TwoLogs(s.done, t.done, u.done);
    EventsAdd(log, more);
    forall o | o in s.data && o in u.data ensures HeardBy(s, u, o) {
      HeardByBoth(s, t, u, o);
    }
  }

  lemma HeardByBoth(s: State, t: State, u: State, o: Obs)
    requires o in s.data && o in t.data && o in u.data && s.done <= t.done <= u.done
    requires HeardBy(s, t, o) && HeardBy(t, u, o)
    ensures HeardBy(s, u, o)
  {
    hide EventsFor;
    var log, more := t.done[|s.done|..], u.done[|t.done|..];
    TwoLogs(s.done, t.done, u.done);
    EventsAdd(log, more);
  }

  lemma TwoLogs(a: seq<Action>, b: seq<Action>, c: seq<Action>)
    requires a <= b <= c
    ensures c[|a|..] == b[|a|..] + c[|b|..]
  {
  }

  /** Nothing was notified and nothing created. */
  lemma NothingHeard(s: State, t: State)
    requires t.done == s.done && t.next == s.next
    requires forall o :: o in s.data && o in t.data ==> t.data[o].notified == s.data[o].notified
    ensures Heard(s, t)
  {
    assert t.done[|s.done|..] == [];
    forall o | o in s.data && o in t.data ensures HeardBy(s, t, o) {
      assert s.data[o].notified + [] == s.data[o].notified;
    }
  }

  lemma OneHeard(s: State, t: State, a: Action)
    requires t.done == s.done + [a] && t.next == s.next + if a.Create? then 1 else 0
    requires forall o :: o in s.data && o in t.data ==>
               t.data[o].notified == s.data[o].notified + if a.Notify? && a.o == o then [a.event] else []
    ensures Heard(s, t)
  {
    var log := t.done[|s.done|..];
    assert log == [a] && log[..0] == [];
    forall o | o in s.data && o in t.data ensures HeardBy(s, t, o) {
      assert EventsFor(log, o) == [] + if a.Notify? && a.o == o then [a.event] else [];
    }
  }

  /** The events that callHandlers is given are pushed to the queue first. */
  function Pushed(s: State, o: Obs, pushed: seq<Event>): State
    requires o in s.data
  {
    s.(data := s.data[o := s.data[o].(notified := s.data[o].notified + pushed)])
  }

  lemma HeardGrows(s: State, t: State)
    requires Heard(s, t)
    ensures s.done <= t.done
    ensures forall o :: o in s.data && o in t.data ==> s.data[o].notified <= t.data[o].notified
  {
    forall o | o in s.data && o in t.data ensures s.data[o].notified <= t.data[o].notified {
      assert HeardBy(s, t, o);
    }
  }

  /** `base` has the observables of s, perhaps with an event pushed to one of them. */
  lemma HeardOn(s: State, base: State, t: State, u: State, h: set<Obs>, g: set<Obs>)
    requires Inv(s) && Later(s, t, h) && Later(t, u, g) && base.data.Keys == s.data.Keys
    requires Heard(base, t) && Heard(t, u)
    ensures Heard(base, u)
  {
    hide Heard, Grows, Spent;
    forall o | o in base.data && o in u.data ensures o in t.data { assert Kept(s, o); }
    HeardTwice(base, t, u);
  }

  /** How many runs of handlers have returned. */
  function Returns(log: seq<Action>): nat {
    if log == [] then 0 else Returns(log[..|log| - 1]) + if log[|log| - 1].Return? then 1 else 0
  }

  lemma OneMoreReturn(log: seq<Action>, a: Action)
    ensures Returns(log + [a]) == Returns(log) + if a.Return? then 1 else 0
  {
    assert (log + [a])[..|log|] == log;
  }

  /** The event is the last one in the queue of its observable, which is registered, and no handler has
      run: everything else is what it was. */
  ghost predicate JustQueued(s: State, t: State, o: Obs, event: Event)
    requires o in s.data
  {
    && t.data.Keys == s.data.Keys && (forall p :: p in s.data && p != o ==> t.data[p] == s.data[p])
    && t.data[o].events == s.data[o].events + [event] && t.data[o].notified == s.data[o].notified + [event]
    && t.data[o].delivered == s.data[o].delivered && t.data[o].inHand == s.data[o].inHand
    && t.data[o].subscribers == s.data[o].subscribers
    && (o in t.pending || (o in t.active && o !in t.handling))
    && t.pending == (if s.data[o].events == [] then s.pending + {o} else s.pending)
    && t.handling == s.handling && t.active == s.active && t.next == s.next && t.done == s.done
  }

  lemma QueuedIsJustQueued(s: State, o: Obs, event: Event)
    requires Inv(s) && o in s.data
    ensures JustQueued(s, Queued(s, o, event), o, event)
  {
    QueuedKeeps(s, o, event);
    assert Kept(Queued(s, o, event), o);
  }

  // ---------------------------------------------------------------- atomic pieces

  function Queued(s: State, o: Obs, event: Event): State
    requires o in s.data
  {
    var d := s.data[o];
    s.(pending := if d.events == [] then s.pending + {o} else s.pending,
       data := s.data[o := d.(events := d.events + [event], notified := d.notified + [event])])
  }

  /** The start of callHandlers.  A synchronous notification has pushed its event just before,
      and everything that was queued is taken out. */
  function Taken(s: State, o: Obs, pushed: seq<Event>): State
    requires o in s.data
  {
    var d := s.data[o];
    s.(handling := s.handling + {o},
       data := s.data[o := d.(events := [], inHand := d.events + pushed, notified := d.notified + pushed)])
  }

  /** One event reaches the handlers. */
  function Passed(s: State, o: Obs): State
    requires o in s.data && s.data[o].inHand != []
  {
    var d := s.data[o];
    s.(data := s.data[o := d.(delivered := d.delivered + d.inHand[..1], inHand := d.inHand[1..])])
  }

  function Finished(s: State, o: Obs): State {
    s.(handling := s.handling - {o}, active := s.active - {o})
  }

  /** ~ObservableData with its UnregisterObservable. */
  function Destroyed(s: State, o: Obs): State {
    s.(data := s.data - {o}, handling := s.handling - {o}, pending := s.pending - {o}, active := s.active - {o})
  }

  function Logged(s: State, a: Action): State {
    s.(done := s.done + [a])
  }

  function Subscribed(s: State, o: Obs): State {
    if o !in s.data then Logged(s, Subscribe(o))
    else Logged(s, Subscribe(o)).(data := s.data[o := s.data[o].(subscribers := s.data[o].subscribers + 1)])
  }

  /** A subscription less; with the last one the data goes away, unless its own handlers are running. */
  function Unsubscribed(s: State, o: Obs): State {
    var t := Logged(s, Unsubscribe(o));
    if o !in s.data || s.data[o].subscribers == 0 then t
    else if s.data[o].subscribers == 1 && o !in s.handling then Destroyed(t, o)
    else t.(data := s.data[o := s.data[o].(subscribers := s.data[o].subscribers - 1)])
  }

  function Created(s: State): State {
    s.(data := s.data[s.next := Data([], 1, [], [], [])], next := s.next + 1)
  }

  lemma OneChanges(s: State, t: State, o: Obs, h: set<Obs>)
    requires Inv(s) && o in s.data && o in t.data && t.data == s.data[o := t.data[o]]
    requires t.active == s.active && s.pending <= t.pending <= t.data.Keys && t.next == s.next
    requires s.handling - {o} == t.handling - {o} && h <= s.data.Keys
    requires Kept(t, o) && Grows(s, t, h, o)
    requires s.done <= t.done && forall p :: p in s.data ==> Spent(s, t, p)
    ensures Inv(t) && Later(s, t, h)
  {
    forall p | p in t.data ensures Kept(t, p) {
      assert Kept(s, p);
      if p != o { assert p in s.handling - {o} <==> p in t.handling - {o}; }
    }
    assert t.handling <= t.data.Keys by {
      forall p | p in t.handling ensures p in t.data {
        if p != o { assert p in s.handling - {o}; }
      }
    }
  }

  lemma QueuedKeeps(s: State, o: Obs, event: Event)
    requires Inv(s) && o in s.data
    ensures Inv(Queued(s, o, event)) && Later(s, Queued(s, o, event), s.handling)
  {
    var d := s.data[o];
    assert Kept(s, o);
    assert d.notified + [event] == d.delivered + d.inHand + (d.events + [event]);
    NothingSpent(s, Queued(s, o, event));
    OneChanges(s, Queued(s, o, event), o, s.handling);
  }

  lemma TakenKeeps(s: State, o: Obs, pushed: seq<Event>)
    requires Inv(s) && o in s.data && o !in s.handling
    ensures Inv(Taken(s, o, pushed)) && Later(s, Taken(s, o, pushed), s.handling)
    ensures
      var d := Taken(s, o, pushed).data[o];
      d.subscribers > 0 && d.delivered + d.inHand == s.data[o].notified + pushed
  {
    var d := s.data[o];
    assert Kept(s, o);
    assert d.notified + pushed == d.delivered + (d.events + pushed) + [];
    assert d.delivered + (d.events + pushed) == d.notified + pushed;
    NothingSpent(s, Taken(s, o, pushed));
    OneChanges(s, Taken(s, o, pushed), o, s.handling);
  }

  lemma PassedKeeps(s: State, o: Obs)
    requires Inv(s) && o in s.data && o in s.handling && s.data[o].inHand != []
    ensures Inv(Passed(s, o)) && Later(s, Passed(s, o), s.handling - {o})
    ensures
      var d := Passed(s, o).data[o];
      d.delivered + d.inHand == s.data[o].delivered + s.data[o].inHand
  {
    var d := s.data[o];
    assert Kept(s, o);
    assert d.inHand == d.inHand[..1] + d.inHand[1..];
    assert d.delivered + d.inHand == d.delivered + d.inHand[..1] + d.inHand[1..];
    NothingSpent(s, Passed(s, o));
    OneChanges(s, Passed(s, o), o, s.handling - {o});
  }

  lemma DestroyedKeeps(s: State, o: Obs)
    requires Inv(s) && o in s.data && s.data[o].subscribers == 0
    ensures Inv(Destroyed(s, o)) && Later(s, Destroyed(s, o), s.handling - {o})
  {
    var t := Destroyed(s, o);
    forall p | p in t.data ensures Kept(t, p) { assert Kept(s, p); }
    forall p | p in s.data ensures p < s.next { assert Kept(s, p); }
  }

  /** Code that neither gives up nor takes a subscription. */
  lemma LoggedKeeps(s: State, a: Action)
    requires Inv(s) && !a.Subscribe? && !a.Unsubscribe?
    ensures Inv(Logged(s, a)) && Later(s, Logged(s, a), s.handling)
  {
    OneSpent(s, Logged(s, a), a);
    SameKept(s, Logged(s, a));
  }

  lemma SubscribedKeeps(s: State, o: Obs)
    requires Inv(s)
    ensures Inv(Subscribed(s, o)) && Later(s, Subscribed(s, o), s.handling)
  {
    OneSpent(s, Subscribed(s, o), Subscribe(o));
    if o in s.data {
      assert Kept(s, o);
      OneChanges(s, Subscribed(s, o), o, s.handling);
    } else {
      SameKept(s, Subscribed(s, o));
    }
  }

  lemma UnsubscribedKeeps(s: State, o: Obs)
    requires Inv(s)
    ensures Inv(Unsubscribed(s, o)) && Later(s, Unsubscribed(s, o), s.handling)
  {
    var t := Unsubscribed(s, o);
    OneSpent(s, t, Unsubscribe(o));
    if o !in s.data || s.data[o].subscribers == 0 {
      SameKept(s, t);
    } else if s.data[o].subscribers == 1 && o !in s.handling {
      LessKept(s, t, o);
    } else {
      assert Kept(s, o);
      OneChanges(s, t, o, s.handling);
    }
  }

  lemma SameKept(s: State, t: State)
    requires Inv(s) && t == s.(done := t.done) && s.done <= t.done && forall o :: o in s.data ==> Spent(s, t, o)
    ensures Inv(t) && Later(s, t, s.handling)
  {
    assert forall o :: o in s.data ==> Kept(s, o);
  }

  lemma LessKept(s: State, t: State, o: Obs)
    requires Inv(s) && o !in s.handling && t == Destroyed(s, o).(done := t.done)
    requires s.done <= t.done && forall p :: p in s.data ==> Spent(s, t, p)
    ensures Inv(t) && Later(s, t, s.handling)
  {
    assert t.handling == s.handling;
    forall p | p in t.data ensures Kept(t, p) && Grows(s, t, s.handling, p) { assert Kept(s, p); }
    forall p | p in s.data ensures p < s.next { assert Kept(s, p); }
  }

  lemma CreatedKeeps(s: State)
    requires Inv(s)
    ensures Inv(Created(s)) && Later(s, Created(s), s.handling)
  {
    assert forall p :: p in s.data ==> Kept(s, p);
    NothingSpent(s, Created(s));
  }

  /** callHandlers began in s0 and nothing is left in hand. */
  lemma FinishedKeeps(s0: State, s: State, o: Obs)
    requires Inv(s0) && o in s0.data && o !in s0.handling
    requires Inv(s) && o in s.data && s.handling == s0.handling + {o}
    requires Later(s0, s, s0.handling)
    requires s.data[o].inHand == [] && s.data[o].subscribers > 0 && s0.data[o].notified <= s.data[o].delivered
    ensures Inv(Finished(s, o)) && Later(s0, Finished(s, o), s0.handling) && Finished(s, o).handling == s0.handling
  {
    var t := Finished(s, o);
    assert t.handling == s0.handling;
    forall p | p in t.data ensures Kept(t, p) { assert Kept(s, p); }
    forall p | p in s0.data && p in t.data ensures Grows(s0, t, s0.handling, p) {
      assert Grows(s0, s, s0.handling, p);
    }
  }

  // ---------------------------------------------------------------- what the steps are heard as

  lemma PushedIsHeard(s: State, o: Obs, event: Event, sync: bool)
    requires Inv(s) && o in s.data
    ensures var noted := Logged(s, Notify(o, event, sync));
            var base := Pushed(noted, o, [event]);
            Heard(s, base) && Later(s, base, s.handling)
  {
    var noted := Logged(s, Notify(o, event, sync));
    OneHeard(s, Pushed(noted, o, [event]), Notify(o, event, sync));
    OneSpent(s, Pushed(noted, o, [event]), Notify(o, event, sync));
    forall p | p in s.data ensures p < s.next { assert Kept(s, p); }
  }

  lemma QueuedIsHeard(s: State, o: Obs, event: Event, sync: bool)
    requires o in s.data
    ensures Heard(s, Queued(Logged(s, Notify(o, event, sync)), o, event))
  {
    OneHeard(s, Queued(Logged(s, Notify(o, event, sync)), o, event), Notify(o, event, sync));
  }

  lemma FinishedIsHeard(base: State, t: State, o: Obs)
    requires Heard(base, t)
    ensures Heard(base, Finished(t, o))
  {
    forall p | p in base.data && p in t.data ensures HeardBy(base, Finished(t, o), p) {
      assert HeardBy(base, t, p);
    }
  }

  lemma CreatedIsHeard(s: State)
    requires Inv(s)
    ensures Heard(s, Created(Logged(s, Create)))
  {
    forall p | p in s.data ensures p < s.next { assert Kept(s, p); }
    OneHeard(s, Created(Logged(s, Create)), Create);
  }

  lemma NextIsNew(s: State)
    requires Inv(s)
    ensures s.next !in s.data
  {
    forall o | o in s.data ensures o < s.next { assert Kept(s, o); }
  }

  lemma PushedNothing(s: State, o: Obs)
    requires o in s.data
    ensures Pushed(s, o, []) == s
  {
    assert s.data[o].notified + [] == s.data[o].notified;
    assert s.data[o := s.data[o]] == s.data;
  }

  lemma SwappedIsHeard(s0: State, s1: State, t: State)
    requires s1 == s0.(active := s1.active, pending := s1.pending) && Heard(s1, t)
    ensures Heard(s0, t)
  {
    forall o | o in s0.data && o in t.data ensures HeardBy(s0, t, o) { assert HeardBy(s1, t, o); }
  }

  lemma NothingLater(s: State)
    requires Inv(s)
    ensures Later(s, s, s.handling)
  {
    NothingSpent(s, s);
  }

  // ---------------------------------------------------------------- the runtime

  class Observables {
    var data: map<Obs, Data>
    var handling: set<Obs>
    var pending: set<Obs>
    var active: set<Obs>
    var next: Obs
    var script: seq<Action>    // what the handlers will do, in the order in which they run
    ghost var done: seq<Action>
    ghost var passed: nat      // how many events have reached handlers

    /** How many runs of handlers have returned more than there were events. */
    ghost function Balance(): int
      reads this
    {
      Returns(done) - passed
    }

    ghost function Model(): State
      reads this
    {
      State(data, handling, pending, active, next, done)
    }

    constructor (script: seq<Action>)
      ensures Inv(Model()) && Model() == State(map[], {}, {}, {}, 0, []) && this.script == script && Balance() == 0
    {
      data, handling, pending, active, next, done, passed := map[], {}, {}, {}, 0, [], 0;
      this.script := script;
    }

    method RegisterPending(o: Obs)
      modifies this`pending
      ensures pending == old(pending) + {o}
    {
      pending := pending + {o};
    }

    method Queue(o: Obs, event: Event)
      requires o in data
      modifies this`pending, this`data
      ensures Model() == Queued(old(Model()), o, event)
    {
      var d := data[o];
      if d.events == [] {
        RegisterPending(o);
      }
      data := data[o := d.(events := d.events + [event], notified := d.notified + [event])];
    }

    method Take(o: Obs, pushed: seq<Event>) returns (events: seq<Event>)
      requires o in data
      modifies this`handling, this`data
      ensures Model() == Taken(old(Model()), o, pushed) && events == data[o].inHand
    {
      handling := handling + {o};
      var d := data[o];
      events := d.events + pushed;
      data := data[o := d.(events := [], inHand := events, notified := d.notified + pushed)];
    }

    method Pass(o: Obs)
      requires o in data && data[o].inHand != []
      modifies this`data, this`passed
      ensures Model() == Passed(old(Model()), o) && passed == old(passed) + 1
      ensures data[o].delivered == old(data)[o].delivered + [old(data)[o].inHand[0]]
      ensures data[o].inHand == old(data)[o].inHand[1..]
    {
      passed := passed + 1;
      var d := data[o];
      data := data[o := d.(delivered := d.delivered + d.inHand[..1], inHand := d.inHand[1..])];
    }

    method Destroy(o: Obs)
      modifies this`data, this`handling, this`pending, this`active
      ensures Model() == Destroyed(old(Model()), o)
    {
      data := data - {o};
      handling := handling - {o};
      pending := pending - {o};
      active := active - {o};
    }

    method Finish(o: Obs)
      modifies this`handling, this`active
      ensures Model() == Finished(old(Model()), o)
    {
      handling := handling - {o};
      active := active - {o};
    }

    /** notify: while its own handlers run, an observable only queues; otherwise a synchronous event
        is delivered at once, after those that were queued before it. */
    method NotifyObservers(o: Obs, event: Event, sync: bool)
      requires Inv(Model())
      modifies this
      ensures o in old(data) && o in data ==> old(data)[o].notified + [event] <= data[o].notified
      ensures o in old(data) && o in data && sync && o !in handling ==>
              old(data)[o].notified + [event] <= data[o].delivered
      ensures o !in old(data) ==> Model() == Logged(old(Model()), Notify(o, event, sync))
      ensures o in old(data) && (!sync || o in old(handling)) ==>
                JustQueued(Logged(old(Model()), Notify(o, event, sync)), Model(), o, event)
      ensures !sync || o in old(handling) ==> script == old(script) && passed == old(passed)
      ensures Inv(Model()) && Later(old(Model()), Model(), handling) && handling == old(handling)
      ensures done + script == old(done) + [Notify(o, event, sync)] + old(script) && |script| <= |old(script)|
      ensures Balance() <= old(Balance()) && (script != [] ==> Balance() == old(Balance()))
      ensures Heard(old(Model()), Model()) && old(done) + [Notify(o, event, sync)] <= done
      decreases |script|, 3
    {
      hide Inv, Later, Heard, Returns;
      ghost var s := Model();
      Note(Notify(o, event, sync));
      ghost var noted := Model();
      if o !in data {
        OneHeard(s, noted, Notify(o, event, sync));
        return;
      }
      PushedIsHeard(s, o, event, sync);
      if sync && o !in handling {
        CallHandlers(o, [event]);
        LaterTrans(s, noted, Model(), s.handling);
        HeardGrows(Pushed(noted, o, [event]), Model());
        HeardTwice(s, Pushed(noted, o, [event]), Model());
      } else {
        QueuedKeeps(noted, o, event);
        QueuedIsJustQueued(noted, o, event);
        Queue(o, event);
        LaterTrans(s, noted, Model(), s.handling);
        QueuedIsHeard(s, o, event, sync);
      }
    }

    /** callHandlers: the events taken are delivered one by one, in order; the handlers of each may
        notify any observable in turn, unsubscribe, and create new ones. */
    method CallHandlers(o: Obs, pushed: seq<Event>)
      requires Inv(Model()) && o in data && o !in handling
      modifies this
      ensures Inv(Model()) && Later(old(Model()), Model(), handling) && handling == old(handling)
      ensures o !in active && done + script == old(done) + old(script)
      ensures Balance() <= old(Balance()) && (script != [] ==> Balance() == old(Balance()))
      ensures o in data ==> old(data)[o].notified + pushed <= data[o].delivered
      ensures Heard(Pushed(old(Model()), o, pushed), Model()) && |script| <= |old(script)|
      decreases |script|, 2
    {
      hide Inv, Later, Returns, Heard;
      ghost var s0 := Model();
      ghost var base := Pushed(s0, o, pushed);
      TakenKeeps(s0, o, pushed);
      NothingHeard(base, Taken(s0, o, pushed));
      var events := Take(o, pushed);
      var i := 0;
      while i < |events|
        invariant 0 <= i <= |events| && done + script == old(done) + old(script) && |script| <= |old(script)|
        invariant Balance() <= old(Balance()) && (script != [] ==> Balance() == old(Balance()))
        invariant Inv(Model()) && Later(s0, Model(), s0.handling) && handling == s0.handling + {o}
        invariant o in data && data[o].inHand == events[i..] && data[o].subscribers > 0
        invariant s0.data[o].notified + pushed <= data[o].delivered + data[o].inHand
        invariant Heard(base, Model())
      {
        var gone := HandleOne(o, s0, base);
        if gone {
          return;
        }
        i := i + 1;
      }
      ghost var known := s0.data[o].notified + pushed;
      assert data[o].inHand == [] && data[o].delivered + [] == data[o].delivered;
      assert known[..|s0.data[o].notified|] == s0.data[o].notified;
      ghost var last := Model();
      FinishedKeeps(s0, last, o);
      Finish(o);
      FinishedIsHeard(base, last, o);
    }

    /** One event of callHandlers, which began in s0; `gone` is destroyMeIfEmpty(). */
    method HandleOne(o: Obs, ghost s0: State, ghost base: State) returns (gone: bool)
      requires Inv(s0) && Inv(Model()) && Later(s0, Model(), s0.handling)
      requires o !in s0.handling && handling == s0.handling + {o} && o in data && data[o].inHand != []
      requires base.data.Keys == s0.data.Keys && Heard(base, Model())
      modifies this
      ensures Heard(base, Model())
      ensures Inv(Model()) && Later(s0, Model(), s0.handling) && done + script == old(done) + old(script)
      ensures Balance() <= old(Balance()) && (script != [] ==> Balance() == old(Balance()))
      ensures |script| <= |old(script)|
      ensures gone ==> handling == s0.handling && o !in active && o !in data
      ensures !gone ==> handling == s0.handling + {o} && o in data && data[o].subscribers > 0
                        && data[o].inHand == old(data)[o].inHand[1..]
                        && data[o].delivered + data[o].inHand == old(data)[o].delivered + old(data)[o].inHand
      decreases |script|, 1
    {
      hide Inv, Returns, Heard;
      ghost var s1 := Model();
      PassedKeeps(s1, o);
      Pass(o);
      assert s1.handling - {o} == s0.handling;
      LaterTrans(s0, s1, Model(), s0.handling);
      ghost var s2 := Model();
      NothingHeard(s1, s2);
      HeardOn(s0, base, s1, s2, s0.handling, s0.handling);
      RunHandlers();
      ghost var s3 := Model();
      LaterWeaker(s2, s3, s2.handling, s0.handling);
      HeardOn(s0, base, s2, s3, s0.handling, s0.handling);
      LaterTrans(s0, s2, s3, s0.handling);
      gone := DestroyMeIfEmpty(o);
      if gone {
        DestroyedKeeps(s3, o);
        NothingHeard(s3, Model());
        HeardOn(s0, base, s3, Model(), s0.handling, s0.handling);
        assert s3.handling - {o} == s0.handling;
        LaterTrans(s0, s3, Model(), s0.handling);
      } else {
        assert Grows(s2, s3, s2.handling, o);
      }
    }

    /** destroyMeIfEmpty */
    method DestroyMeIfEmpty(o: Obs) returns (gone: bool)
      requires o in data
      modifies this`data, this`handling, this`pending, this`active
      ensures gone == (old(data)[o].subscribers == 0)
      ensures Model() == if gone then Destroyed(old(Model()), o) else old(Model())
    {
      gone := data[o].subscribers == 0;
      if gone {
        Destroy(o);
      }
    }

    /** What the handlers do for one event; unless the script ends they return once for it, and once
        for every event that was delivered meanwhile. */
    method RunHandlers()
      requires Inv(Model())
      modifies this
      ensures Balance() <= old(Balance()) + 1 && (script != [] ==> Balance() == old(Balance()) + 1)
      ensures Inv(Model()) && Later(old(Model()), Model(), handling) && handling == old(handling)
      ensures done + script == old(done) + old(script) && Heard(old(Model()), Model())
      decreases |script|, 0
    {
      hide Inv, Later, Returns, Heard;
      ghost var s0 := Model();
      NothingHeard(s0, s0);
      NothingLater(s0);
      while script != []
        invariant Inv(Model()) && Later(s0, Model(), s0.handling) && handling == s0.handling
        invariant done + script == old(done) + old(script)
        invariant Balance() <= old(Balance()) && (script != [] ==> Balance() == old(Balance()))
        invariant Heard(s0, Model())
        decreases |script|
      {
        var action := script[0];
        script := script[1..];
        ghost var s1 := Model();
        Act(action);
        HeardOn(s0, s0, s1, Model(), s0.handling, s0.handling);
        LaterTrans(s0, s1, Model(), s0.handling);
        if action.Return? { return; }
      }
    }

    method Act(action: Action)
      requires Inv(Model())
      modifies this
      ensures Inv(Model()) && Later(old(Model()), Model(), handling) && handling == old(handling)
      ensures done + script == old(done) + [action] + old(script) && old(done) + [action] <= done
      ensures Heard(old(Model()), Model())
      ensures var one := if action.Return? then 1 else 0;
              Balance() <= old(Balance()) + one && (script != [] ==> Balance() == old(Balance()) + one)
      decreases |script|, 4
    {
      hide Inv, Later, Heard, Returns;
      match action {
        case Subscribe(o) => AddSubscription(o);
        case Unsubscribe(o) => RemoveSubscription(o);
        case Notify(o, event, sync) => NotifyObservers(o, event, sync);
        case Create => CreateObservable();
        case Return =>
          ghost var s := Model();
          Note(action);
          OneHeard(s, Model(), action);
      }
    }

    ghost method Note(a: Action)
      requires Inv(Model()) && !a.Subscribe? && !a.Unsubscribe?
      modifies this`done
      ensures Inv(Model()) && Model() == Logged(old(Model()), a) && Later(old(Model()), Model(), handling)
      ensures Balance() == old(Balance()) + if a.Return? then 1 else 0
    {
      LoggedKeeps(Model(), a);
      OneMoreReturn(done, a);
      done := done + [a];
    }

    method AddSubscription(o: Obs)
      requires Inv(Model())
      modifies this`data, this`done
      ensures Inv(Model()) && Later(old(Model()), Model(), handling) && Model() == Subscribed(old(Model()), o)
      ensures Balance() == old(Balance()) && Heard(old(Model()), Model())
    {
      OneHeard(Model(), Subscribed(Model(), o), Subscribe(o));
      SubscribedKeeps(Model(), o);
      OneMoreReturn(done, Subscribe(o));
      if o in data {
        data := data[o := data[o].(subscribers := data[o].subscribers + 1)];
      }
      done := done + [Subscribe(o)];
    }

    /** The data goes away with its last subscription; when that happens in the middle of its own
        enumeration it goes away after the event (see ObserverList.ResetsExactlyWhen for the rest). */
    method RemoveSubscription(o: Obs)
      requires Inv(Model())
      modifies this`data, this`handling, this`pending, this`active, this`done
      ensures Inv(Model()) && Later(old(Model()), Model(), handling) && handling == old(handling)
      ensures Model() == Unsubscribed(old(Model()), o) && Balance() == old(Balance())
      ensures Heard(old(Model()), Model())
    {
      hide Inv, Later, Heard, Returns;
      OneHeard(Model(), Unsubscribed(Model(), o), Unsubscribe(o));
      UnsubscribedKeeps(Model(), o);
      OneMoreReturn(done, Unsubscribe(o));
      done := done + [Unsubscribe(o)];
      if o !in data || data[o].subscribers == 0 {
        return;
      }
      if data[o].subscribers == 1 && o !in handling {
        assert handling - {o} == handling;
        Destroy(o);
      } else {
        data := data[o := data[o].(subscribers := data[o].subscribers - 1)];
      }
    }

    method CreateObservable()
      requires Inv(Model())
      modifies this`data, this`next, this`done
      ensures Inv(Model()) && Later(old(Model()), Model(), handling)
      ensures Model() == Created(Logged(old(Model()), Create)) && Heard(old(Model()), Model())
      ensures old(next) !in old(data) && next > old(next) && Balance() == old(Balance())
      ensures data == old(data)[old(next) := Data([], 1, [], [], [])]   // with one subscription
    {
      hide Later, Heard, Returns;
      ghost var s := Model();
      Note(Create);
      NextIsNew(s);
      CreatedKeeps(Model());
      LaterTrans(s, Logged(s, Create), Created(Logged(s, Create)), handling);
      data := data[next := Data([], 1, [], [], [])];
      next := next + 1;
      CreatedIsHeard(s);
    }

    /** HandleObservables, called from the event loop.  Everything that any observable was notified
        of before the call is delivered by it, in the order of notification, unless all subscriptions
        of the observable are given up meanwhile. */
    method HandleObservables()
      requires Inv(Model()) && handling == {} && active == {}
      modifies this
      ensures Inv(Model()) && handling == {} && active == {}
      ensures Later(old(Model()), Model(), {}) && done + script == old(done) + old(script)
      ensures Heard(old(Model()), Model())
      ensures Balance() <= old(Balance()) && (script != [] ==> Balance() == old(Balance()))
      ensures forall o :: o in old(data) && o in data ==> old(data)[o].notified <= data[o].delivered
      ensures forall o :: o in old(data) && Unsubscribe(o) !in done[|old(done)|..] ==>
                o in data && old(data)[o].notified <= data[o].delivered
    {
      ghost var s0 := Model();
      active, pending := pending, active;
      ghost var s1 := Model();
      assert forall o :: o in data ==> Kept(s0, o) && Kept(s1, o);
      HandleActive();
      SwappedIsHeard(s0, s1, Model());
      SwappedLater(s0, s1, Model());
      SwappedDelivers(s0, s1, Model());
    }

    method HandleActive()
      requires Inv(Model()) && handling == {}
      modifies this
      ensures Inv(Model()) && handling == {} && active == {}
      ensures Later(old(Model()), Model(), {}) && done + script == old(done) + old(script)
      ensures Heard(old(Model()), Model())
      ensures Balance() <= old(Balance()) && (script != [] ==> Balance() == old(Balance()))
    {
      hide Heard;
      ghost var s1 := Model();
      NothingSpent(s1, s1);
      NothingHeard(s1, s1);
      while active != {}
        invariant Inv(Model()) && handling == {} && Later(s1, Model(), {})
        invariant done + script == old(done) + old(script)
        invariant Balance() <= old(Balance()) && (script != [] ==> Balance() == old(Balance()))
        invariant Heard(s1, Model())
        decreases active
      {
        var first := Min(active);
        ghost var s2 := Model();
        PushedNothing(s2, first);
        CallHandlers(first, []);
        HeardOn(s1, s1, s2, Model(), {}, {});
        LaterTrans(s1, s2, Model(), {});
        // The program erases `first` if it is still at the front; it never is.
        assert active == {} || Min(active) != first;
      }
    }
  }
}
