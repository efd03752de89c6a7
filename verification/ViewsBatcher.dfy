/** MainWidget's view counters: ids of seen messages are collected per peer, sent in one request
    per peer, and not sent again until the peer is opened anew. */
module ViewsBatcher {
  import opened OrderedKeys
  import opened Options

  type Peer = nat    // QMap keys are pointers: walked in ascending order
  type Id = int
  type Req = nat

  /** A request for the views of messages, which are to be counted as seen. */
  datatype Request = Request(peer: Peer, ids: seq<Id>)

  datatype State = State(
    incremented: map<Peer, set<Id>>,
    toIncrement: map<Peer, set<Id>>,
    requests: map<Peer, Req>,
    timer: bool,
    nextReq: Req,
    inFlight: map<Req, Request>,     // sent and not answered
    mismatched: set<Req>,            // answered with a list of another length
    sends: multiset<(Peer, Id)>,
    resets: multiset<Peer>,
    views: map<(Peer, Id), int>)     // what setViewsCount was called with last

  function IdsOf(m: map<Peer, set<Id>>, p: Peer): set<Id> {
    if p in m then m[p] else {}
  }

  function Tagged(p: Peer, ids: set<Id>): set<(Peer, Id)> {
    set id | id in ids :: (p, id)
  }

  /** The ids of a set in the order of a QMap. */
  function Listed(ids: set<Id>): seq<Id>
    decreases |ids|
  {
    if ids == {} then [] else [Min(ids)] + Listed(ids - {Min(ids)})
  }

  lemma {:induction false} ListedIs(ids: set<Id>)
    ensures var list := Listed(ids);
            && |list| == |ids| && (forall id :: id in list <==> id in ids)
            && (forall i, j :: 0 <= i < j < |list| ==> list[i] < list[j])
    decreases |ids|
  {
    if ids != {} {
      var rest := Listed(ids - {Min(ids)});
      ListedIs(ids - {Min(ids)});
      forall j | 0 <= j < |rest| ensures Min(ids) < rest[j] { assert rest[j] in rest; }
    }
  }

  /** The counts of the answer go to the messages that are loaded. */
  function SetViews(views: map<(Peer, Id), int>, p: Peer, ids: seq<Id>, counts: seq<int>, loaded: set<(Peer, Id)>)
    : map<(Peer, Id), int>
    requires |counts| == |ids|
  {
    if ids == [] then views
    else
      var n := |ids| - 1;
      var before := SetViews(views, p, ids[..n], counts[..n], loaded);
      if (p, ids[n]) in loaded then before[(p, ids[n]) := counts[n]] else before
  }

  /** Every loaded message of the list gets its own count, and no other message changes. */
  lemma {:induction false} SetViewsIs(views: map<(Peer, Id), int>, p: Peer, ids: seq<Id>, counts: seq<int>,
                                      loaded: set<(Peer, Id)>)
    requires |counts| == |ids| && forall i, j :: 0 <= i < j < |ids| ==> ids[i] < ids[j]
    ensures var after := SetViews(views, p, ids, counts, loaded);
            && (forall j :: 0 <= j < |ids| && (p, ids[j]) in loaded ==>
                  (p, ids[j]) in after && after[(p, ids[j])] == counts[j])
            && (forall q, id :: q != p || id !in ids || (q, id) !in loaded ==>
                  ((q, id) in after <==> (q, id) in views) && ((q, id) in views ==> after[(q, id)] == views[(q, id)]))
  {
    if ids != [] {
      var n := |ids| - 1;
      SetViewsIs(views, p, ids[..n], counts[..n], loaded);
      assert forall id :: id in ids <==> id in ids[..n] || id == ids[n];
      assert forall j :: 0 <= j < n ==> ids[..n][j] == ids[j] && counts[..n][j] == counts[j];
    }
  }

  // ---------------------------------------------------------------- transition functions

  function Schedule(s: State, p: Peer, id: Id): State {
    if id in IdsOf(s.incremented, p) then s
    else
      s.(incremented := s.incremented[p := IdsOf(s.incremented, p) + {id}],
         toIncrement := s.toIncrement[p := IdsOf(s.toIncrement, p) + {id}],
         timer := s.timer || p !in s.toIncrement)
  }

  function SendOne(s: State, p: Peer): State {
    if p in s.requests || p !in s.toIncrement then s
    else
      s.(requests := s.requests[p := s.nextReq],
         inFlight := s.inFlight[s.nextReq := Request(p, Listed(s.toIncrement[p]))],
         nextReq := s.nextReq + 1,
         sends := s.sends + multiset(Tagged(p, s.toIncrement[p])),
         toIncrement := s.toIncrement - {p})
  }

  function SendAll(s: State, rest: set<Peer>): State
    decreases |rest|
  {
    if rest == {} then s else SendAll(SendOne(s, Min(rest)), rest - {Min(rest)})
  }

  function TimerFired(s: State): State {
    if s.timer then SendAll(s.(timer := false), s.toIncrement.Keys) else s
  }

  function Rearmed(s: State): State {
    s.(timer := s.timer || s.toIncrement != map[])
  }

  function Without(requests: map<Peer, Req>, r: Req): map<Peer, Req> {
    requests - set p | p in requests && requests[p] == r
  }

  /** Only an answer of the same length is taken and ends the request. */
  function Done(s: State, r: Req, counts: seq<int>, loaded: set<(Peer, Id)>): State {
    if r !in s.inFlight then s
    else
      var s1, request := s.(inFlight := s.inFlight - {r}), s.inFlight[r];
      if |counts| != |request.ids| then Rearmed(s1.(mismatched := s.mismatched + {r}))
      else Rearmed(s1.(requests := Without(s.requests, r),
                       views := SetViews(s.views, request.peer, request.ids, counts, loaded)))
  }

  /** An error that is handled by default is sent again by the transport: nothing happens here. */
  function Failed(s: State, r: Req, defaultHandled: bool): State {
    if r !in s.inFlight || defaultHandled then s
    else Rearmed(s.(inFlight := s.inFlight - {r}, requests := Without(s.requests, r)))
  }

  /** The peer becomes the active chat: its messages may be counted once more. */
  function Reset(s: State, p: Peer): State {
    s.(incremented := s.incremented - {p}, resets := s.resets + multiset{p})
  }

  // ---------------------------------------------------------------- the widget

  class MainWidget {
    var viewsIncremented: map<Peer, set<Id>>
    var viewsToIncrement: map<Peer, set<Id>>
    var viewsIncrementRequests: map<Peer, Req>
    var viewsIncrementTimer: bool
    var nextReq: Req
    var views: map<(Peer, Id), int>           // a field of each message
    ghost var inFlight: map<Req, Request>
    ghost var mismatched: set<Req>
    ghost var sends: multiset<(Peer, Id)>
    ghost var resets: multiset<Peer>

    ghost function Model(): State
      reads this
    {
      State(viewsIncremented, viewsToIncrement, viewsIncrementRequests, viewsIncrementTimer,
            nextReq, inFlight, mismatched, sends, resets, views)
    }

    method ScheduleViewIncrement(p: Peer, id: Id)
      modifies this
      ensures Model() == Schedule(old(Model()), p, id)
    {
      if p in viewsIncremented {
        if id in viewsIncremented[p] {
          return;
        }
      } else {
        viewsIncremented := viewsIncremented[p := {}];
      }
      viewsIncremented := viewsIncremented[p := viewsIncremented[p] + {id}];
      assert viewsIncremented == old(viewsIncremented)[p := IdsOf(old(viewsIncremented), p) + {id}];
      if p !in viewsToIncrement {
        viewsToIncrement := viewsToIncrement[p := {}];
        viewsIncrementTimer := true;
      }
      viewsToIncrement := viewsToIncrement[p := viewsToIncrement[p] + {id}];
      assert viewsToIncrement == old(viewsToIncrement)[p := IdsOf(old(viewsToIncrement), p) + {id}];
    }

    /** One turn of the loop: a peer with a request under way is skipped, its ids stay. */
    method SendFor(p: Peer)
      requires p in viewsToIncrement
      modifies this
      ensures Model() == SendOne(old(Model()), p)
    {
      hide Listed, Tagged;
      if p in viewsIncrementRequests {
        return;
      }
      var ids := List(viewsToIncrement[p]);
      sends := sends + multiset(Tagged(p, viewsToIncrement[p]));
      viewsIncrementRequests := viewsIncrementRequests[p := nextReq];
      inFlight := inFlight[nextReq := Request(p, ids)];
      nextReq := nextReq + 1;
      viewsToIncrement := viewsToIncrement - {p};
    }

    method ViewsIncrement()
      modifies this
      ensures Model() == SendAll(old(Model()), old(viewsToIncrement.Keys))
    {
      ghost var goal := SendAll(Model(), viewsToIncrement.Keys);
      var rest := viewsToIncrement.Keys;
      while rest != {}
        invariant rest <= Model().toIncrement.Keys
        invariant SendAll(Model(), rest) == goal
        decreases |rest|
      {
        var p := Min(rest);
        SendFor(p);
        rest := rest - {p};
      }
    }

    method List(ids: set<Id>) returns (list: seq<Id>)
      ensures list == Listed(ids)
    {
      list := [];
      var rest := ids;
      while rest != {}
        invariant Listed(ids) == list + Listed(rest)
        decreases |rest|
      {
        list := list + [Min(rest)];
        rest := rest - {Min(rest)};
      }
    }

    /** `ids` is bound to the request when it is sent; `loaded` are the messages that App::histItemById
        finds. */
    method ViewsIncrementDone(ids: seq<Id>, counts: seq<int>, r: Req, loaded: set<(Peer, Id)>)
      requires RequestsOk(Model()) && r in inFlight && ids == inFlight[r].ids
      modifies this
      ensures Model() == Done(old(Model()), r, counts, loaded)
    {
      ghost var request := inFlight[r];
      inFlight := inFlight - {r};
      if |ids| == |counts| {
        var entry := EntryOf(r);
        if entry.Some? {
          var peer := entry.value;
          SetCounts(peer, ids, counts, loaded);
          WithoutErases(viewsIncrementRequests, peer);
          viewsIncrementRequests := viewsIncrementRequests - {peer};
        }
      } else {
        mismatched := mismatched + {r};
      }
      if viewsToIncrement != map[] && !viewsIncrementTimer {
        viewsIncrementTimer := true;
      }
    }

    method SetCounts(peer: Peer, ids: seq<Id>, counts: seq<int>, loaded: set<(Peer, Id)>)
      requires |ids| == |counts|
      modifies this`views
      ensures views == SetViews(old(views), peer, ids, counts, loaded)
    {
      for j := 0 to |ids|
        invariant views == SetViews(old(views), peer, ids[..j], counts[..j], loaded)
      {
        assert ids[..j + 1][..j] == ids[..j] && counts[..j + 1][..j] == counts[..j];
        if (peer, ids[j]) in loaded {
          views := views[(peer, ids[j]) := counts[j]];
        }
      }
      assert ids[..|ids|] == ids && counts[..|ids|] == counts;
    }

    method ViewsIncrementFail(r: Req, defaultHandled: bool)
      requires RequestsOk(Model()) && r in inFlight
      modifies this
      ensures Model() == Failed(old(Model()), r, defaultHandled)
    {
      if defaultHandled {
        return;
      }
      inFlight := inFlight - {r};
      var entry := EntryOf(r);
      if entry.Some? {
        WithoutErases(viewsIncrementRequests, entry.value);
        viewsIncrementRequests := viewsIncrementRequests - {entry.value};
      }
      if viewsToIncrement != map[] && !viewsIncrementTimer {
        viewsIncrementTimer := true;
      }
    }

    /** The search for the entry whose value is the request: the program stops at the first. */
    method EntryOf(r: Req) returns (entry: Option<Peer>)
      ensures match entry
              case Some(p) => p in viewsIncrementRequests && viewsIncrementRequests[p] == r
              case None => forall p :: p in viewsIncrementRequests ==> viewsIncrementRequests[p] != r
    {
      var rest: set<nat> := viewsIncrementRequests.Keys;
      while rest != {}
        invariant rest <= viewsIncrementRequests.Keys
        invariant forall q :: q in viewsIncrementRequests && q !in rest ==> viewsIncrementRequests[q] != r
        decreases |rest|
      {
        var p: Peer := Min(rest);
        if viewsIncrementRequests[p] == r {
          return Some(p);
        }
        rest := rest - {p};
      }
      return None;
    }
  }

  // ---------------------------------------------------------------- invariants

  ghost predicate Distinct(requests: map<Peer, Req>) {
    forall p, q :: p in requests && q in requests && requests[p] == requests[q] ==> p == q
  }

  lemma WithoutErases(requests: map<Peer, Req>, p: Peer)
    requires Distinct(requests) && p in requests
    ensures Without(requests, requests[p]) == requests - {p}
  {
    assert (set q | q in requests && requests[q] == requests[p]) == {p};
  }

  /** The request table and the network: every entry is either under way or was answered with a
      list of another length, and every request under way has the entry of its peer. */
  ghost predicate RequestsOk(s: State) {
    Linked(s.requests, s.inFlight, s.mismatched, s.nextReq)
  }

  ghost predicate Linked(requests: map<Peer, Req>, inFlight: map<Req, Request>, mismatched: set<Req>, next: Req) {
    && Distinct(requests)
    && (forall p :: p in requests ==> requests[p] < next)
    && (forall r :: r in inFlight ==> inFlight[r].peer in requests && requests[inFlight[r].peer] == r)
    && (forall p :: p in requests ==> requests[p] in inFlight || requests[p] in mismatched)
    && (forall r :: r in mismatched ==> r !in inFlight && r < next)
  }

  lemma LinkedMore(requests: map<Peer, Req>, inFlight: map<Req, Request>, mismatched: set<Req>, next: Req,
                   request: Request)
    requires Linked(requests, inFlight, mismatched, next) && request.peer !in requests
    ensures Linked(requests[request.peer := next], inFlight[next := request], mismatched, next + 1)
  {
  }

  /** An id that waits has its peer's timer running, or an entry in the request table. */
  ghost predicate Covered(s: State) {
    forall p :: p in s.toIncrement ==> s.timer || p in s.requests
  }

  function One(b: bool): nat {
    if b then 1 else 0
  }

  ghost predicate CountOk(s: State, p: Peer, id: Id) {
    s.sends[(p, id)] + One(id in IdsOf(s.toIncrement, p)) <= s.resets[p] + One(id in IdsOf(s.incremented, p))
  }

  ghost predicate CountsOk(s: State) {
    forall p, id :: CountOk(s, p, id)
  }

  lemma {:induction false} SendAllKeeps(s: State, rest: set<Peer>)
    requires RequestsOk(s) && CountsOk(s)
    ensures
      var t := SendAll(s, rest);
      && RequestsOk(t) && CountsOk(t) && t.mismatched == s.mismatched && t.timer == s.timer
      && t.toIncrement.Keys <= s.toIncrement.Keys && s.requests.Keys <= t.requests.Keys
      && forall p :: p in rest && p in t.toIncrement ==> p in t.requests
    decreases |rest|
  {
    if rest != {} {
      hide SendOne, RequestsOk;
      var p := Min(rest);
      SendOneCounts(s, p);
      SendOneKeeps(s, p);
      SendAllKeeps(SendOne(s, p), rest - {p});
    }
  }

  lemma SendOneKeeps(s: State, p: Peer)
    requires RequestsOk(s)
    ensures var t := SendOne(s, p);
            && RequestsOk(t) && t.mismatched == s.mismatched && t.timer == s.timer
            && t.toIncrement.Keys <= s.toIncrement.Keys && s.requests.Keys <= t.requests.Keys
            && (p in t.toIncrement ==> p in t.requests)
  {
    hide Listed, Tagged, Linked;
    if p in s.toIncrement && p !in s.requests {
      LinkedMore(s.requests, s.inFlight, s.mismatched, s.nextReq, Request(p, Listed(s.toIncrement[p])));
    }
  }

  lemma SendOneCounts(s: State, p: Peer)
    requires CountsOk(s)
    ensures CountsOk(SendOne(s, p))
  {
    if p !in s.requests && p in s.toIncrement {
      var t := SendOne(s, p);
      forall q, id ensures CountOk(t, q, id) {
        assert CountOk(s, q, id);
        assert multiset(Tagged(p, s.toIncrement[p]))[(q, id)] == One(q == p && id in s.toIncrement[p]);
      }
    }
  }

  // ---------------------------------------------------------------- runs

  datatype Event =
    | Scheduled(peer: Peer, id: Id)
    | TimerFires
    | Answered(req: Req, counts: seq<int>, loaded: set<(Peer, Id)>)
    | Refused(req: Req, defaultHandled: bool)
    | Opened(peer: Peer)

  function Step(s: State, e: Event): State {
    match e
    case Scheduled(p, id) => Schedule(s, p, id)
    case TimerFires => TimerFired(s)
    case Answered(r, counts, loaded) => Done(s, r, counts, loaded)
    case Refused(r, defaultHandled) => Failed(s, r, defaultHandled)
    case Opened(p) => Reset(s, p)
  }

  function Run(s: State, events: seq<Event>): State {
    if events == [] then s else Step(Run(s, events[..|events| - 1]), events[|events| - 1])
  }

  lemma RunGoesOn(s: State, events: seq<Event>, last: Event)
    ensures Run(s, events + [last]) == Step(Run(s, events), last) && Run(s, []) == s
  {
    assert (events + [last])[..|events|] == events;
  }

  function Empty(): State {
    State(map[], map[], map[], false, 1, map[], {}, multiset{}, multiset{}, map[])
  }

  ghost predicate Inv(s: State) {
    RequestsOk(s) && Covered(s) && CountsOk(s)
  }

  lemma ScheduleKeeps(s: State, p: Peer, id: Id)
    requires Inv(s)
    ensures Inv(Schedule(s, p, id))
  {
    var t := Schedule(s, p, id);
    forall q, j ensures CountOk(t, q, j) { assert CountOk(s, q, j); }
  }

  lemma TimerKeeps(s: State)
    requires Inv(s)
    ensures Inv(TimerFired(s))
  {
    if s.timer {
      var s1 := s.(timer := false);
      forall q, j ensures CountOk(s1, q, j) { assert CountOk(s, q, j); }
      SendAllKeeps(s1, s.toIncrement.Keys);
    }
  }

  lemma DoneKeeps(s: State, r: Req, counts: seq<int>, loaded: set<(Peer, Id)>)
    requires Inv(s)
    ensures Inv(Done(s, r, counts, loaded))
  {
    hide SetViews;
    if r in s.inFlight {
      var request := s.inFlight[r];
      if |counts| == |request.ids| {
        ErasedKeeps(s, r, SetViews(s.views, request.peer, request.ids, counts, loaded));
      } else {
        MismatchedKeeps(s, r);
      }
    }
  }

  lemma MismatchedKeeps(s: State, r: Req)
    requires Inv(s) && r in s.inFlight
    ensures Inv(Rearmed(s.(inFlight := s.inFlight - {r}, mismatched := s.mismatched + {r})))
  {
    var t := Rearmed(s.(inFlight := s.inFlight - {r}, mismatched := s.mismatched + {r}));
    forall q, j ensures CountOk(t, q, j) { assert CountOk(s, q, j); }
  }

  lemma ErasedKeeps(s: State, r: Req, views: map<(Peer, Id), int>)
    requires Inv(s) && r in s.inFlight
    ensures Inv(Rearmed(s.(inFlight := s.inFlight - {r}, requests := Without(s.requests, r), views := views)))
  {
    var t := Rearmed(s.(inFlight := s.inFlight - {r}, requests := Without(s.requests, r), views := views));
    forall q, j ensures CountOk(t, q, j) { assert CountOk(s, q, j); }
  }

  lemma FailedKeeps(s: State, r: Req, defaultHandled: bool)
    requires Inv(s)
    ensures Inv(Failed(s, r, defaultHandled))
  {
    if r in s.inFlight && !defaultHandled { ErasedKeeps(s, r, s.views); }
  }

  lemma ResetKeeps(s: State, p: Peer)
    requires Inv(s)
    ensures Inv(Reset(s, p))
  {
    var t := Reset(s, p);
    forall q, j ensures CountOk(t, q, j) { assert CountOk(s, q, j); }
  }

  lemma {:induction false} EveryRunKeeps(s: State, events: seq<Event>)
    requires Inv(s)
    ensures Inv(Run(s, events))
  {
    if events != [] {
      var before := events[..|events| - 1];
      EveryRunKeeps(s, before);
      var t := Run(s, before);
      match events[|events| - 1]
      case Scheduled(p, id) => ScheduleKeeps(t, p, id);
      case TimerFires => TimerKeeps(t);
      case Answered(r, counts, loaded) => DoneKeeps(t, r, counts, loaded);
      case Refused(r, defaultHandled) => FailedKeeps(t, r, defaultHandled);
      case Opened(p) => ResetKeeps(t, p);
    }
  }

  /** In every run each message id of a peer is sent at most once more than the peer was opened,
      and two requests that are under way belong to different peers. */
  lemma SendsAreBounded(events: seq<Event>, p: Peer, id: Id)
    ensures
      var s := Run(Empty(), events);
      && s.sends[(p, id)] <= s.resets[p] + 1
      && forall r, q :: r in s.inFlight && q in s.inFlight && s.inFlight[r].peer == s.inFlight[q].peer ==> r == q
  {
    EveryRunKeeps(Empty(), events);
    assert CountOk(Run(Empty(), events), p, id);
  }

  /** Waiting ids of a peer are covered, by the running timer or by a request under way, if and only
      if the timer runs or the last request of that peer was not answered with a list of another length. */
  lemma WaitingIsCoveredUnlessMismatched(events: seq<Event>, p: Peer)
    ensures
      var s := Run(Empty(), events);
      p in s.toIncrement ==>
        (s.timer || (p in s.requests && s.requests[p] in s.inFlight)
         <==> s.timer || !(p in s.requests && s.requests[p] in s.mismatched))
  {
    EveryRunKeeps(Empty(), events);
  }

  ghost predicate Stale(s: State, p: Peer) {
    RequestsOk(s) && p in s.requests && s.requests[p] !in s.inFlight
  }

  /** After an answer of another length nothing is ever sent for that peer again. */
  lemma {:induction false} StalePeerIsNeverSent(s: State, p: Peer, events: seq<Event>)
    requires Inv(s) && Stale(s, p)
    ensures
      var t := Run(s, events);
      Stale(t, p) && forall id :: t.sends[(p, id)] == s.sends[(p, id)]
  {
    if events != [] {
      var before := events[..|events| - 1];
      StalePeerIsNeverSent(s, p, before);
      var t := Run(s, before);
      EveryRunKeeps(s, before);
      EveryRunKeeps(s, events);
      StaleStep(t, p, events[|events| - 1]);
    }
  }

  lemma StaleStep(s: State, p: Peer, e: Event)
    requires Inv(s) && Stale(s, p)
    ensures StaysStale(s, Step(s, e), p)
  {
    hide SetViews, TimerFired, Done, Failed;
    match e
    case TimerFires => StaleAtTimer(s, p);
    case Answered(r, counts, loaded) => StaleAtDone(s, p, r, counts, loaded);
    case Refused(r, defaultHandled) => StaleAtFail(s, p, r, defaultHandled);
    case _ =>
  }

  lemma StaleAtTimer(s: State, p: Peer)
    requires Stale(s, p)
    ensures StaysStale(s, TimerFired(s), p)
  {
    hide SendAll;
    if s.timer { StaleIsSkipped(s.(timer := false), p, s.toIncrement.Keys); }
  }

  lemma StaleAtDone(s: State, p: Peer, r: Req, counts: seq<int>, loaded: set<(Peer, Id)>)
    requires Stale(s, p)
    ensures StaysStale(s, Done(s, r, counts, loaded), p)
  {
    hide SetViews;
  }

  lemma StaleAtFail(s: State, p: Peer, r: Req, defaultHandled: bool)
    requires Stale(s, p)
    ensures StaysStale(s, Failed(s, r, defaultHandled), p)
  {
  }

  ghost predicate StaysStale(s: State, t: State, p: Peer) {
    p in t.requests && t.requests[p] !in t.inFlight && forall id :: t.sends[(p, id)] == s.sends[(p, id)]
  }

  lemma {:induction false} StaleIsSkipped(s: State, p: Peer, rest: set<Peer>)
    requires Stale(s, p)
    ensures
      var t := SendAll(s, rest);
      Stale(t, p) && forall id :: t.sends[(p, id)] == s.sends[(p, id)]
    decreases |rest|
  {
    if rest != {} {
      var q := Min(rest);
      assert forall id :: SendOne(s, q).sends[(p, id)] == s.sends[(p, id)];
      StaleIsSkipped(SendOne(s, q), p, rest - {q});
    }
  }

  /** Such a peer: one message seen, one request, an answer of another length, one more message:
      the timer fires and the second id stays, with no timer and no request under way. */
  lemma MismatchLosesViews(p: Peer)
    ensures
      var s1 := Step(Step(Empty(), Scheduled(p, 7)), TimerFires);
      var s2 := Step(Step(Step(s1, Answered(1, [], {})), Scheduled(p, 8)), TimerFires);
      8 in IdsOf(s2.toIncrement, p) && !s2.timer && 1 in s1.inFlight
      && p in s2.requests && s2.requests[p] !in s2.inFlight
  {
    hide SendAll, Schedule, Done, Empty;
    FirstIsSent(p, 7);
    var s1 := Step(Step(Empty(), Scheduled(p, 7)), TimerFires);
    var b := Schedule(Done(s1, 1, [], {}), p, 8);
    MismatchedIsStale(s1, p, 7, 8);
    StaleIsSkipped(b.(timer := false), p, b.toIncrement.Keys);
    StaleKeepsIds(b.(timer := false), p, b.toIncrement.Keys);
  }

  lemma MismatchedIsStale(s: State, p: Peer, id: Id, id': Id)
    requires RequestsOk(s) && !s.timer && s.requests == map[p := 1] && s.inFlight == map[1 := Request(p, [id])]
    requires s.incremented == map[p := {id}] && s.toIncrement == map[] && id != id'
    ensures var b := Schedule(Done(s, 1, [], {}), p, id');
            b.timer && Stale(b.(timer := false), p) && p in b.toIncrement && id' in b.toIncrement[p]
  {
  }

  lemma FirstIsSent(p: Peer, id: Id)
    ensures
      var s := Step(Step(Empty(), Scheduled(p, id)), TimerFires);
      RequestsOk(s) && !s.timer && s.requests == map[p := 1] && s.inFlight == map[1 := Request(p, [id])]
      && s.incremented == map[p := {id}] && s.toIncrement == map[]
  {
    var a := Schedule(Empty(), p, id);
    assert a.toIncrement[p] == {id} && a.incremented[p] == {id};
    assert a.toIncrement.Keys == {p};
    assert Min({p}) == p && {p} - {p} == {};
    assert Min({id}) == id && {id} - {id} == {};
    assert Listed({}) == [] && Listed({id}) == [id] + Listed({id} - {id});
    assert Listed({id}) == [id];
    assert SendAll(a.(timer := false), {p}) == SendOne(a.(timer := false), p);
  }

  lemma {:induction false} StaleKeepsIds(s: State, p: Peer, rest: set<Peer>)
    requires p in s.requests && p in s.toIncrement
    ensures
      var t := SendAll(s, rest);
      p in t.toIncrement && t.toIncrement[p] == s.toIncrement[p] && t.timer == s.timer
    decreases |rest|
  {
    if rest != {} { StaleKeepsIds(SendOne(s, Min(rest)), p, rest - {Min(rest)}); }
  }

  // ---------------------------------------------------------------- every id is sent

  predicate Waits(s: State, p: Peer, id: Id) {
    id in IdsOf(s.toIncrement, p)
  }

  predicate Counted(s: State, p: Peer, id: Id) {
    id in IdsOf(s.incremented, p)
  }

  /** What a pass of the timer does for one peer: if the peer waits and has no request, one request is
      sent that lists all its waiting ids in their order. */
  ghost predicate PassedFor(s: State, t: State, p: Peer, sends: bool) {
    && t.incremented == s.incremented && s.nextReq <= t.nextReq && SendsGrow(s, t, p, sends)
    && (if sends then Requested(s, t, p) else LeftAlone(s, t, p))
  }

  ghost predicate SendsGrow(s: State, t: State, p: Peer, sends: bool) {
    forall id :: t.sends[(p, id)] == s.sends[(p, id)] + One(sends && Waits(s, p, id))
  }

  ghost predicate Requested(s: State, t: State, p: Peer) {
    && p !in t.toIncrement && p in t.requests && s.nextReq <= t.requests[p] < t.nextReq
    && t.requests[p] in t.inFlight && t.inFlight[t.requests[p]].peer == p
    && ListsAll(t.inFlight[t.requests[p]].ids, IdsOf(s.toIncrement, p))
  }

  ghost predicate LeftAlone(s: State, t: State, p: Peer) {
    && IdsOf(t.toIncrement, p) == IdsOf(s.toIncrement, p) && (p in t.toIncrement <==> p in s.toIncrement)
    && (p in t.requests <==> p in s.requests) && (p in s.requests ==> t.requests[p] == s.requests[p])
  }

  ghost predicate ListsAll(list: seq<Id>, ids: set<Id>) {
    && (forall id :: id in list <==> id in ids)
    && (forall i, j :: 0 <= i < j < |list| ==> list[i] < list[j])
  }

  ghost predicate StillUnderWayIfNew(s: State, t: State) {
    (forall r :: r in s.inFlight ==> r < s.nextReq) ==>
      StillUnderWay(s, t) && forall r :: r in t.inFlight ==> r < t.nextReq
  }

  lemma SendOneIs(s: State, q: Peer, p: Peer)
    ensures var u := SendOne(s, q);
            && PassedFor(s, u, p, p == q && p in s.toIncrement && p !in s.requests)
            && (p != q ==> (p in u.toIncrement <==> p in s.toIncrement) && (p in u.requests <==> p in s.requests))
            && StillUnderWayIfNew(s, u)
  {
    hide Listed, ListsAll, SendsGrow, Tagged;
    SendOneGrows(s, q, p);
    if q in s.toIncrement { ListedAll(s.toIncrement[q]); }
  }

  lemma ListedAll(ids: set<Id>)
    ensures ListsAll(Listed(ids), ids)
  {
    ListedIs(ids);
  }

  lemma SendOneGrows(s: State, q: Peer, p: Peer)
    ensures SendsGrow(s, SendOne(s, q), p, p == q && p in s.toIncrement && p !in s.requests)
  {
    hide Listed;
    if q in s.toIncrement && q !in s.requests {
      forall id ensures multiset(Tagged(q, s.toIncrement[q]))[(p, id)] == One(p == q && id in s.toIncrement[q]) {
      }
    }
  }

  ghost predicate StillUnderWay(s: State, t: State) {
    forall r :: r in s.inFlight ==> r in t.inFlight && t.inFlight[r] == s.inFlight[r]
  }

  lemma PassedTwice(s: State, u: State, t: State, p: Peer, first: bool, second: bool)
    requires PassedFor(s, u, p, first) && PassedFor(u, t, p, second) && !(first && second) && StillUnderWay(u, t)
    ensures PassedFor(s, t, p, first || second)
  {
  }

  lemma {:induction false} SendAllIs(s: State, rest: set<Peer>, p: Peer)
    requires forall r :: r in s.inFlight ==> r < s.nextReq
    ensures PassedFor(s, SendAll(s, rest), p, p in rest && p in s.toIncrement && p !in s.requests)
    ensures StillUnderWay(s, SendAll(s, rest))
    decreases |rest|
  {
    if rest != {} {
      hide PassedFor, SendOne, LeftAlone, StillUnderWay;
      var q := Min(rest);
      var u := SendOne(s, q);
      SendOneIs(s, q, p);
      SendAllIs(u, rest - {q}, p);
      PassedTwice(s, u, SendAll(s, rest), p, p == q && p in s.toIncrement && p !in s.requests,
                  p in rest - {q} && p in u.toIncrement && p !in u.requests);
      UnderWayTwice(s, u, SendAll(s, rest));
    } else {
      NotPassed(s, p);
    }
  }

  lemma UnderWayTwice(s: State, u: State, t: State)
    requires StillUnderWay(s, u) && StillUnderWay(u, t)
    ensures StillUnderWay(s, t)
  {
  }

  lemma NotPassed(s: State, p: Peer)
    ensures PassedFor(s, s, p, false)
  {
  }

  lemma TimerForPeer(s: State, p: Peer)
    requires RequestsOk(s) && s.timer
    ensures PassedFor(s, TimerFired(s), p, p in s.toIncrement && p !in s.requests)
  {
    hide SendAll, SendsGrow, Requested, LeftAlone;
    var s1 := s.(timer := false);
    SendAllIs(s1, s.toIncrement.Keys, p);
    SameWithoutTimer(s, s1, SendAll(s1, s.toIncrement.Keys), p);
  }

  lemma SameWithoutTimer(s: State, s1: State, t: State, p: Peer)
    requires s1 == s.(timer := false)
    ensures forall sends :: PassedFor(s1, t, p, sends) ==> PassedFor(s, t, p, sends)
  {
  }

  /** One event, seen from one id: it waits when it is counted, it waits until a pass of the timer finds
      its peer without a request, and then it is sent, once and in a request that lists all that wait. */
  lemma StepForId(s: State, e: Event, p: Peer, id: Id)
    requires RequestsOk(s)
    ensures var t := Step(s, e);
            var counts := e == Scheduled(p, id) && !Counted(s, p, id);
            var sends := e.TimerFires? && s.timer && p in s.toIncrement && p !in s.requests;
            && t.sends[(p, id)] == s.sends[(p, id)] + One(sends && Waits(s, p, id))
            && (Waits(t, p, id) <==> counts || (Waits(s, p, id) && !sends))
            && (Counted(t, p, id) <==> counts || (Counted(s, p, id) && e != Opened(p)))
            && (sends ==> PassedFor(s, t, p, true))
  {
    hide SetViews, TimerFired, Done, Failed, RequestsOk, ListsAll;
    match e
    case TimerFires =>
      if s.timer {
        TimerForPeer(s, p);
      } else {
        TimerIdle(s);
      }
    case Answered(r, counts, loaded) => AnswersLeaveIds(s, r, counts, loaded, false);
    case Refused(r, defaultHandled) => AnswersLeaveIds(s, r, [], {}, defaultHandled);
    case _ =>
  }

  lemma TimerIdle(s: State)
    ensures !s.timer ==> TimerFired(s) == s
  {
  }

  ghost predicate SameIds(s: State, t: State) {
    t.sends == s.sends && t.toIncrement == s.toIncrement && t.incremented == s.incremented
  }

  lemma AnswersLeaveIds(s: State, r: Req, counts: seq<int>, loaded: set<(Peer, Id)>, defaultHandled: bool)
    ensures SameIds(s, Done(s, r, counts, loaded)) && SameIds(s, Failed(s, r, defaultHandled))
  {
    hide SetViews, Without;
  }

  /** In every run an id that was counted waits or was sent. */
  lemma {:induction false} CountedIsSent(events: seq<Event>, p: Peer, id: Id)
    ensures var s := Run(Empty(), events);
            Counted(s, p, id) ==> Waits(s, p, id) || s.sends[(p, id)] > 0
  {
    if events != [] {
      var before := events[..|events| - 1];
      CountedIsSent(before, p, id);
      EveryRunKeeps(Empty(), before);
      StepForId(Run(Empty(), before), events[|events| - 1], p, id);
    }
  }

  /** How often an id was accepted while it did not wait. */
  function Accepted(s: State, events: seq<Event>, p: Peer, id: Id): nat {
    if events == [] then 0
    else
      var before, e := events[..|events| - 1], events[|events| - 1];
      var u := Run(s, before);
      Accepted(s, before, p, id) + One(e == Scheduled(p, id) && !Counted(u, p, id) && !Waits(u, p, id))
  }

  /** The account of an id in every run: it is sent exactly as often as it was accepted, but for the
      last time if it still waits. */
  lemma {:induction false} SendsAreAccepted(events: seq<Event>, p: Peer, id: Id)
    ensures var s := Run(Empty(), events);
            s.sends[(p, id)] + One(Waits(s, p, id)) == Accepted(Empty(), events, p, id)
  {
    if events != [] {
      var before := events[..|events| - 1];
      SendsAreAccepted(before, p, id);
      EveryRunKeeps(Empty(), before);
      StepForId(Run(Empty(), before), events[|events| - 1], p, id);
    }
  }

  /** An answer of the same length gives each loaded message of its request its own count and leaves
      the others, and the peer may be asked again; any other answer changes no count and no entry. */
  lemma AnswerSetsViews(s: State, r: Req, counts: seq<int>, loaded: set<(Peer, Id)>)
    requires RequestsOk(s) && AllRise(s) && r in s.inFlight
    ensures var t, p, ids := Step(s, Answered(r, counts, loaded)), s.inFlight[r].peer, s.inFlight[r].ids;
            && r !in t.inFlight && t.timer == (s.timer || s.toIncrement != map[])
            && (if |counts| == |ids| then
                  && p !in t.requests && (forall q :: q != p && q in s.requests ==> q in t.requests)
                  && (forall j :: 0 <= j < |ids| && (p, ids[j]) in loaded ==>
                        (p, ids[j]) in t.views && t.views[(p, ids[j])] == counts[j])
                  && (forall q, id :: (q, id) in s.views && (q != p || id !in ids || (q, id) !in loaded) ==>
                        (q, id) in t.views && t.views[(q, id)] == s.views[(q, id)])
                else t.requests == s.requests && t.views == s.views)
  {
    var request := s.inFlight[r];
    if |counts| == |request.ids| {
      SetViewsIs(s.views, request.peer, request.ids, counts, loaded);
    }
  }

  /** The lists of the requests under way have each id once. */
  ghost predicate AllRise(s: State) {
    forall r :: r in s.inFlight ==> Rises(s.inFlight[r].ids)
  }

  ghost predicate Rises(list: seq<Id>) {
    forall i, j :: 0 <= i < j < |list| ==> list[i] < list[j]
  }

  lemma {:induction false} SendAllRises(s: State, rest: set<Peer>)
    requires AllRise(s)
    ensures AllRise(SendAll(s, rest))
    decreases |rest|
  {
    if rest != {} {
      hide Listed, Rises;
      var q := Min(rest);
      if q in s.toIncrement { ListedRises(s.toIncrement[q]); }
      SendAllRises(SendOne(s, q), rest - {q});
    }
  }

  lemma ListedRises(ids: set<Id>)
    ensures Rises(Listed(ids))
  {
    ListedIs(ids);
  }

  lemma {:induction false} EveryListRises(events: seq<Event>)
    ensures AllRise(Run(Empty(), events))
  {
    hide Step, AllRise;
    if events == [] {
      NothingToRise();
    } else {
      EveryListRises(events[..|events| - 1]);
      StepRises(Run(Empty(), events[..|events| - 1]), events[|events| - 1]);
    }
  }

  lemma NothingToRise()
    ensures AllRise(Empty())
  {
  }

  lemma StepRises(s: State, e: Event)
    requires AllRise(s)
    ensures AllRise(Step(s, e))
  {
    hide Rises, SendAll, SetViews, Without;
    if e.TimerFires? && s.timer { SendAllRises(s.(timer := false), s.toIncrement.Keys); }
  }

  /** The timer runs from the first id that waits for a peer until it fires, and again after an answer or
      a refusal if something waits. */
  lemma TimerIs(s: State, e: Event)
    ensures var t := Step(s, e);
            match e
            case Scheduled(p, id) => t.timer == (s.timer || (!Counted(s, p, id) && p !in s.toIncrement))
            case TimerFires => !t.timer
            case Answered(r, _, _) => t.timer == (s.timer || (r in s.inFlight && s.toIncrement != map[]))
            case Refused(r, defaultHandled) =>
              t.timer == (s.timer || (r in s.inFlight && !defaultHandled && s.toIncrement != map[]))
            case Opened(_) => t.timer == s.timer
  {
    hide SetViews, Without, RequestsOk;
    if e.TimerFires? && s.timer { SendAllStops(s.(timer := false), s.toIncrement.Keys); }
  }

  lemma {:induction false} SendAllStops(s: State, rest: set<Peer>)
    ensures SendAll(s, rest).timer == s.timer
    decreases |rest|
  {
    if rest != {} { SendAllStops(SendOne(s, Min(rest)), rest - {Min(rest)}); }
  }

  /** A refusal ends the request, so that its peer is asked again, unless the transport takes care of it. */
  lemma RefusalEndsRequest(s: State, r: Req, defaultHandled: bool)
    requires RequestsOk(s) && r in s.inFlight
    ensures var t, p := Step(s, Refused(r, defaultHandled)), s.inFlight[r].peer;
            if defaultHandled then t == s
            else r !in t.inFlight && p !in t.requests && (forall q :: q != p && q in s.requests ==> q in t.requests)
                 && t.views == s.views
  {
  }
}
