/** The dialog entries that ApiWrap requests in batches, and the callbacks that wait for them. */
module DialogRequests {
  import opened OrderedKeys
  import opened Options
  import opened Subsequences

  type History = nat      // the address of a history, in whose order the tables are walked
  type Callback = nat
  type Table = map<History, seq<Callback>>

  /** The callbacks that were given to requestDialogEntry, those that have been called, and those
      that dialogEntryApplied has taken out of a table and is about to call. */
  datatype Books = Books(registered: multiset<(History, Callback)>, ran: multiset<(History, Callback)>,
                         hand: multiset<(History, Callback)>)

  /** `posts` counts the calls of sendDialogRequests that are still to come from the event loop,
      `batches` holds the requests without an answer, and `left` the histories that an answer has
      still to go through. */
  datatype State = State(pending: Table, inflight: Table, posts: nat, batches: map<nat, seq<History>>,
                         left: seq<History>, books: Books)

  // ---------------------------------------------------------------- what is kept

  function In(table: Table, h: History, c: Callback): nat {
    if h in table then multiset(table[h])[c] else 0
  }

  ghost predicate Accounted(s: State, h: History, c: Callback) {
    s.books.registered[(h, c)]
    == In(s.pending, h, c) + In(s.inflight, h, c) + s.books.hand[(h, c)] + s.books.ran[(h, c)]
  }

  ghost predicate InBatch(s: State, b: nat, h: History) {
    b in s.batches && h in s.batches[b]
  }

  ghost predicate Awaited(s: State, h: History) {
    h in s.left || exists b :: InBatch(s, b, h)
  }

  /** Each callback is in one of the tables or has been taken out of it once; whoever waits to be
      sent will be, and whoever waits for an answer will get one. */
  ghost predicate Inv(s: State) {
    && s.pending.Keys !! s.inflight.Keys
    && (forall h: History, c: Callback :: Accounted(s, h, c))
    && (s.pending != map[] ==> s.posts > 0)
    && (forall h :: h in s.inflight ==> Awaited(s, h))
  }

  ghost predicate GrownFor(s: State, t: State, h: History, c: Callback) {
    && s.books.registered[(h, c)] <= t.books.registered[(h, c)]
    && s.books.ran[(h, c)] <= t.books.ran[(h, c)]
    && In(t.pending, h, c) + s.books.registered[(h, c)] <= In(s.pending, h, c) + t.books.registered[(h, c)]
    && In(t.pending, h, c) + In(t.inflight, h, c) + s.books.registered[(h, c)]
       <= In(s.pending, h, c) + In(s.inflight, h, c) + t.books.registered[(h, c)]
  }

  /** What may happen between two moments within one call from the event loop. */
  ghost predicate Grown(s: State, t: State) {
    && t.inflight.Keys <= s.inflight.Keys && s.posts <= t.posts
    && t.batches == s.batches && t.left == s.left
    && forall h: History, c: Callback :: GrownFor(s, t, h, c)
  }

  lemma GrownTrans(s: State, t: State, u: State)
    requires Grown(s, t) && Grown(t, u)
    ensures Grown(s, u)
  {
    forall h: History, c: Callback ensures GrownFor(s, u, h, c) {
      assert GrownFor(s, t, h, c) && GrownFor(t, u, h, c);
    }
  }

  // ---------------------------------------------------------------- the steps

  function Added(table: Table, h: History, callback: Option<Callback>): Table {
    var was := if h in table then table[h] else [];
    table[h := if callback.Some? then was + [callback.value] else was]
  }

  /** The list of the history with the callback at its end. */
  function Longer(table: Table, h: History, callback: Option<Callback>): seq<Callback> {
    (if h in table then table[h] else []) + (if callback.Some? then [callback.value] else [])
  }

  function Registered(books: Books, h: History, callback: Option<Callback>): Books {
    if callback.Some? then books.(registered := books.registered + multiset{(h, callback.value)}) else books
  }

  function Requested(s: State, h: History, callback: Option<Callback>): State {
    var books := Registered(s.books, h, callback);
    if h in s.inflight then s.(inflight := Added(s.inflight, h, callback), books := books)
    else
      s.(pending := Added(s.pending, h, callback),
         posts := if s.pending == map[] then s.posts + 1 else s.posts,
         books := books)
  }

  lemma AddedCounts(table: Table, h: History, callback: Option<Callback>)
    ensures forall g: History, c: Callback :: In(Added(table, h, callback), g, c)
                        == In(table, g, c) + if g == h && callback == Some(c) then 1 else 0
    ensures Added(table, h, callback).Keys == table.Keys + {h}
  {
  }

  /** The callback goes to the end of the list of its history, which is the one in flight if there is
      one; a send is posted for the first history that becomes pending. */
  lemma RequestedIs(s: State, h: History, callback: Option<Callback>)
    ensures var t := Requested(s, h, callback);
            && t.batches == s.batches && t.left == s.left && t.books.ran == s.books.ran && t.books.hand == s.books.hand
            && (h in s.inflight ==>
                  && t.inflight == s.inflight[h := Longer(s.inflight, h, callback)]
                  && t.pending == s.pending && t.posts == s.posts)
            && (h !in s.inflight ==>
                  && t.inflight == s.inflight && t.pending == s.pending[h := Longer(s.pending, h, callback)]
                  && t.posts == s.posts + if s.pending == map[] then 1 else 0)
  {
    assert Longer(s.inflight, h, None) == if h in s.inflight then s.inflight[h] else [];
    assert Longer(s.pending, h, None) == if h in s.pending then s.pending[h] else [];
  }

  lemma RequestedFor(s: State, h: History, callback: Option<Callback>, g: History, c: Callback)
    requires Accounted(s, g, c)
    ensures Accounted(Requested(s, h, callback), g, c) && GrownFor(s, Requested(s, h, callback), g, c)
  {
    AddedCounts(s.inflight, h, callback);
    AddedCounts(s.pending, h, callback);
    assert Registered(s.books, h, callback).registered[(g, c)]
        == s.books.registered[(g, c)] + if g == h && callback == Some(c) then 1 else 0;
  }

  lemma RequestedKeeps(s: State, h: History, callback: Option<Callback>)
    requires Inv(s)
    ensures Inv(Requested(s, h, callback)) && Grown(s, Requested(s, h, callback))
  {
    var t := Requested(s, h, callback);
    forall g: History, c: Callback ensures Accounted(t, g, c) && GrownFor(s, t, g, c) {
      RequestedFor(s, h, callback, g, c);
    }
    assert t.inflight.Keys == s.inflight.Keys;
    SameAwaited(s, t);
  }

  lemma SameAwaited(s: State, t: State)
    requires t.inflight.Keys <= s.inflight.Keys && t.batches == s.batches && t.left == s.left
    requires forall h :: h in s.inflight ==> Awaited(s, h)
    ensures forall h :: h in t.inflight ==> Awaited(t, h)
  {
    forall h | h in t.inflight ensures Awaited(t, h) {
      if h !in s.left {
        var b :| InBatch(s, b, h);
        assert InBatch(t, b, h);
      }
    }
  }

  function Tagged(h: History, callbacks: seq<Callback>): multiset<(History, Callback)> {
    if callbacks == [] then multiset{} else multiset{(h, callbacks[0])} + Tagged(h, callbacks[1..])
  }

  lemma {:induction false} TaggedCounts(h: History, callbacks: seq<Callback>, g: History, c: Callback)
    ensures Tagged(h, callbacks)[(g, c)] == if g == h then multiset(callbacks)[c] else 0
  {
    if callbacks != [] {
      assert callbacks == [callbacks[0]] + callbacks[1..];
      TaggedCounts(h, callbacks[1..], g, c);
    }
  }

  function Took(s: State, h: History, callbacks: seq<Callback>): Books {
    s.books.(hand := s.books.hand + Tagged(h, callbacks))
  }

  function PendingTaken(s: State, h: History): State
    requires h in s.pending
  {
    s.(pending := s.pending - {h}, books := Took(s, h, s.pending[h]))
  }

  function InflightTaken(s: State, h: History): State
    requires h in s.inflight
  {
    s.(inflight := s.inflight - {h}, books := Took(s, h, s.inflight[h]))
  }

  lemma TakenKeeps(s: State, h: History)
    requires Inv(s)
    ensures h in s.pending ==> Inv(PendingTaken(s, h)) && Grown(s, PendingTaken(s, h))
    ensures h in s.inflight ==> Inv(InflightTaken(s, h)) && Grown(s, InflightTaken(s, h))
  {
    if h in s.pending {
      var t := PendingTaken(s, h);
      forall g: History, c: Callback ensures Accounted(t, g, c) && GrownFor(s, t, g, c) {
        assert Accounted(s, g, c);
        TaggedCounts(h, s.pending[h], g, c);
      }
      SameAwaited(s, t);
    }
    if h in s.inflight {
      var t := InflightTaken(s, h);
      forall g: History, c: Callback ensures Accounted(t, g, c) && GrownFor(s, t, g, c) {
        assert Accounted(s, g, c);
        TaggedCounts(h, s.inflight[h], g, c);
      }
      SameAwaited(s, t);
    }
  }

  /** A callback that was taken out is called. */
  function Called(s: State, h: History, c: Callback): State {
    s.(books := s.books.(hand := s.books.hand - multiset{(h, c)}, ran := s.books.ran + multiset{(h, c)}))
  }

  lemma CalledKeeps(s: State, h: History, c: Callback)
    requires Inv(s) && (h, c) in s.books.hand
    ensures Inv(Called(s, h, c)) && Grown(s, Called(s, h, c))
  {
    var t := Called(s, h, c);
    forall g: History, d: Callback ensures Accounted(t, g, d) && GrownFor(s, t, g, d) {
      assert Accounted(s, g, d);
    }
    SameAwaited(s, t);
  }

  /** One batch goes out with everything that is pending. */
  function Sent(s: State, b: nat, histories: seq<History>): State
    requires s.posts > 0
  {
    var t := s.(posts := s.posts - 1);
    if s.pending == map[] then t
    else t.(pending := map[], inflight := s.inflight + s.pending, batches := s.batches[b := histories])
  }

  /** A send empties what is pending into what is in flight and leaves one more batch, or nothing but
      one post less. */
  lemma SentIs(s: State, b: nat, histories: seq<History>)
    requires s.posts > 0 && s.pending.Keys !! s.inflight.Keys
    ensures var t := Sent(s, b, histories);
            && t.posts == s.posts - 1 && t.pending == map[] && t.books == s.books && t.left == s.left
            && t.inflight.Keys == s.inflight.Keys + s.pending.Keys
            && (forall h :: h in s.pending ==> t.inflight[h] == s.pending[h])
            && (forall h :: h in s.inflight ==> t.inflight[h] == s.inflight[h])
            && (if s.pending == map[] then t.batches == s.batches else t.batches == s.batches[b := histories])
  {
  }

  lemma SentKeeps(s: State, b: nat, histories: seq<History>)
    requires Inv(s) && s.posts > 0 && b !in s.batches && (forall h :: h in histories <==> h in s.pending)
    ensures Inv(Sent(s, b, histories))
  {
    var t := Sent(s, b, histories);
    forall h: History, c: Callback ensures Accounted(t, h, c) {
      assert Accounted(s, h, c);
    }
    forall h | h in t.inflight ensures Awaited(t, h) {
      if h in s.pending {
        assert s.pending != map[];
        assert InBatch(t, b, h);
      } else if h !in s.left {
        var a :| InBatch(s, a, h);
        assert InBatch(t, a, h);
      }
    }
  }

  /** A batch is answered, and its histories are to be gone through. */
  function Answered(s: State, b: nat): State
    requires b in s.batches
  {
    s.(batches := s.batches - {b}, left := s.batches[b])
  }

  lemma AnsweredKeeps(s: State, b: nat)
    requires Inv(s) && b in s.batches && s.left == []
    ensures Inv(Answered(s, b))
  {
    var t := Answered(s, b);
    forall h: History, c: Callback ensures Accounted(t, h, c) {
      assert Accounted(s, h, c);
    }
    forall h | h in t.inflight ensures Awaited(t, h) {
      var a :| InBatch(s, a, h);
      if a != b { assert InBatch(t, a, h); }
    }
  }

  function Passed(s: State): State
    requires s.left != []
  {
    s.(left := s.left[1..])
  }

  lemma PassedKeeps(s: State)
    requires Inv(s) && s.left != [] && s.left[0] !in s.inflight
    ensures Inv(Passed(s))
  {
    var t := Passed(s);
    forall h: History, c: Callback ensures Accounted(t, h, c) {
      assert Accounted(s, h, c);
    }
    forall h | h in t.inflight ensures Awaited(t, h) {
      if h in s.left {
        assert h in s.left[1..];
      } else {
        var b :| InBatch(s, b, h);
        assert InBatch(t, b, h);
      }
    }
  }

  /** Nothing of what was registered for the history up to the moment s waits at the moment t. */
  ghost predicate Served(s: State, t: State, h: History) {
    forall c :: In(t.pending, h, c) + In(t.inflight, h, c) + s.books.registered[(h, c)] <= t.books.registered[(h, c)]
  }

  /** Then every callback that waited for the history has been called since. */
  lemma ServedCalls(s: State, t: State, h: History)
    requires Inv(s) && Inv(t) && Served(s, t, h) && t.books.hand == s.books.hand
    ensures forall c :: t.books.ran[(h, c)] >= s.books.ran[(h, c)] + In(s.pending, h, c) + In(s.inflight, h, c)
  {
    forall c ensures t.books.ran[(h, c)] >= s.books.ran[(h, c)] + In(s.pending, h, c) + In(s.inflight, h, c) {
      assert Accounted(s, h, c) && Accounted(t, h, c);
    }
  }

  /** When nothing is posted, on its way or being gone through, every callback has been called
      exactly as often as it was registered. */
  lemma QuietMeansDone(s: State)
    requires Inv(s) && s.posts == 0 && s.batches == map[] && s.left == [] && s.books.hand == multiset{}
    ensures s.books.ran == s.books.registered && s.pending == map[] && s.inflight == map[]
  {
    assert s.inflight == map[] by {
      forall h ensures h !in s.inflight {
        assert !Awaited(s, h);
      }
    }
    forall p: (History, Callback) ensures s.books.ran[p] == s.books.registered[p] {
      assert Accounted(s, p.0, p.1);
    }
  }

  // ---------------------------------------------------------------- the wrapper

  /** What code that the wrapper calls does before it returns.  A call of dialogEntryApplied runs
      the history's own dialogEntryApplied and then callbacks, all of which may come back. */
  datatype Act = Request(h: History, callback: Option<Callback>) | Apply(h: History, plan: Plan)
  datatype Acts = Acts(list: seq<Act>)
  datatype Plan = Plan(own: Acts, callbacks: seq<Acts>)

  class ApiWrap {
    var dialogRequests: Table
    var dialogRequestsPending: Table
    var posts: nat
    var batches: map<nat, seq<History>>
    var nextRequest: nat
    ghost var left: seq<History>
    ghost var books: Books
    ghost var calls: seq<(History, Callback)>     // every call of a callback, in the order of the calls

    ghost function Model(): State
      reads this
    {
      State(dialogRequestsPending, dialogRequests, posts, batches, left, books)
    }

    ghost predicate Valid()
      reads this
    {
      Inv(Model()) && Recorded(books, calls) && forall b :: b in batches ==> b < nextRequest
    }

    constructor ()
      ensures Valid() && Model() == State(map[], map[], 0, map[], [], Books(multiset{}, multiset{}, multiset{}))
      ensures calls == []
    {
      dialogRequests, dialogRequestsPending, posts := map[], map[], 0;
      batches, nextRequest := map[], 0;
      left, books, calls := [], Books(multiset{}, multiset{}, multiset{}), [];
    }

    method RequestDialogEntry(history: History, callback: Option<Callback>)
      modifies this`dialogRequests, this`dialogRequestsPending, this`posts, this`books
      ensures Model() == Requested(old(Model()), history, callback)
    {
      if callback.Some? {
        books := books.(registered := books.registered + multiset{(history, callback.value)});
      }
      if history in dialogRequests {
        if callback.Some? {
          dialogRequests := dialogRequests[history := dialogRequests[history] + [callback.value]];
        } else {
          NothingAdded(dialogRequests, history);
        }
        return;
      }
      var ok := AddPending(history, callback);
      if !ok {
        return;
      }
      if |dialogRequestsPending.Keys| > 1 {
        return;
      }
      posts := posts + 1;
    }

    /** try_emplace and push_back; true if the history was not pending before. */
    method AddPending(history: History, callback: Option<Callback>) returns (ok: bool)
      modifies this`dialogRequestsPending
      ensures dialogRequestsPending == Added(old(dialogRequestsPending), history, callback)
      ensures ok == (history !in old(dialogRequestsPending))
      ensures ok ==> (|dialogRequestsPending.Keys| > 1 <==> old(dialogRequestsPending) != map[])
    {
      ok := history !in dialogRequestsPending;
      if ok {
        OneMore(dialogRequestsPending, history);
        dialogRequestsPending := dialogRequestsPending[history := []];
      }
      if callback.Some? {
        dialogRequestsPending := dialogRequestsPending[history := dialogRequestsPending[history] + [callback.value]];
      }
      assert dialogRequestsPending == Added(old(dialogRequestsPending), history, callback);
      assert dialogRequestsPending.Keys == old(dialogRequestsPending).Keys + {history};
    }

    /** The histories of a table in the order of the table. */
    method Histories(table: Table) returns (histories: seq<History>)
      ensures (forall h :: h in histories <==> h in table) && Rising(histories)
    {
      histories := [];
      var rest: set<nat> := table.Keys;
      while rest != {}
        invariant rest <= table.Keys && forall h: History :: h in table <==> h in histories || h in rest
        invariant Rising(histories) && forall i, h :: 0 <= i < |histories| && h in rest ==> histories[i] < h
        decreases |rest|
      {
        var h: History := Min(rest);
        histories := histories + [h];
        rest := rest - {h};
      }
    }

    /** The histories of the batch that goes out, if there is one. */
    method SendDialogRequests() returns (histories: seq<History>)
      requires Valid() && posts > 0
      modifies this
      ensures Valid() && Model() == Sent(old(Model()), old(nextRequest), histories) && calls == old(calls)
      ensures (forall h :: h in histories <==> h in old(dialogRequestsPending)) && Rising(histories)
    {
      hide Recorded, Rising;
      ghost var was := Model();
      posts := posts - 1;
      if dialogRequestsPending == map[] {
        SentKeeps(was, nextRequest, []);
        NothingRises();
        return [];
      }
      histories := Histories(dialogRequestsPending);
      SentKeeps(was, nextRequest, histories);
      MoveToRequests(histories);
      batches := batches[nextRequest := histories];
      nextRequest := nextRequest + 1;
    }

    /** emplace for everything that base::take gives. */
    method MoveToRequests(histories: seq<History>)
      requires dialogRequestsPending.Keys !! dialogRequests.Keys
      requires forall h :: h in histories <==> h in dialogRequestsPending
      modifies this`dialogRequests, this`dialogRequestsPending
      ensures dialogRequestsPending == map[] && dialogRequests == old(dialogRequests) + old(dialogRequestsPending)
    {
      ghost var was := dialogRequests;
      var taken := dialogRequestsPending;
      dialogRequestsPending := map[];
      var i := 0;
      while i < |histories|
        invariant 0 <= i <= |histories| && dialogRequestsPending == map[]
        invariant forall h :: h in dialogRequests <==> h in was || h in histories[..i]
        invariant forall h :: h in dialogRequests ==> dialogRequests[h] == if h in taken then taken[h] else was[h]
      {
        var history := histories[i];
        if history !in dialogRequests {
          dialogRequests := dialogRequests[history := taken[history]];
        }
        i := i + 1;
      }
    }

    /** Code that runs within one call from the event loop: every callback that it hands over is
        registered, and whatever waited for a history that it applies waits no longer. */
    method Perform(acts: Acts)
      requires Valid()
      modifies this
      ensures Asked(old(books), books, acts.list)
      ensures forall k :: 0 <= k < |acts.list| && acts.list[k].Apply? ==> Served(old(Model()), Model(), acts.list[k].h)
      ensures Valid() && Grown(old(Model()), Model()) && books.hand == old(books.hand) && old(calls) <= calls
      decreases acts, 0
    {
      hide Inv, Grown, Served, Recorded, Asked, Requested;
      NothingGrown(Model());
      NothingAsked(books);
      var i := 0;
      while i < |acts.list|
        invariant 0 <= i <= |acts.list| && Asked(old(books), books, acts.list[..i])
        invariant forall k :: 0 <= k < i && acts.list[k].Apply? ==> Served(old(Model()), Model(), acts.list[k].h)
        invariant Valid() && Grown(old(Model()), Model()) && books.hand == old(books.hand) && old(calls) <= calls
      {
        ghost var was := Model();
        match acts.list[i] {
          case Request(h, callback) =>
            RequestedKeeps(was, h, callback);
            RequestedIs(was, h, callback);
            RequestDialogEntry(h, callback);
            RecordedStays(was.books, books, calls);
          case Apply(h, plan) =>
            DialogEntryApplied(h, plan);
        }
        ghost var now := Model();
        AskedOneMore(old(Model()), was, now, acts.list, i);
        forall k | 0 <= k <= i && acts.list[k].Apply? ensures Served(old(Model()), now, acts.list[k].h) {
          ServedStays(old(Model()), was, now, acts.list[k].h);
        }
        GrownTrans(old(Model()), was, now);
        i := i + 1;
      }
      assert acts.list[..|acts.list|] == acts.list;
    }

    /** `for (const auto &callback : *callbacks) callback();` over callbacks in hand. */
    method CallAll(history: History, callbacks: seq<Callback>, plan: Plan, called: nat,
                   ghost others: multiset<(History, Callback)>)
      requires Valid() && books.hand == others + Tagged(history, callbacks)
      modifies this
      ensures Valid() && Grown(old(Model()), Model()) && books.hand == others
      ensures old(calls) <= calls && Within(Pairs(history, callbacks), calls[|old(calls)|..])
      decreases plan, 1
    {
      var i := 0;
      while i < |callbacks|
        invariant 0 <= i <= |callbacks|
        invariant Valid() && Grown(old(Model()), Model())
        invariant books.hand == others + Tagged(history, callbacks[i..])
        invariant old(calls) <= calls && Within(Pairs(history, callbacks[..i]), calls[|old(calls)|..])
      {
        ghost var was, called0 := Model(), calls;
        assert callbacks[i..][1..] == callbacks[i + 1..];
        CallOne(history, callbacks[i], plan, called + i, others, callbacks[i + 1..]);
        GrownTrans(old(Model()), was, Model());
        OneMoreCall(history, callbacks, i, old(calls), called0, calls);
        i := i + 1;
      }
      assert callbacks[..|callbacks|] == callbacks;
    }

    /** One callback, and what it does. */
    method CallOne(history: History, callback: Callback, plan: Plan, k: nat,
                   ghost others: multiset<(History, Callback)>, ghost rest: seq<Callback>)
      requires Valid() && books.hand == others + (multiset{(history, callback)} + Tagged(history, rest))
      modifies this
      ensures Valid() && Grown(old(Model()), Model()) && books.hand == others + Tagged(history, rest)
      ensures old(calls) + [(history, callback)] <= calls
      ensures k < |plan.callbacks| ==> Asked(old(books), books, plan.callbacks[k].list)
      decreases plan, 0
    {
      ghost var was := Model();
      HandOut(was, history, callback, others, rest);
      books := Called(was, history, callback).books;
      calls := calls + [(history, callback)];
      if k < |plan.callbacks| {
        ghost var called := Model();
        Perform(plan.callbacks[k]);
        GrownTrans(was, called, Model());
      }
    }

    /** Everything that waits for the history is called, and it waits for no answer any more. */
    method DialogEntryApplied(history: History, plan: Plan)
      requires Valid()
      modifies this
      ensures Valid() && Grown(old(Model()), Model()) && books.hand == old(books.hand) && old(calls) <= calls
      ensures Served(old(Model()), Model(), history) && history !in dialogRequests
      ensures Asked(old(books), books, plan.own.list)
      ensures forall c: Callback :: books.ran[(history, c)] >= old(books.ran)[(history, c)]
                + In(old(dialogRequestsPending), history, c) + In(old(dialogRequests), history, c)
      decreases plan, 3
    {
      ghost var s0 := Model();
      Perform(plan.own);
      ghost var s1 := Model();
      var called := CallPending(history, plan);
      ghost var s2 := Model();
      CallInflight(history, plan, called);
      GrownTrans(s0, s1, s2);
      GrownTrans(s0, s2, Model());
      GrownTrans(s1, s2, Model());
      AskedStays(s0.books, s1, Model(), plan.own.list);
      BothServed(s0, s1, s2, Model(), history);
      ServedCalls(s0, Model(), history);
    }

    method CallPending(history: History, plan: Plan) returns (called: nat)
      requires Valid()
      modifies this
      ensures Valid() && Grown(old(Model()), Model()) && books.hand == old(books.hand) && old(calls) <= calls
      ensures PendingServed(old(Model()), Model(), history)
      ensures history in old(dialogRequestsPending) ==>
                Within(Pairs(history, old(dialogRequestsPending)[history]), calls[|old(calls)|..])
      decreases plan, 2
    {
      called := 0;
      if history in dialogRequestsPending {
        ghost var s := Model();
        var callbacks := dialogRequestsPending[history];
        TakenKeeps(s, history);
        dialogRequestsPending := dialogRequestsPending - {history};
        books := Took(s, history, callbacks);
        ghost var t := Model();
        CallAll(history, callbacks, plan, 0, s.books.hand);
        called := |callbacks|;
        PendingEmptied(s, t, Model(), history);
      }
    }

    method CallInflight(history: History, plan: Plan, called: nat)
      requires Valid()
      modifies this
      ensures Valid() && Grown(old(Model()), Model()) && books.hand == old(books.hand) && old(calls) <= calls
      ensures InflightServed(old(Model()), Model(), history) && history !in dialogRequests
      ensures history in old(dialogRequests) ==>
                Within(Pairs(history, old(dialogRequests)[history]), calls[|old(calls)|..])
      decreases plan, 2
    {
      if history in dialogRequests {
        ghost var s := Model();
        var callbacks := dialogRequests[history];
        TakenKeeps(s, history);
        dialogRequests := dialogRequests - {history};
        books := Took(s, history, callbacks);
        ghost var t := Model();
        CallAll(history, callbacks, plan, called, s.books.hand);
        InflightEmptied(s, t, Model(), history);
      }
    }

    /** The answer to a batch, or its failure, for which `first` is empty: dialogEntryApplied and
        updateChatListExistence for each history of the batch. */
    method RequestDone(b: nat, first: Acts, plans: seq<(Plan, Acts)>)
      requires Valid() && b in batches && left == []
      modifies this
      ensures Valid() && left == [] && batches == old(batches) - {b} && books.hand == old(books.hand)
      ensures forall h :: h in old(batches)[b] ==> h !in dialogRequests
      ensures AskedBy(old(books), books, first, plans, |old(batches)[b]|)
    {
      hide Recorded, Inv, GrownFor, Served, Asked;
      var histories := batches[b];
      AnsweredKeeps(Model(), b);
      batches := batches - {b};
      left := histories;
      ghost var books0, s0 := books, Model();
      Perform(first);
      AskedAtFirst(s0, Model(), first, plans);
      var i := 0;
      while i < |histories|
        invariant 0 <= i <= |histories| && Valid() && left == histories[i..]
        invariant batches == old(batches) - {b} && books.hand == old(books.hand)
        invariant forall k :: 0 <= k < i ==> histories[k] !in dialogRequests
        invariant AskedBy(books0, books, first, plans, i)
      {
        ghost var s := Model();
        var plan := if i < |plans| then plans[i] else (Plan(Acts([]), []), Acts([]));
        DialogEntryApplied(histories[i], plan.0);
        ghost var applied := Model();
        PassedKeeps(applied);
        left := left[1..];
        ghost var passed := Model();
        Perform(plan.1);
        AskedLater(books0, s, applied, passed, Model(), first, plan.1, plans, i);
        i := i + 1;
      }
    }

    /** Whatever the event loop brings, nothing is lost on the way. */
    method Run(events: seq<Event>)
      requires Valid() && left == [] && books.hand == multiset{}
      modifies this
      ensures Valid() && left == [] && books.hand == multiset{}
      ensures posts == 0 && batches == map[] ==> books.ran == books.registered
    {
      for i := 0 to |events|
        invariant Valid() && left == [] && books.hand == multiset{}
      {
        match events[i] {
          case Code(acts) => Perform(acts);
          case Posted => if posts > 0 { var _ := SendDialogRequests(); }
          case Answer(b, first, plans) => if b in batches { RequestDone(b, first, plans); }
        }
      }
      if posts == 0 && batches == map[] {
        QuietMeansDone(Model());
      }
    }
  }

  /** What the event loop brings: a call into code that may use the wrapper, a posted call, and an
      answer. */
  datatype Event = Code(acts: Acts) | Posted | Answer(b: nat, first: Acts, plans: seq<(Plan, Acts)>)

  // ---------------------------------------------------------------- what is handed over

  /** The callbacks that the acts hand over themselves. */
  function Requests(acts: seq<Act>): multiset<(History, Callback)> {
    if acts == [] then multiset{}
    else
      var a := acts[|acts| - 1];
      Requests(acts[..|acts| - 1])
      + if a.Request? && a.callback.Some? then multiset{(a.h, a.callback.value)} else multiset{}
  }

  lemma {:induction false} RequestsHave(acts: seq<Act>, k: nat, c: Callback)
    requires k < |acts| && acts[k].Request? && acts[k].callback == Some(c)
    ensures (acts[k].h, c) in Requests(acts)
    decreases |acts|
  {
    if k < |acts| - 1 { RequestsHave(acts[..|acts| - 1], k, c); }
  }

  ghost predicate Asked(was: Books, now: Books, acts: seq<Act>) {
    was.registered + Requests(acts) <= now.registered
  }

  lemma RecordedStays(was: Books, now: Books, calls: seq<(History, Callback)>)
    requires Recorded(was, calls) && now.ran == was.ran
    ensures Recorded(now, calls)
  {
  }

  lemma NothingAsked(books: Books)
    ensures Asked(books, books, [])
  {
  }

  lemma NothingGrown(s: State)
    ensures Grown(s, s)
  {
  }

  lemma GrownRegisters(s: State, t: State)
    requires Grown(s, t)
    ensures s.books.registered <= t.books.registered
  {
    forall p: (History, Callback) ensures s.books.registered[p] <= t.books.registered[p] {
      assert GrownFor(s, t, p.0, p.1);
    }
  }

  lemma AskedStays(was: Books, s: State, t: State, acts: seq<Act>)
    requires Asked(was, s.books, acts) && Grown(s, t)
    ensures Asked(was, t.books, acts)
  {
    GrownRegisters(s, t);
  }

  lemma AskedOneMore(s: State, t: State, u: State, acts: seq<Act>, i: nat)
    requires i < |acts| && Asked(s.books, t.books, acts[..i]) && Grown(t, u)
    requires match acts[i] case Request(h, callback) => u == Requested(t, h, callback) case Apply(_, _) => true
    ensures Asked(s.books, u.books, acts[..i + 1])
  {
    GrownRegisters(t, u);
    assert acts[..i + 1][..i] == acts[..i];
  }

  /** The code before the histories of a batch, and the code after each of the first n of them. */
  ghost predicate AskedBy(was: Books, now: Books, first: Acts, plans: seq<(Plan, Acts)>, n: nat) {
    && was.registered <= now.registered && Asked(was, now, first.list)
    && forall k :: 0 <= k < n && k < |plans| ==> Asked(was, now, plans[k].1.list)
  }

  lemma AskedAtFirst(s: State, t: State, first: Acts, plans: seq<(Plan, Acts)>)
    requires Grown(s, t) && Asked(s.books, t.books, first.list)
    ensures AskedBy(s.books, t.books, first, plans, 0)
  {
    GrownRegisters(s, t);
  }

  lemma AskedLater(was: Books, s: State, t: State, u: State, v: State, first: Acts, acts: Acts,
                   plans: seq<(Plan, Acts)>, i: nat)
    requires AskedBy(was, s.books, first, plans, i) && Grown(s, t) && u.books == t.books && Grown(u, v)
    requires Asked(u.books, v.books, acts.list) && (i < |plans| ==> acts == plans[i].1)
    ensures AskedBy(was, v.books, first, plans, i + 1)
  {
    GrownRegisters(s, t);
    GrownRegisters(u, v);
  }

  /** What is served stays served, and what is served from a later moment on is from an earlier one. */
  lemma ServedStays(s: State, t: State, u: State, h: History)
    requires Grown(s, t) && Grown(t, u) && (Served(s, t, h) || Served(t, u, h))
    ensures Served(s, u, h)
  {
    forall c: Callback
      ensures In(u.pending, h, c) + In(u.inflight, h, c) + s.books.registered[(h, c)] <= u.books.registered[(h, c)]
    {
      assert GrownFor(s, t, h, c) && GrownFor(t, u, h, c);
    }
  }

  // ---------------------------------------------------------------- the order of the calls

  ghost predicate Recorded(books: Books, calls: seq<(History, Callback)>) {
    books.ran == multiset(calls)
  }

  ghost predicate Rising(histories: seq<History>) {
    forall i, j :: 0 <= i < j < |histories| ==> histories[i] < histories[j]
  }

  lemma NothingRises()
    ensures Rising([])
  {
  }

  function Pairs(h: History, callbacks: seq<Callback>): (pairs: seq<(History, Callback)>)
    ensures |pairs| == |callbacks| && forall i :: 0 <= i < |pairs| ==> pairs[i] == (h, callbacks[i])
  {
    seq(|callbacks|, i requires 0 <= i < |callbacks| => (h, callbacks[i]))
  }

  lemma OneMoreCall(h: History, callbacks: seq<Callback>, i: nat, before: seq<(History, Callback)>,
                    was: seq<(History, Callback)>, calls: seq<(History, Callback)>)
    requires i < |callbacks| && before <= was && was + [(h, callbacks[i])] <= calls
    requires Within(Pairs(h, callbacks[..i]), was[|before|..])
    ensures before <= calls && Within(Pairs(h, callbacks[..i + 1]), calls[|before|..])
  {
    var pair := (h, callbacks[i]);
    WithinOne(Pairs(h, callbacks[..i]), was[|before|..], pair);
    assert Pairs(h, callbacks[..i + 1]) == Pairs(h, callbacks[..i]) + [pair];
    assert (was + [pair])[|before|..] == was[|before|..] + [pair];
    WithinMore(Pairs(h, callbacks[..i + 1]), (was + [pair])[|before|..], calls[|before|..]);
  }

  // ---------------------------------------------------------------- serving a history

  ghost predicate PendingServed(s: State, t: State, h: History) {
    forall c: Callback :: In(t.pending, h, c) + s.books.registered[(h, c)] <= t.books.registered[(h, c)]
  }

  ghost predicate InflightServed(s: State, t: State, h: History) {
    forall c: Callback :: In(t.pending, h, c) + In(t.inflight, h, c) + s.books.registered[(h, c)]
                       <= In(s.pending, h, c) + t.books.registered[(h, c)]
  }

  lemma PendingEmptied(s: State, t: State, u: State, h: History)
    requires h in s.pending && t == PendingTaken(s, h) && Grown(s, t) && Grown(t, u)
    ensures Grown(s, u) && PendingServed(s, u, h)
  {
    GrownTrans(s, t, u);
    forall c: Callback ensures In(u.pending, h, c) + s.books.registered[(h, c)] <= u.books.registered[(h, c)] {
      assert GrownFor(t, u, h, c);
    }
  }

  lemma InflightEmptied(s: State, t: State, u: State, h: History)
    requires h in s.inflight && t == InflightTaken(s, h) && Grown(s, t) && Grown(t, u)
    ensures Grown(s, u) && InflightServed(s, u, h) && h !in u.inflight
  {
    GrownTrans(s, t, u);
    forall c: Callback ensures In(u.pending, h, c) + In(u.inflight, h, c) + s.books.registered[(h, c)]
                            <= In(s.pending, h, c) + u.books.registered[(h, c)] {
      assert GrownFor(t, u, h, c);
    }
  }

  lemma BothServed(s: State, t: State, u: State, v: State, h: History)
    requires Grown(s, t) && PendingServed(t, u, h) && InflightServed(u, v, h)
    ensures Served(s, v, h)
  {
    forall c: Callback
      ensures In(v.pending, h, c) + In(v.inflight, h, c) + s.books.registered[(h, c)] <= v.books.registered[(h, c)]
    {
      assert GrownFor(s, t, h, c);
    }
  }

  lemma HandOut(s: State, h: History, c: Callback, others: multiset<(History, Callback)>, rest: seq<Callback>)
    requires Inv(s) && s.books.hand == others + (multiset{(h, c)} + Tagged(h, rest))
    ensures Inv(Called(s, h, c)) && Grown(s, Called(s, h, c)) && Called(s, h, c).books.hand == others + Tagged(h, rest)
  {
    CalledKeeps(s, h, c);
  }

  lemma NothingAdded(table: Table, h: History)
    requires h in table
    ensures Added(table, h, None) == table
  {
  }

  lemma OneMore(table: Table, h: History)
    requires h !in table
    ensures |table.Keys + {h}| > 1 <==> table != map[]
  {
    assert |table.Keys + {h}| == |table.Keys| + 1;
    if |table.Keys| == 0 {
      assert table == map[];
    }
  }
}
