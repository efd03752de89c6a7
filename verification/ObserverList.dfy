/** The subscription list of an observable: a doubly linked list that is walked while the
    handlers it calls add and remove subscriptions. */
module ObserverList {

  /** What a handler does to the list.  Subscriptions are named by the order of their creation. */
  datatype Op = Subscribe | Unsubscribe(id: nat)

  /** The list seen from outside: the live subscriptions in list order, how many of them the
      enumeration has passed, and the name of the next subscription.  `destroyed` is set when the
      data of the observable is reset in the middle of the enumeration. */
  datatype View = View(live: seq<nat>, passed: nat, next: nat, destroyed: bool) {
    ghost predicate Ok() {
      && passed <= |live|
      && (forall i, j :: 0 <= i < j < |live| ==> live[i] < live[j])
      && (forall i :: 0 <= i < |live| ==> live[i] < next)
    }
  }

  /** One call of a handler, with the list at that moment. */
  datatype Call = Call(id: nat, live: seq<nat>)

  function Without(live: seq<nat>, i: nat): seq<nat>
    requires i < |live|
  {
    live[..i] + live[i + 1..]
  }

  function IndexOf(live: seq<nat>, id: nat): (i: nat)
    requires id in live
    ensures i < |live| && live[i] == id
  {
    if live[0] == id then 0 else 1 + IndexOf(live[1..], id)
  }

  function Apply(v: View, op: Op): View {
    match op
    case Subscribe => v.(live := v.live + [v.next], next := v.next + 1)
    case Unsubscribe(id) =>
      if id !in v.live then v
      else
        Released(v, IndexOf(v.live, id))
  }

  /** The subscription at i leaves the list.  When it was the last one the data of the observable
      is reset, unless the cursor stood on it. */
  function Released(v: View, i: nat): View
    requires i < |v.live|
  {
    v.(live := Without(v.live, i),
       passed := if i < v.passed then v.passed - 1 else v.passed,
       destroyed := v.destroyed || (|v.live| == 1 && i >= v.passed))
  }

  /** The operations of one handler; nothing more happens to a destroyed list. */
  function ApplyAll(v: View, ops: seq<Op>): View
    decreases |ops|
  {
    if ops == [] || v.destroyed then v else ApplyAll(Apply(v, ops[0]), ops[1..])
  }

  /** Handlers that only subscribe put their nodes at the end of the list, in their order. */
  lemma {:induction false} SubscribesAppend(v: View, ops: seq<Op>)
    requires !v.destroyed && forall i :: 0 <= i < |ops| ==> ops[i].Subscribe?
    ensures var w := ApplyAll(v, ops);
            && w.live == v.live + seq(|ops|, i requires 0 <= i < |ops| => v.next + i)
            && w.next == v.next + |ops| && w.passed == v.passed && !w.destroyed
    decreases |ops|
  {
    if ops != [] { SubscribesAppend(Apply(v, ops[0]), ops[1..]); }
  }

  /** A handler acts step by step, until the data is reset. */
  lemma {:induction false} ActsGoOn(v: View, ops: seq<Op>, more: seq<Op>)
    ensures ApplyAll(v, ops + more) == ApplyAll(ApplyAll(v, ops), more)
    decreases |ops|
  {
    if ops == [] || v.destroyed {
      assert ops == [] ==> ops + more == more;
    } else {
      assert (ops + more)[1..] == ops[1..] + more;
      ActsGoOn(Apply(v, ops[0]), ops[1..], more);
    }
  }

  function First(script: seq<seq<Op>>): (ops: seq<Op>)
    ensures script != [] ==> ops == script[0]
    ensures script == [] ==> ops == []
  {
    if script == [] then [] else script[0]
  }

  function Rest(script: seq<seq<Op>>): (rest: seq<seq<Op>>)
    ensures script != [] ==> script == [script[0]] + rest
    ensures script == [] ==> rest == []
  {
    if script == [] then [] else script[1..]
  }

  /** The enumeration: call the first subscription not passed yet, let its handler act, go on.
      The k-th call made runs the k-th entry of the script. */
  function Enumerate(v: View, script: seq<seq<Op>>): (seq<Call>, View)
    decreases |script|, |v.live| - v.passed
  {
    if v.destroyed || v.passed >= |v.live| then ([], v)
    else
      var v1 := ApplyAll(v.(passed := v.passed + 1), First(script));
      var (calls, w) := Enumerate(v1, Rest(script));
      ([Call(v.live[v.passed], v.live)] + calls, w)
  }

  // ---------------------------------------------------------------- the linked list

  class Node {
    var next: Node?
    var prev: Node?
    const id: nat

    constructor (id: nat)
      ensures this.id == id && next == null && prev == null
    {
      this.id, next, prev := id, null, null;
    }
  }

  ghost predicate Distinct(nodes: seq<Node>) {
    forall i, j :: 0 <= i < j < |nodes| ==> nodes[i] != nodes[j]
  }

  lemma DistinctWithout(nodes: seq<Node>, i: nat)
    requires Distinct(nodes) && i < |nodes|
    ensures
      var rest := nodes[..i] + nodes[i + 1..];
      Distinct(rest) && forall k :: 0 <= k < |rest| ==> rest[k] == nodes[if k < i then k else k + 1]
  {
  }

  ghost function Ids(nodes: seq<Node>): (ids: seq<nat>)
    ensures |ids| == |nodes| && forall i :: 0 <= i < |nodes| ==> ids[i] == nodes[i].id
  {
    seq(|nodes|, i requires 0 <= i < |nodes| => nodes[i].id)
  }

  /** The node at i is held by the Subscription with its id. */
  ghost predicate HeldAt(nodes: seq<Node>, subscriptions: map<nat, Node>, i: nat)
    requires i < |nodes|
  {
    nodes[i].id in subscriptions && subscriptions[nodes[i].id] == nodes[i]
  }

  ghost predicate Live(nodes: seq<Node>, id: nat) {
    exists i :: 0 <= i < |nodes| && nodes[i].id == id
  }

  /** Every node is held by the Subscription with its id, and by no other. */
  ghost predicate HeldBy(nodes: seq<Node>, subscriptions: map<nat, Node>, nextId: nat) {
    && (forall i {:trigger HeldAt(nodes, subscriptions, i)} :: 0 <= i < |nodes| ==> HeldAt(nodes, subscriptions, i))
    && (forall id {:trigger Live(nodes, id)} :: id in subscriptions ==> Live(nodes, id))
    && (forall id :: id in subscriptions ==> id < nextId)
  }

  lemma HeldWithOneMore(nodes: seq<Node>, subscriptions: map<nat, Node>, nextId: nat, node: Node)
    requires HeldBy(nodes, subscriptions, nextId) && node.id == nextId
    ensures HeldBy(nodes + [node], subscriptions[nextId := node], nextId + 1)
  {
    var more, s := nodes + [node], subscriptions[nextId := node];
    forall i: nat | i < |more| ensures HeldAt(more, s, i) {
      if i < |nodes| { assert HeldAt(nodes, subscriptions, i); }
    }
    forall id | id in s ensures Live(more, id) {
      if id == nextId {
        assert more[|nodes|].id == id;
      } else {
        assert Live(nodes, id);
        var i :| 0 <= i < |nodes| && nodes[i].id == id;
        assert more[i].id == id;
      }
    }
  }

  lemma HeldWithoutOne(nodes: seq<Node>, subscriptions: map<nat, Node>, nextId: nat, i: nat)
    requires Distinct(nodes) && i < |nodes| && HeldBy(nodes, subscriptions, nextId)
    ensures HeldBy(nodes[..i] + nodes[i + 1..], subscriptions - {nodes[i].id}, nextId)
  {
    var rest, s := nodes[..i] + nodes[i + 1..], subscriptions - {nodes[i].id};
    assert HeldAt(nodes, subscriptions, i);
    forall k: nat | k < |rest| ensures HeldAt(rest, s, k) {
      var j := if k < i then k else k + 1;
      assert HeldAt(nodes, subscriptions, j);
      assert rest[k] == nodes[j] && nodes[j] != nodes[i];
    }
    forall id | id in s ensures Live(rest, id) {
      assert Live(nodes, id);
      var j :| 0 <= j < |nodes| && nodes[j].id == id;
      assert rest[if j < i then j else j - 1].id == id;
    }
  }

  lemma IdsAreHeld(nodes: seq<Node>, subscriptions: map<nat, Node>, nextId: nat, id: nat)
    requires HeldBy(nodes, subscriptions, nextId)
    ensures id in Ids(nodes) <==> id in subscriptions
    ensures id in subscriptions ==> subscriptions[id] == nodes[IndexOf(Ids(nodes), id)]
  {
    if id in Ids(nodes) {
      assert HeldAt(nodes, subscriptions, IndexOf(Ids(nodes), id));
    }
    if id in subscriptions {
      assert Live(nodes, id);
      var i :| 0 <= i < |nodes| && nodes[i].id == id;
      assert Ids(nodes)[i] == id;
    }
  }

  lemma IdsWithout(nodes: seq<Node>, i: nat)
    requires i < |nodes|
    ensures Ids(nodes[..i] + nodes[i + 1..]) == Without(Ids(nodes), i)
  {
  }

  class ObservableData {
    var begin: Node?
    var current: Node?
    var end: Node?
    var subscriptions: map<nat, Node>   // the Subscription objects that still hold a node
    var nextId: nat
    var destroyed: bool                 // _observable->_data.reset() was called
    ghost var nodes: seq<Node>
    ghost var passed: nat
    ghost var repr: set<Node>           // every node the list ever had

    ghost predicate Linked()
      reads this, nodes
    {
      && Distinct(nodes)
      && begin == (if nodes == [] then null else nodes[0])
      && end == (if nodes == [] then null else nodes[|nodes| - 1])
      && (forall i {:trigger nodes[i].next} :: 0 <= i < |nodes| ==>
           nodes[i].next == if i == |nodes| - 1 then null else nodes[i + 1])
      && (forall i {:trigger nodes[i].prev} :: 0 <= i < |nodes| ==>
           nodes[i].prev == if i == 0 then null else nodes[i - 1])
    }

    /** The cursor stands on the last node the enumeration has passed. */
    ghost predicate Placed()
      reads this
    {
      passed <= |nodes| && current == if passed == 0 then null else nodes[passed - 1]
    }

    ghost predicate Held()
      reads this
    {
      HeldBy(nodes, subscriptions, nextId)
    }

    ghost predicate Valid()
      reads this, nodes
    {
      Linked() && Placed() && Held() && forall i :: 0 <= i < |nodes| ==> nodes[i] in repr
    }

    ghost function Model(): View
      reads this
    {
      View(Ids(nodes), passed, nextId, destroyed)
    }

    constructor ()
      ensures Valid() && Model() == View([], 0, 0, false)
    {
      begin, current, end := null, null, null;
      subscriptions, nextId, destroyed := map[], 0, false;
      nodes, passed, repr := [], 0, {};
    }

    /** The pointer part of append. */
    method Link(node: Node)
      requires Linked() && node !in nodes && node.next == null && node.prev == null
      modifies this`begin, this`end, this`nodes, nodes, node
      ensures Linked() && nodes == old(nodes) + [node]
    {
      if begin != null {
        end.next := node;
        node.prev := end;
        end := node;
      } else {
        begin := node;
        end := node;
      }
      nodes := nodes + [node];
    }

    /** The pointer part of remove. */
    method Unlink(node: Node, ghost i: nat)
      requires Linked() && i < |nodes| && nodes[i] == node
      modifies this`begin, this`end, this`nodes, nodes
      ensures Linked() && nodes == old(nodes)[..i] + old(nodes)[i + 1..]
      ensures node.prev == old(node.prev)
    {
      DistinctWithout(nodes, i);
      ghost var was := nodes;
      assert node.prev == if i == 0 then null else was[i - 1];
      assert node.next == if i == |was| - 1 then null else was[i + 1];
      if node.prev != null {
        node.prev.next := node.next;
      }
      if node.next != null {
        node.next.prev := node.prev;
      }
      if begin == node {
        begin := node.next;
      }
      if end == node {
        end := node.prev;
      }
      nodes := nodes[..i] + nodes[i + 1..];
      forall k {:trigger nodes[k].next} | 0 <= k < |nodes|
        ensures nodes[k].next == if k == |nodes| - 1 then null else nodes[k + 1]
      {
        assert nodes[k] == was[if k < i then k else k + 1];
      }
      forall k {:trigger nodes[k].prev} | 0 <= k < |nodes|
        ensures nodes[k].prev == if k == 0 then null else nodes[k - 1]
      {
        assert nodes[k] == was[if k < i then k else k + 1];
      }
    }

    /** CommonObservableData::append; the Subscription that is returned keeps the node. */
    method Append() returns (node: Node)
      requires Valid()
      modifies this, nodes
      ensures Valid() && fresh(node) && repr == old(repr) + {node}
      ensures nodes == old(nodes) + [node] && node.id == old(nextId)
      ensures passed == old(passed) && nextId == old(nextId) + 1 && destroyed == old(destroyed)
    {
      node := new Node(nextId);
      Link(node);
      HeldWithOneMore(old(nodes), subscriptions, nextId, node);
      subscriptions := subscriptions[nextId := node];
      nextId := nextId + 1;
      repr := repr + {node};
    }

    /** CommonObservableData::remove. */
    method Remove(node: Node, ghost i: nat)
      requires Linked() && Placed() && i < |nodes| && nodes[i] == node
      modifies this`begin, this`end, this`nodes, this`current, this`passed, this`destroyed, nodes
      ensures Linked() && Placed() && nodes == old(nodes)[..i] + old(nodes)[i + 1..]
      ensures passed == if i < old(passed) then old(passed) - 1 else old(passed)
      ensures destroyed == (old(destroyed) || (|old(nodes)| == 1 && i >= old(passed)))
    {
      ghost var was, before := nodes, node.prev;
      assert before == if i == 0 then null else was[i - 1];
      assert current == node <==> passed == i + 1 by {
        if passed > 0 && passed != i + 1 { assert was[passed - 1] != was[i]; }
      }
      Unlink(node, i);
      assert |nodes| == |was| - 1;
      if current == node {
        current := node.prev;
      } else if begin == null {
        destroyed := true;
      }
      if i < passed {
        passed := passed - 1;
      }
      assert forall k :: 0 <= k < i ==> nodes[k] == was[k];
    }

    /** The Subscription gives up its node, which is removed and deleted. */
    method Release(id: nat, ghost i: nat)
      requires Valid() && i < |nodes| && nodes[i].id == id
      modifies this, nodes
      ensures Valid() && repr == old(repr) && nextId == old(nextId)
      ensures nodes == old(nodes)[..i] + old(nodes)[i + 1..]
      ensures passed == if i < old(passed) then old(passed) - 1 else old(passed)
      ensures destroyed == (old(destroyed) || (|old(nodes)| == 1 && i >= old(passed)))
    {
      ghost var was := nodes;
      assert HeldAt(nodes, subscriptions, i);
      var node := subscriptions[id];
      Remove(node, i);
      HeldWithoutOne(was, subscriptions, nextId, i);
      subscriptions := subscriptions - {id};
    }

    method ReleaseAt(id: nat, ghost i: nat)
      requires Valid() && i < |nodes| && nodes[i].id == id
      modifies this, nodes
      ensures Valid() && repr == old(repr)
      ensures Model() == Released(old(Model()), i)
    {
      IdsWithout(nodes, i);
      Release(id, i);
    }

    /** Subscription::destroy. */
    method Destroy(id: nat)
      requires Valid() && !destroyed
      modifies this, nodes
      ensures Valid() && repr == old(repr)
      ensures Model() == Apply(old(Model()), Unsubscribe(id))
    {
      IdsAreHeld(nodes, subscriptions, nextId, id);
      if id !in subscriptions {
        return;
      }
      ReleaseAt(id, IndexOf(Ids(nodes), id));
    }

    /** A handler: the operations of its entry of the script. */
    method RunHandler(ops: seq<Op>)
      requires Valid()
      modifies this, repr
      ensures Valid() && forall n :: n in repr ==> n in old(repr) || fresh(n)
      ensures Model() == ApplyAll(old(Model()), ops)
      ensures ops == [] ==> nodes == old(nodes)
      decreases |ops|
    {
      if ops == [] || destroyed {
        return;
      }
      if ops[0].Subscribe? {
        var node := Append();
        assert Ids(nodes) == old(Ids(nodes)) + [node.id];
      } else {
        Destroy(ops[0].id);
      }
      RunHandler(ops[1..]);
    }

    /** The end of a turn of the loop: the node after the cursor, or the first one when the cursor
        was removed together with everything before it. */
    method Advance()
      requires Valid()
      modifies this`current, this`passed
      ensures Valid()
      ensures Model() == old(Model()).(passed := if old(passed) < |nodes| then old(passed) + 1 else 0)
    {
      if current != null {
        current := current.next;
      } else if begin != null {
        current := begin;
      }
      passed := if passed < |nodes| then passed + 1 else 0;
    }

    /** callCurrent() */
    method CallCurrent(ghost calls: seq<Call>, rest: seq<seq<Op>>) returns (ghost more: seq<Call>)
      requires Valid() && passed > 0 && !destroyed
      modifies this, repr
      ensures Valid() && forall n :: n in repr ==> n in old(repr) || fresh(n)
      ensures rest == [] ==> nodes == old(nodes) && passed == old(passed)
      ensures Upcoming(calls, old(Model()), rest) == Afterwards(more, Model(), Rest(rest))
    {
      CallOne(calls, Model(), rest);
      more := calls + [Call(current.id, Ids(nodes))];
      RunHandler(First(rest));
    }

    /** One turn of the loop of notifyEnumerate: the call, then the step to the next node. */
    method Turn(ghost calls: seq<Call>, rest: seq<seq<Op>>) returns (ghost more: seq<Call>)
      requires Valid() && passed > 0 && !destroyed
      modifies this, repr
      ensures Valid() && forall n :: n in repr ==> n in old(repr) || fresh(n)
      ensures destroyed || current == null ==> EndsAs(more, Model(), Upcoming(calls, old(Model()), rest))
      ensures !destroyed && current != null ==>
                passed > 0 && Upcoming(more, Model(), Rest(rest)) == Upcoming(calls, old(Model()), rest)
      ensures rest == [] && !destroyed && current != null ==> |nodes| - passed < old(|nodes| - passed)
    {
      more := CallCurrent(calls, rest);
      MovesOn(more, Model(), Rest(rest));
      if !destroyed {
        Advance();
      }
    }

    /** The loop of notifyEnumerate, with the cursor on the subscription to be called first. */
    method CallAll(script: seq<seq<Op>>) returns (ghost calls: seq<Call>)
      requires Valid() && passed > 0 && !destroyed
      modifies this, repr
      ensures Valid()
      ensures EndsAs(calls, Model(), Upcoming([], old(Model()), script))
    {
      ghost var goal := Upcoming([], Model(), script);
      var rest := script;
      calls := [];
      while true
        invariant Valid() && !destroyed && passed > 0
        invariant forall n :: n in repr ==> n in old(repr) || fresh(n)
        invariant Upcoming(calls, Model(), rest) == goal
        decreases |rest|, |nodes| - passed
      {
        calls := Turn(calls, rest);
        if destroyed || current == null {
          break;
        }
        rest := Rest(rest);
      }
    }

    /** notifyEnumerate.  When the data is reset under the enumeration nothing can be said about
        what follows in the program, and the model stops there. */
    method NotifyEnumerate(script: seq<seq<Op>>) returns (ghost calls: seq<Call>)
      requires Valid() && passed == 0 && begin != null && !destroyed
      modifies this, repr
      ensures Valid() && EndsAs(calls, Model(), Enumerate(old(Model()), script))
    {
      ghost var v := Model();
      current := begin;
      passed := 1;
      assert Model().(passed := 0) == v;
      NothingCalled(Enumerate(v, script));
      calls := CallAll(script);
    }
  }

  /** The calls made and the list left behind; the cursor ends on null. */
  ghost predicate EndsAs(calls: seq<Call>, v: View, outcome: (seq<Call>, View)) {
    calls == outcome.0 && v.destroyed == outcome.1.destroyed && (!v.destroyed ==> v == outcome.1.(passed := 0))
  }

  lemma MovesOn(calls: seq<Call>, v: View, rest: seq<seq<Op>>)
    ensures v.destroyed || v.passed >= |v.live| ==> Afterwards(calls, v, rest) == (calls, v)
    ensures !v.destroyed && v.passed < |v.live| ==>
            Upcoming(calls, v.(passed := v.passed + 1), rest) == Afterwards(calls, v, rest)
  {
    assert calls + [] == calls;
    assert v.(passed := v.passed + 1).(passed := v.passed) == v;
  }

  /** Everything called so far and everything still to come, when the subscription at the cursor
      is about to be called. */
  ghost function Upcoming(calls: seq<Call>, v: View, rest: seq<seq<Op>>): (seq<Call>, View)
    requires v.passed > 0
  {
    var (c, w) := Enumerate(v.(passed := v.passed - 1), rest);
    (calls + c, w)
  }

  /** The same once the handler has returned. */
  ghost function Afterwards(calls: seq<Call>, v: View, rest: seq<seq<Op>>): (seq<Call>, View) {
    var (c, w) := Enumerate(v, rest);
    (calls + c, w)
  }

  lemma NothingCalled(outcome: (seq<Call>, View))
    ensures ([] + outcome.0, outcome.1) == outcome
  {
    assert [] + outcome.0 == outcome.0;
  }

  lemma CallOne(calls: seq<Call>, v: View, rest: seq<seq<Op>>)
    requires 0 < v.passed <= |v.live| && !v.destroyed
    ensures
      var more := calls + [Call(v.live[v.passed - 1], v.live)];
      Upcoming(calls, v, rest) == Afterwards(more, ApplyAll(v, First(rest)), Rest(rest))
  {
    var call := Call(v.live[v.passed - 1], v.live);
    var (c, w) := Enumerate(ApplyAll(v, First(rest)), Rest(rest));
    assert v.(passed := v.passed - 1).(passed := v.passed) == v;
    assert calls + ([call] + c) == (calls + [call]) + c;
  }

  // ---------------------------------------------------------------- what an enumeration does

  /** The cursor separates the subscriptions up to the one called last from the later ones. */
  ghost predicate Split(v: View, last: int) {
    && v.Ok() && last < v.next
    && (forall i :: 0 <= i < v.passed ==> v.live[i] <= last)
    && (forall i :: v.passed <= i < |v.live| ==> v.live[i] > last)
  }

  ghost predicate FromOrNew(live: seq<nat>, v: View) {
    forall i :: 0 <= i < |live| ==> live[i] in v.live || live[i] >= v.next
  }

  lemma ReleasedSplits(v: View, i: nat, last: int)
    requires Split(v, last) && i < |v.live|
    ensures Split(Released(v, i), last) && FromOrNew(Released(v, i).live, v)
  {
    var live := Released(v, i).live;
    assert forall k :: 0 <= k < |live| ==> live[k] == v.live[if k < i then k else k + 1];
  }

  lemma ApplySplits(v: View, op: Op, last: int)
    requires Split(v, last)
    ensures Split(Apply(v, op), last) && FromOrNew(Apply(v, op).live, v) && Apply(v, op).next >= v.next
  {
    if op.Unsubscribe? && op.id in v.live { ReleasedSplits(v, IndexOf(v.live, op.id), last); }
  }

  lemma {:induction false} ApplyAllSplits(v: View, ops: seq<Op>, last: int)
    requires Split(v, last)
    ensures
      var w := ApplyAll(v, ops);
      Split(w, last) && FromOrNew(w.live, v) && w.next >= v.next
    decreases |ops|
  {
    if ops != [] && !v.destroyed {
      ApplySplits(v, ops[0], last);
      ApplyAllSplits(Apply(v, ops[0]), ops[1..], last);
    }
  }

  /** The data of the observable is reset under the enumeration if and only if a handler removes the
      only subscription that is left, and that one has not been called yet. */
  lemma ResetsExactlyWhen(v: View, op: Op, last: int)
    requires Split(v, last) && !v.destroyed
    ensures Apply(v, op).destroyed <==> op.Unsubscribe? && v.live == [op.id] && op.id > last
  {
    if op.Unsubscribe? && op.id in v.live {
      var i := IndexOf(v.live, op.id);
      assert |v.live| == 1 ==> v.live == [v.live[0]];
    }
  }

  ghost predicate CalledBefore(calls: seq<Call>, n: nat, id: nat) {
    exists j :: 0 <= j < n && j < |calls| && calls[j].id == id
  }

  /** The calls come in list order, each subscription at most once and only while it is in the list,
      and no subscription that is in the list when a later one is called has been left out. */
  ghost predicate Orderly(calls: seq<Call>, last: int) {
    && (forall i :: 0 <= i < |calls| ==> calls[i].id > last && calls[i].id in calls[i].live)
    && (forall i, j :: 0 <= i < j < |calls| ==> calls[i].id < calls[j].id)
    && (forall i, id :: 0 <= i < |calls| && id in calls[i].live && last < id < calls[i].id ==>
         CalledBefore(calls, i, id))
  }

  ghost predicate Completes(v: View, calls: seq<Call>, w: View, last: int) {
    && Orderly(calls, last)
    && (forall i :: 0 <= i < |calls| ==> FromOrNew(calls[i].live, v))
    && FromOrNew(w.live, v)
    && (!w.destroyed ==> forall id :: id in w.live && id > last ==> CalledBefore(calls, |calls|, id))
  }

  lemma {:induction false} EnumerateFrom(v: View, script: seq<seq<Op>>, last: int)
    requires Split(v, last)
    ensures
      var (calls, w) := Enumerate(v, script);
      Completes(v, calls, w, last)
    decreases |script|, |v.live| - v.passed
  {
    if !v.destroyed && v.passed < |v.live| {
      var id := v.live[v.passed];
      var v0 := v.(passed := v.passed + 1);
      var v1 := ApplyAll(v0, First(script));
      ApplyAllSplits(v0, First(script), id);
      EnumerateFrom(v1, Rest(script), id);
      var (rest, w) := Enumerate(v1, Rest(script));
      PrependCall(Call(id, v.live), rest, v, v1, w, last);
      assert Enumerate(v, script) == ([Call(id, v.live)] + rest, w);
    } else {
      NoCalls(v, last);
    }
  }

  lemma NoCalls(v: View, last: int)
    requires Split(v, last) && (v.destroyed || v.passed >= |v.live|)
    ensures Completes(v, [], v, last)
  {
  }

  lemma PrependCall(call: Call, rest: seq<Call>, v: View, v1: View, w: View, last: int)
    requires Split(v, last) && v.passed < |v.live| && call == Call(v.live[v.passed], v.live)
    requires Completes(v1, rest, w, call.id) && FromOrNew(v1.live, v) && v1.next >= v.next
    ensures Completes(v, [call] + rest, w, last)
  {
    var calls := [call] + rest;
    forall live | FromOrNew(live, v1) ensures FromOrNew(live, v) {}
    forall i, id | 0 <= i < |calls| && id in calls[i].live && last < id < calls[i].id
      ensures CalledBefore(calls, i, id)
    {
      if i > 0 {
        StillToCall(v, rest[i - 1].live, id, last);
        CalledShifts(call, rest, i - 1, id);
      }
    }
    if !w.destroyed {
      forall id | id in w.live && id > last ensures CalledBefore(calls, |calls|, id) {
        StillToCall(v, w.live, id, last);
        CalledShifts(call, rest, |rest|, id);
      }
    }
  }

  lemma CalledShifts(call: Call, rest: seq<Call>, n: nat, id: nat)
    requires id == call.id || CalledBefore(rest, n, id)
    ensures CalledBefore([call] + rest, n + 1, id)
  {
    if id == call.id {
      assert ([call] + rest)[0].id == id;
    } else {
      var j :| 0 <= j < n && j < |rest| && rest[j].id == id;
      assert ([call] + rest)[j + 1].id == id;
    }
  }

  /** Whatever is in the list later on and comes after `last` is the next one to call, or comes after it. */
  lemma StillToCall(v: View, live: seq<nat>, id: nat, last: int)
    requires Split(v, last) && v.passed < |v.live| && FromOrNew(live, v) && id in live && id > last
    ensures id >= v.live[v.passed]
  {
    var i :| 0 <= i < |live| && live[i] == id;
    if id in v.live {
      var k :| 0 <= k < |v.live| && v.live[k] == id;
    }
  }

  /** notifyEnumerate, for every list and every behaviour of the handlers: it calls the subscriptions
      in list order, none twice, none after its removal, and none is passed over; and unless the data
      is reset under it, every subscription that is in the list at the end has been called. */
  lemma EnumerationIsComplete(v: View, script: seq<seq<Op>>)
    requires v.Ok() && v.passed == 0
    ensures
      var (calls, w) := Enumerate(v, script);
      Orderly(calls, -1) && (!w.destroyed ==> forall id :: id in w.live ==> CalledBefore(calls, |calls|, id))
  {
    EnumerateFrom(v, script, -1);
  }
}
