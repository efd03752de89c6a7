/** The components of a RuntimeComposer: their construction, their moves between blocks when the
    set of components changes, and their destruction. */
module ComposerLifecycle {
  import opened ComposerLayout
  import opened Options

  datatype Instance<V> = Instance(serial: nat, value: V)

  type Block<V> = map<nat, Instance<V>>

  /** What a type of component does when it is constructed, and where its component goes. */
  datatype Types<!V> = Types(wraps: seq<Wrap>, construct: nat -> V)

  // ---------------------------------------------------------------- specification

  function Components(mask: Mask, wraps: seq<Wrap>, n: nat): set<nat>
    requires |wraps| == 64 && n <= 64
  {
    set i: nat | i < n && Present(mask, wraps, i)
  }

  /** The components below n of a new block; `next` is the first serial number to give. */
  function Build<V>(mask: Mask, t: Types<V>, n: nat, next: nat): (Block<V>, nat)
    requires Registered(t.wraps) && n <= 64
  {
    if n == 0 then (map[], next)
    else
      var (block, mid) := Build(mask, t, n - 1, next);
      if Present(mask, t.wraps, n - 1) then (block[n - 1 := Instance(mid, t.construct(n - 1))], mid + 1)
      else (block, mid)
  }

  ghost predicate Distinct<V>(block: Block<V>) {
    forall i, j :: i in block && j in block && block[i].serial == block[j].serial ==> i == j
  }

  /** A new block holds exactly the components of the mask, each as its type constructs it, with
      new serial numbers of their own. */
  lemma {:induction false} BuildIsGood<V>(mask: Mask, t: Types<V>, n: nat, next: nat)
    requires Registered(t.wraps) && n <= 64
    ensures var (block, after) := Build(mask, t, n, next);
            && block.Keys == Components(mask, t.wraps, n)
            && (forall i :: i in block ==> block[i].value == t.construct(i) && next <= block[i].serial < after)
            && Distinct(block) && next <= after
            && (forall x :: x in Serials(block) <==> next <= x < after)
  {
    if n > 0 {
      BuildIsGood(mask, t, n - 1, next);
      if Present(mask, t.wraps, n - 1) {
        var (block, mid) := Build(mask, t, n - 1, next);
        SerialsGrow(block, n - 1, Instance(mid, t.construct(n - 1)));
      }
    }
  }

  lemma SerialsGrow<V>(block: Block<V>, i: nat, x: Instance<V>)
    requires i !in block
    ensures Serials(block[i := x]) == Serials(block) + {x.serial}
  {
    var more := block[i := x];
    forall s | s in Serials(block) ensures s in Serials(more) {
      var k :| k in block && block[k].serial == s;
      assert k in more && more[k].serial == s;
    }
    assert more[i].serial in Serials(more);
  }

  lemma SameSerials<V>(a: Block<V>, b: Block<V>)
    requires a.Keys == b.Keys && forall i :: i in a ==> a[i].serial == b[i].serial
    ensures Serials(a) == Serials(b)
  {
    forall s | s in Serials(a) ensures s in Serials(b) {
      var k :| k in a && a[k].serial == s;
      assert k in b && b[k].serial == s;
    }
    forall s | s in Serials(b) ensures s in Serials(a) {
      var k :| k in b && b[k].serial == s;
      assert k in a && a[k].serial == s;
    }
  }

  /** The components below n that both blocks have take the values of the old block. */
  function Moved<V>(block: Block<V>, was: Block<V>, n: nat): Block<V> {
    map i | i in block :: if i in was && i < n then Instance(block[i].serial, was[i].value) else block[i]
  }

  function Serials<V>(block: Block<V>): set<nat> {
    set i | i in block :: block[i].serial
  }

  /** One composer, with the count of all the constructions and the destructions it has made. */
  datatype State<V> = State(mask: Mask, block: Block<V>, next: nat, destructed: multiset<nat>)

  function Created<V>(mask: Mask, t: Types<V>, next: nat, destructed: multiset<nat>): State<V>
    requires Registered(t.wraps)
  {
    var (block, after) := Build(mask, t, 64, next);
    State(mask, block, after, destructed)
  }

  function Updated<V>(s: State<V>, t: Types<V>, mask: Mask): State<V>
    requires Registered(t.wraps)
  {
    if mask == s.mask then s
    else
      var (block, next) := Build(mask, t, 64, s.next);
      State(mask, Moved(block, s.block, 64), next, s.destructed + multiset(Serials(s.block)))
  }

  function Destroyed<V>(s: State<V>): State<V> {
    s.(block := map[], destructed := s.destructed + multiset(Serials(s.block)))
  }

  /** What the owner of a composer does: change its components, or one component's value. */
  datatype Op<V> = Update(mask: Mask) | Add(mask: Mask) | Remove(mask: Mask) | Write(index: nat, value: V)

  function Step<V>(s: State<V>, t: Types<V>, op: Op<V>): State<V>
    requires Registered(t.wraps)
  {
    match op
    case Update(mask) => Updated(s, t, mask)
    case Add(mask) => Updated(s, t, Or(s.mask, mask))
    case Remove(mask) => Updated(s, t, AndNot(s.mask, mask))
    case Write(i, v) => if i in s.block then s.(block := s.block[i := Instance(s.block[i].serial, v)]) else s
  }

  function Run<V>(s: State<V>, t: Types<V>, ops: seq<Op<V>>): State<V>
    requires Registered(t.wraps)
    decreases |ops|
  {
    if ops == [] then s else Run(Step(s, t, ops[0]), t, ops[1..])
  }

  // ---------------------------------------------------------------- conservation

  /** The components are those of the mask; of the instances made so far those in the block are
      not destructed, and every other one is destructed exactly once. */
  ghost predicate Balanced<V>(s: State<V>, t: Types<V>)
    requires Registered(t.wraps)
  {
    && s.block.Keys == Components(s.mask, t.wraps, 64)
    && Accounts(s)
  }

  ghost predicate Accounts<V>(s: State<V>) {
    && (forall i :: i in s.block ==> s.block[i].serial < s.next)
    && Distinct(s.block)
    && (forall x: nat :: s.destructed[x] == if x < s.next && x !in Serials(s.block) then 1 else 0)
  }

  lemma CreatedBalances<V>(mask: Mask, t: Types<V>)
    requires Registered(t.wraps)
    ensures Balanced(Created(mask, t, 0, multiset{}), t)
  {
    BuildIsGood(mask, t, 64, 0);
  }

  lemma UpdatedBalances<V>(s: State<V>, t: Types<V>, mask: Mask)
    requires Registered(t.wraps) && Balanced(s, t)
    ensures Balanced(Updated(s, t, mask), t)
  {
    if mask != s.mask {
      BuildIsGood(mask, t, 64, s.next);
      var (block, next) := Build(mask, t, 64, s.next);
      SameSerials(Moved(block, s.block, 64), block);
    }
  }

  lemma WriteBalances<V>(s: State<V>, t: Types<V>, i: nat, v: V)
    requires Registered(t.wraps) && Balanced(s, t) && i in s.block
    ensures Balanced(Step(s, t, Write(i, v)), t)
  {
    SameSerials(s.block[i := Instance(s.block[i].serial, v)], s.block);
  }

  lemma StepBalances<V>(s: State<V>, t: Types<V>, op: Op<V>)
    requires Registered(t.wraps) && Balanced(s, t)
    ensures Balanced(Step(s, t, op), t)
  {
    match op
    case Write(i, v) => if i in s.block { WriteBalances(s, t, i, v); }
    case Update(mask) => UpdatedBalances(s, t, mask);
    case Add(mask) => UpdatedBalances(s, t, Or(s.mask, mask));
    case Remove(mask) => UpdatedBalances(s, t, AndNot(s.mask, mask));
  }

  /** Whatever the owner does with its components, none of them is destructed twice or lost. */
  lemma {:induction false} EveryRunBalances<V>(s: State<V>, t: Types<V>, ops: seq<Op<V>>)
    requires Registered(t.wraps) && Balanced(s, t)
    ensures Balanced(Run(s, t, ops), t)
    decreases |ops|
  {
    if ops != [] {
      StepBalances(s, t, ops[0]);
      EveryRunBalances(Step(s, t, ops[0]), t, ops[1..]);
    }
  }

  /** From construction to destruction every component that was constructed is destructed exactly
      once. */
  lemma EachDestructedOnce<V>(mask: Mask, t: Types<V>, ops: seq<Op<V>>)
    requires Registered(t.wraps)
    ensures var end := Destroyed(Run(Created(mask, t, 0, multiset{}), t, ops));
            forall x: nat :: end.destructed[x] == if x < end.next then 1 else 0
  {
    CreatedBalances(mask, t);
    var s := Created(mask, t, 0, multiset{});
    EveryRunBalances(s, t, ops);
    var r := Run(s, t, ops);
    forall x: nat ensures Destroyed(r).destructed[x] == if x < r.next then 1 else 0 {
      assert Accounts(r);
      assert x in Serials(r.block) ==> x < r.next;
    }
  }

  // ---------------------------------------------------------------- values

  /** What `Get` gives: a null pointer or the component. */
  function Get<V>(s: State<V>, i: nat): Option<V> {
    if i in s.block then Some(s.block[i].value) else None
  }

  function MaskAfter<V>(mask: Mask, op: Op<V>): Mask {
    match op
    case Update(m) => m
    case Add(m) => Or(mask, m)
    case Remove(m) => AndNot(mask, m)
    case Write(_, _) => mask
  }

  /** One component on its own: it is there as long as its bit is, it begins with the value its
      constructor gives and then holds what was written to it last. */
  function Alone<V>(value: Option<V>, mask: Mask, t: Types<V>, ops: seq<Op<V>>, i: nat): Option<V>
    requires i < 64 && |t.wraps| == 64
    decreases |ops|
  {
    if ops == [] then value
    else
      var after := MaskAfter(mask, ops[0]);
      Alone(AfterOne(value, after, t, ops[0], i), after, t, ops[1..], i)
  }

  function AfterOne<V>(value: Option<V>, after: Mask, t: Types<V>, op: Op<V>, i: nat): Option<V>
    requires i < 64 && |t.wraps| == 64
  {
    if !Present(after, t.wraps, i) then None
    else if value == None then Some(t.construct(i))
    else if op.Write? && op.index == i then Some(op.value)
    else value
  }

  lemma UpdateForOne<V>(s: State<V>, t: Types<V>, mask: Mask, i: nat)
    requires Registered(t.wraps) && Balanced(s, t) && i < 64
    ensures Get(Updated(s, t, mask), i) == AfterOne(Get(s, i), mask, t, Update(mask), i)
  {
    BuildIsGood(mask, t, 64, s.next);
  }

  lemma StepForOne<V>(s: State<V>, t: Types<V>, op: Op<V>, i: nat)
    requires Registered(t.wraps) && Balanced(s, t) && i < 64
    ensures Step(s, t, op).mask == MaskAfter(s.mask, op)
    ensures Get(Step(s, t, op), i) == AfterOne(Get(s, i), MaskAfter(s.mask, op), t, op, i)
  {
    if !op.Write? { UpdateForOne(s, t, MaskAfter(s.mask, op), i); }
  }

  /** However the blocks are rebuilt, each component lives as if it were alone. */
  lemma {:induction false} EachLivesAlone<V>(s: State<V>, t: Types<V>, ops: seq<Op<V>>, i: nat)
    requires Registered(t.wraps) && Balanced(s, t) && i < 64
    ensures Get(Run(s, t, ops), i) == Alone(Get(s, i), s.mask, t, ops, i)
    decreases |ops|
  {
    if ops != [] {
      StepBalances(s, t, ops[0]);
      StepForOne(s, t, ops[0], i);
      EachLivesAlone(Step(s, t, ops[0]), t, ops[1..], i);
    }
  }

  /** Add and Remove change exactly the components that they name. */
  lemma AddAndRemove<V>(s: State<V>, t: Types<V>, mask: Mask)
    requires Registered(t.wraps) && Balanced(s, t)
    ensures Step(s, t, Add(mask)).block.Keys == s.block.Keys + Components(mask, t.wraps, 64)
    ensures Step(s, t, Remove(mask)).block.Keys == s.block.Keys - Components(mask, t.wraps, 64)
  {
    UpdatedBalances(s, t, Or(s.mask, mask));
    UpdatedBalances(s, t, AndNot(s.mask, mask));
    forall i: nat | i < 64
      ensures Present(Or(s.mask, mask), t.wraps, i) <==> Present(s.mask, t.wraps, i) || Present(mask, t.wraps, i)
      ensures Present(AndNot(s.mask, mask), t.wraps, i) <==> Present(s.mask, t.wraps, i) && !Present(mask, t.wraps, i)
    {
      MaskAdds(s.mask, mask, i);
      MaskRemoves(s.mask, mask, i);
    }
  }

  // ---------------------------------------------------------------- the composer

  /** The constructions and the destructions that have been made. */
  class Ledger {
    var next: nat
    ghost var destructed: multiset<nat>

    constructor ()
      ensures next == 0 && destructed == multiset{}
    {
      next, destructed := 0, multiset{};
    }
  }

  class Composer<V(!new)> {
    const types: Types<V>
    const ledger: Ledger
    var mask: Mask
    var block: Block<V>   // the zero data when the mask is zero

    ghost predicate Valid()
      reads this, ledger
    {
      Registered(types.wraps) && Balanced(Model(), types)
    }

    ghost function Model(): State<V>
      reads this, ledger
    {
      State(mask, block, ledger.next, ledger.destructed)
    }

    /** RuntimeComposerBase(mask) */
    constructor (mask: Mask, types: Types<V>, ledger: Ledger)
      requires Registered(types.wraps)
      modifies ledger
      ensures this.types == types && this.ledger == ledger
      ensures Model() == Created(mask, types, old(ledger.next), old(ledger.destructed))
    {
      this.types, this.ledger := types, ledger;
      this.mask, this.block := mask, map[];
      new;
      hide Present, Offset, Last;
      var last := if mask == 0 then 0 else Last(mask, 0);
      NothingFromLast(mask, last);
      if mask != 0 {
        var i := 0;
        while i < last
          invariant 0 <= i <= last && this.mask == mask
          invariant (block, ledger.next) == Build(mask, types, i, old(ledger.next))
          invariant ledger.destructed == old(ledger.destructed)
        {
          var has := HasSlot(mask, i);
          if has {
            block := block[i := Instance(ledger.next, types.construct(i))];
            ledger.next := ledger.next + 1;
          }
          i := i + 1;
        }
      }
      BuiltAtLast(mask, types, last, 64, old(ledger.next));
    }

    /** Whether the offset that the layout of `mask` has for the component is beyond the pointer. */
    method HasSlot(mask: Mask, i: nat) returns (has: bool)
      requires Registered(types.wraps) && i < 64
      ensures has <==> Present(mask, types.wraps, i)
    {
      has := Offset(mask, types.wraps, i) >= META_SIZE;
    }

    /** ~RuntimeComposerBase() */
    method Destruct()
      requires Registered(types.wraps) && block.Keys == Components(mask, types.wraps, 64) && Distinct(block)
      modifies this, ledger
      ensures Model() == Destroyed(old(Model())) && block == map[] && ledger.next == old(ledger.next)
      ensures ledger.destructed == old(ledger.destructed) + multiset(Serials(old(block)))
    {
      if mask != 0 {
        DestructAll();
        NothingFromLast(mask, Last(mask, 0));
        AllSerials(block, Last(mask, 0));
      } else {
        NothingFromLast(mask, 0);
        assert Serials(block) == {};
      }
      block := map[];
    }

    method DestructAll()
      requires Registered(types.wraps) && block.Keys == Components(mask, types.wraps, 64)
      modifies ledger`destructed
      ensures ledger.destructed == old(ledger.destructed) + SerialsBelow(block, Last(mask, 0))
    {
      var last := Last(mask, 0);
      var i := 0;
      while i < last
        invariant 0 <= i <= last
        invariant ledger.destructed == old(ledger.destructed) + SerialsBelow(block, i)
      {
        var has := HasSlot(mask, i);
        if has {
          ledger.destructed := ledger.destructed + multiset{block[i].serial};
        }
        i := i + 1;
      }
    }

    /** Whether the components had to change; true means that the block was rebuilt. */
    method UpdateComponents(mask: Mask) returns (changed: bool)
      requires Valid()
      modifies this, ledger
      ensures Valid() && changed == (mask != old(this.mask))
      ensures Model() == Updated(old(Model()), types, mask)
    {
      UpdatedBalances(Model(), types, mask);
      if this.mask == mask {
        return false;
      }
      BuildIsGood(mask, types, 64, ledger.next);
      var result := new Composer(mask, types, ledger);
      var data, meta := this.block, this.mask;
      this.block, this.mask := result.block, result.mask;
      result.block, result.mask := data, meta;
      MoveFrom(result);
      result.Destruct();
      return true;
    }

    /** The loop that moves the components common to both blocks. */
    method MoveFrom(result: Composer<V>)
      requires result != this && result.types == types && Registered(types.wraps)
      requires block.Keys == Components(mask, types.wraps, 64)
      requires result.block.Keys == Components(result.mask, types.wraps, 64)
      modifies this`block
      ensures block == Moved(old(block), result.block, 64)
    {
      hide Offset, Last;
      ghost var was := block;
      var last := if mask == 0 then 0 else Last(mask, 0);
      NothingFromLast(mask, last);
      NothingFromLast(result.mask, if result.mask == 0 then 0 else Last(result.mask, 0));
      if mask != 0 && result.mask != 0 {
        var i := 0;
        while i != last
          invariant 0 <= i <= last && block == Moved(was, result.block, i)
        {
          var has := HasSlot(mask, i);
          var had := HasSlot(result.mask, i);
          if has && had {
            block := block[i := Instance(block[i].serial, result.block[i].value)];
          }
          OneMoved(was, result.block, i);
          i := i + 1;
        }
      }
      AllMoved(was, result.block, last);
    }

    method AddComponents(mask: Mask) returns (changed: bool)
      requires Valid()
      modifies this, ledger
      ensures Valid() && Model() == Step(old(Model()), types, Add(mask))
      ensures changed == (Or(old(this.mask), mask) != old(this.mask))
    {
      changed := UpdateComponents(Or(this.mask, mask));
    }

    method RemoveComponents(mask: Mask) returns (changed: bool)
      requires Valid()
      modifies this, ledger
      ensures Valid() && Model() == Step(old(Model()), types, Remove(mask))
      ensures changed == (AndNot(old(this.mask), mask) != old(this.mask))
    {
      changed := UpdateComponents(AndNot(this.mask, mask));
    }
  }

  // ---------------------------------------------------------------- loops that stop at `last`

  ghost function SerialsBelow<V>(block: Block<V>, n: nat): multiset<nat> {
    if n == 0 then multiset{}
    else SerialsBelow(block, n - 1) + if n - 1 in block then multiset{block[n - 1].serial} else multiset{}
  }

  lemma {:induction false} CountSerials<V>(block: Block<V>, n: nat, x: nat)
    requires Distinct(block)
    ensures SerialsBelow(block, n)[x] == if exists i :: i in block && i < n && block[i].serial == x then 1 else 0
  {
    if n > 0 {
      CountSerials(block, n - 1, x);
    }
  }

  lemma AllSerials<V>(block: Block<V>, n: nat)
    requires Distinct(block) && forall i :: i in block ==> i < n
    ensures SerialsBelow(block, n) == multiset(Serials(block))
  {
    forall x: nat ensures SerialsBelow(block, n)[x] == multiset(Serials(block))[x] {
      CountSerials(block, n, x);
    }
  }

  lemma OneMoved<V>(block: Block<V>, was: Block<V>, i: nat)
    ensures Moved(block, was, i + 1) ==
            if i in block && i in was then Moved(block, was, i)[i := Instance(block[i].serial, was[i].value)]
            else Moved(block, was, i)
  {
  }

  lemma AllMoved<V>(block: Block<V>, was: Block<V>, n: nat)
    requires n <= 64 && forall i :: i in block && i in was ==> i < n
    ensures Moved(block, was, n) == Moved(block, was, 64)
    ensures block == Moved(block, was, 0)
  {
  }

  lemma NothingFromLast(mask: Mask, last: nat)
    requires last == if mask == 0 then 0 else Last(mask, 0)
    ensures forall j :: last <= j < 64 ==> !Has(mask, j)
  {
    forall j: nat | last <= j < 64 ensures !Has(mask, j) {
      if mask == 0 { NoBits(j); } else { LastIsAbove(mask, 0, j); }
    }
  }

  lemma {:induction false} BuiltAtLast<V>(mask: Mask, t: Types<V>, last: nat, n: nat, next: nat)
    requires Registered(t.wraps) && last <= n <= 64 && forall j :: last <= j < n ==> !Has(mask, j)
    ensures Build(mask, t, n, next) == Build(mask, t, last, next)
  {
    if last < n { BuiltAtLast(mask, t, last, n - 1, next); }
  }
}
