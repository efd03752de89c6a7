/** Two guards that share one atomic cell, destroyed by two threads in any interleaving. */
module BinaryGuard {
  import opened Options

  type Cell = nat       // the address of an atomic bool, never given twice
  type Guard = nat
  type Thread = nat

  /** The shared atomic; and how often it was exchanged and deleted so far. */
  datatype Atomic = Atomic(bothAlive: bool, exchanged: nat, deleted: nat)

  /** Who has the pointer: a guard, or a thread that took it from one and is yet to exchange. */
  datatype Holder = InGuard(g: Guard) | Taken(t: Thread)

  /** `deleting` are the threads whose exchange failed and that are yet to delete. */
  datatype State = State(cells: map<Cell, Atomic>, holders: map<Holder, Cell>, deleting: map<Thread, Cell>, next: Cell)

  /** The atomic steps.  A move construction is a Move; a destruction or an assignment of null is a
      Take, if the guard has a cell, then an Exchange and perhaps a Delete; a move assignment is
      that and a Move. */
  datatype Step =
    | Make(first: Guard, second: Guard)
    | Move(from: Guard, to: Guard)
    | Take(g: Guard, t: Thread)
    | Exchange(t: Thread)
    | Delete(t: Thread)
    | Load(g: Guard)

  ghost predicate Enabled(s: State, step: Step) {
    match step
    case Make(g, h) => g != h && InGuard(g) !in s.holders && InGuard(h) !in s.holders
    case Move(_, to) => InGuard(to) !in s.holders
    case Take(g, t) => InGuard(g) in s.holders && Taken(t) !in s.holders && t !in s.deleting
    case Exchange(t) => Taken(t) in s.holders
    case Delete(t) => t in s.deleting
    case Load(g) => true
  }

  /** The cell that a step reads or writes, if it does. */
  function Touched(s: State, step: Step): set<Cell> {
    match step
    case Exchange(t) => if Taken(t) in s.holders then {s.holders[Taken(t)]} else {}
    case Delete(t) => if t in s.deleting then {s.deleting[t]} else {}
    case Load(g) => if InGuard(g) in s.holders then {s.holders[InGuard(g)]} else {}
    case _ => {}
  }

  function Renamed(holders: map<Holder, Cell>, from: Holder, to: Holder): map<Holder, Cell> {
    if from in holders then (holders - {from})[to := holders[from]] else holders
  }

  /** compare_exchange_strong(true, false); true if the cell held true. */
  function Exchanged(s: State, t: Thread): State
    requires Taken(t) in s.holders && s.holders[Taken(t)] in s.cells
  {
    var c := s.holders[Taken(t)];
    var a := s.cells[c];
    State(s.cells[c := Atomic(false, a.exchanged + 1, a.deleted)],
          s.holders - {Taken(t)},
          if a.bothAlive then s.deleting else s.deleting[t := c],
          s.next)
  }

  function Deleted(s: State, t: Thread): State
    requires t in s.deleting && s.deleting[t] in s.cells
  {
    var c := s.deleting[t];
    var a := s.cells[c];
    s.(cells := s.cells[c := a.(deleted := a.deleted + 1)], deleting := s.deleting - {t})
  }

  ghost predicate Placed(s: State) {
    && (forall c :: c in s.cells ==> c < s.next)
    && (forall h :: h in s.holders ==> s.holders[h] in s.cells)
    && (forall t :: t in s.deleting ==> s.deleting[t] in s.cells && Taken(t) !in s.holders)
  }

  function After(s: State, step: Step): State
    requires Placed(s) && Enabled(s, step)
  {
    match step
    case Make(g, h) =>
      s.(cells := s.cells[s.next := Atomic(true, 0, 0)],
         holders := s.holders[InGuard(g) := s.next][InGuard(h) := s.next],
         next := s.next + 1)
    case Move(from, to) => s.(holders := Renamed(s.holders, InGuard(from), InGuard(to)))
    case Take(g, t) => s.(holders := Renamed(s.holders, InGuard(g), Taken(t)))
    case Exchange(t) => Exchanged(s, t)
    case Delete(t) => Deleted(s, t)
    case Load(g) => s
  }

  // ---------------------------------------------------------------- the invariant

  function Holders(holders: map<Holder, Cell>, c: Cell): set<Holder> {
    set h | h in holders && holders[h] == c
  }

  function Deleters(deleting: map<Thread, Cell>, c: Cell): set<Thread> {
    set t | t in deleting && deleting[t] == c
  }

  /** A cell is made with two holders, and each of them exchanges it once; it holds true until the
      first has done so, and the second is the one that deletes it. */
  ghost predicate Kept(s: State, c: Cell)
    requires c in s.cells
  {
    var a := s.cells[c];
    && a.exchanged + |Holders(s.holders, c)| == 2
    && (a.bothAlive <==> a.exchanged == 0)
    && a.deleted + |Deleters(s.deleting, c)| == if a.exchanged == 2 then 1 else 0
  }

  ghost predicate Inv(s: State) {
    Placed(s) && forall c :: c in s.cells ==> Kept(s, c)
  }

  lemma RenamedKeeps(holders: map<Holder, Cell>, from: Holder, to: Holder, c: Cell)
    requires to !in holders
    ensures |Holders(Renamed(holders, from, to), c)| == |Holders(holders, c)|
  {
    var was, now := Holders(holders, c), Holders(Renamed(holders, from, to), c);
    if from in was {
      assert now == was - {from} + {to};
    } else {
      assert now == was;
    }
  }

  lemma MadeKeeps(s: State, g: Guard, h: Guard)
    requires Inv(s) && Enabled(s, Make(g, h))
    ensures Inv(After(s, Make(g, h)))
  {
    var t := After(s, Make(g, h));
    assert Holders(s.holders, s.next) == {} && Deleters(s.deleting, s.next) == {};
    assert Holders(t.holders, s.next) == {InGuard(g), InGuard(h)};
    forall c | c in t.cells && c != s.next ensures Kept(t, c) {
      assert Holders(t.holders, c) == Holders(s.holders, c);
      assert Kept(s, c);
    }
  }

  lemma OneHolderLess(holders: map<Holder, Cell>, h: Holder, c: Cell)
    requires h in holders
    ensures |Holders(holders - {h}, c)| == |Holders(holders, c)| - if holders[h] == c then 1 else 0
  {
    assert Holders(holders - {h}, c) == Holders(holders, c) - {h};
  }

  lemma OneDeleterMore(deleting: map<Thread, Cell>, t: Thread, d: Cell, c: Cell)
    requires t !in deleting
    ensures |Deleters(deleting[t := d], c)| == |Deleters(deleting, c)| + if d == c then 1 else 0
  {
    assert Deleters(deleting[t := d], c) == Deleters(deleting, c) + if d == c then {t} else {};
  }

  lemma ExchangedKeeps(s: State, t: Thread)
    requires Inv(s) && Enabled(s, Exchange(t))
    ensures Inv(After(s, Exchange(t)))
  {
    var u := After(s, Exchange(t));
    forall c | c in u.cells ensures Kept(u, c) {
      assert Kept(s, c);
      OneHolderLess(s.holders, Taken(t), c);
      if t !in s.deleting { OneDeleterMore(s.deleting, t, s.holders[Taken(t)], c); }
    }
  }

  lemma OneDeleterLess(deleting: map<Thread, Cell>, t: Thread, c: Cell)
    requires t in deleting
    ensures |Deleters(deleting - {t}, c)| == |Deleters(deleting, c)| - if deleting[t] == c then 1 else 0
  {
    assert Deleters(deleting - {t}, c) == Deleters(deleting, c) - {t};
  }

  lemma DeletedKeeps(s: State, t: Thread)
    requires Inv(s) && Enabled(s, Delete(t))
    ensures Inv(After(s, Delete(t)))
  {
    var u := After(s, Delete(t));
    forall c | c in u.cells ensures Kept(u, c) {
      assert Kept(s, c);
      OneDeleterLess(s.deleting, t, c);
    }
  }

  lemma StepKeeps(s: State, step: Step)
    requires Inv(s) && Enabled(s, step)
    ensures Inv(After(s, step))
  {
    match step
    case Make(g, h) => MadeKeeps(s, g, h);
    case Move(from, to) =>
      forall c | c in s.cells ensures Kept(After(s, step), c) {
        RenamedKeeps(s.holders, InGuard(from), InGuard(to), c);
        assert Kept(s, c);
      }
    case Take(g, t) =>
      forall c | c in s.cells ensures Kept(After(s, step), c) {
        RenamedKeeps(s.holders, InGuard(g), Taken(t), c);
        assert Kept(s, c);
      }
    case Exchange(t) => ExchangedKeeps(s, t);
    case Delete(t) => DeletedKeeps(s, t);
    case Load(_) =>
  }

  // ---------------------------------------------------------------- what a step does

  /** The pointer of a guard or of a thread; None is the null pointer. */
  function Pointer(s: State, h: Holder): Option<Cell> {
    if h in s.holders then Some(s.holders[h]) else None
  }

  ghost predicate OthersPoint(s: State, t: State, h: Holder, k: Holder) {
    forall other :: other != h && other != k ==> Pointer(t, other) == Pointer(s, other)
  }

  /** A pointer goes from one holder to the other, also if it is null. */
  ghost predicate PointerGoes(s: State, t: State, from: Holder, to: Holder) {
    && Pointer(t, to) == Pointer(s, from) && Pointer(t, from) == None && OthersPoint(s, t, from, to)
    && t.cells == s.cells && t.deleting == s.deleting
  }

  /** Exactly what each step does to the pointers and to the cells. */
  lemma StepIs(s: State, step: Step)
    requires Inv(s) && Enabled(s, step)
    ensures var t := After(s, step);
            match step
            case Make(g, h) =>
              && (exists c :: c !in s.cells && Pointer(t, InGuard(g)) == Pointer(t, InGuard(h)) == Some(c)
                              && t.cells == s.cells[c := Atomic(true, 0, 0)])
              && OthersPoint(s, t, InGuard(g), InGuard(h)) && t.deleting == s.deleting
            case Move(from, to) => PointerGoes(s, t, InGuard(from), InGuard(to))
            case Take(g, th) => PointerGoes(s, t, InGuard(g), Taken(th))
            case Exchange(th) =>
              var c := s.holders[Taken(th)];
              && Pointer(t, Taken(th)) == None && OthersPoint(s, t, Taken(th), Taken(th))
              && t.cells == s.cells[c := Atomic(false, s.cells[c].exchanged + 1, s.cells[c].deleted)]
              && t.deleting == (if s.cells[c].bothAlive then s.deleting else s.deleting[th := c])
            case Delete(th) =>
              var c := s.deleting[th];
              && t.holders == s.holders && t.deleting == s.deleting - {th}
              && t.cells == s.cells[c := s.cells[c].(deleted := s.cells[c].deleted + 1)]
            case Load(_) => t == s
  {
    hide Kept;
    match step
    case Make(g, h) =>
      assert s.next !in s.cells && Pointer(After(s, step), InGuard(g)) == Some(s.next);
    case _ =>
  }

  /** A step changes no cell but the ones it touches and the one it makes, and whether a guard is alive
      depends on no other cell than the one that its load touches. */
  lemma OnlyTouched(s: State, step: Step)
    requires Inv(s) && Enabled(s, step)
    ensures forall c :: c in s.cells && c !in Touched(s, step) ==>
              c in After(s, step).cells && After(s, step).cells[c] == s.cells[c]
    ensures step.Load? && Pointer(s, InGuard(step.g)).Some? ==>
              Touched(s, step) == {Pointer(s, InGuard(step.g)).value}
  {
    hide Kept;
  }

  // ---------------------------------------------------------------- every interleaving

  ghost predicate CanRun(s: State, steps: seq<Step>)
    requires Placed(s)
    decreases |steps|
  {
    steps == [] || (Enabled(s, steps[0]) && Placed(After(s, steps[0])) && CanRun(After(s, steps[0]), steps[1..]))
  }

  function Run(s: State, steps: seq<Step>): (r: State)
    requires Placed(s) && CanRun(s, steps)
    ensures Placed(r)
    decreases |steps|
  {
    if steps == [] then s else Run(After(s, steps[0]), steps[1..])
  }

  lemma RunGoesOn(s: State, step: Step, steps: seq<Step>)
    requires Placed(s) && Enabled(s, step) && Placed(After(s, step)) && CanRun(After(s, step), steps)
    ensures CanRun(s, [step] + steps) && Run(s, [step] + steps) == Run(After(s, step), steps) && Run(s, []) == s
  {
    assert ([step] + steps)[1..] == steps;
  }

  const START := State(map[], map[], map[], 0)

  lemma {:induction false} EveryRunKeeps(s: State, steps: seq<Step>)
    requires Inv(s) && CanRun(s, steps)
    ensures Inv(Run(s, steps))
    decreases |steps|
  {
    if steps != [] {
      StepKeeps(s, steps[0]);
      EveryRunKeeps(After(s, steps[0]), steps[1..]);
    }
  }

  /** No step reads or writes a cell that has been deleted. */
  lemma NoUseAfterDelete(steps: seq<Step>, step: Step, c: Cell)
    requires CanRun(START, steps) && Enabled(Run(START, steps), step) && c in Touched(Run(START, steps), step)
    ensures c in Run(START, steps).cells && Run(START, steps).cells[c].deleted == 0
  {
    var s := Run(START, steps);
    EveryRunKeeps(START, steps);
    assert Kept(s, c);
    match step
    case Exchange(t) => assert Taken(t) in Holders(s.holders, c);
    case Delete(t) => assert t in Deleters(s.deleting, c);
    case Load(g) => assert InGuard(g) in Holders(s.holders, c);
  }

  /** A cell that nobody has any more was deleted exactly once; while somebody has it, not at all. */
  lemma DeletedExactlyOnce(steps: seq<Step>, c: Cell)
    requires CanRun(START, steps) && c in Run(START, steps).cells
    ensures var s := Run(START, steps);
            s.cells[c].deleted == if Holders(s.holders, c) == {} && Deleters(s.deleting, c) == {} then 1 else 0
  {
    var s := Run(START, steps);
    EveryRunKeeps(START, steps);
    assert Kept(s, c);
    assert |Holders(s.holders, c)| == 0 <==> Holders(s.holders, c) == {};
    assert |Deleters(s.deleting, c)| == 0 <==> Deleters(s.deleting, c) == {};
  }

  /** bool(guard) */
  function Alive(s: State, g: Guard): bool
    requires Placed(s)
  {
    InGuard(g) in s.holders && s.cells[s.holders[InGuard(g)]].bothAlive
  }

  /** A guard is alive exactly as long as the guard made with it, wherever it has moved since, still
      has the cell or is yet to exchange it; then both are holders of the same cell. */
  lemma AliveWhileBoth(steps: seq<Step>, g: Guard)
    requires CanRun(START, steps) && InGuard(g) in Run(START, steps).holders
    ensures var s := Run(START, steps);
            Alive(s, g) <==> exists h :: h in s.holders && h != InGuard(g) && s.holders[h] == s.holders[InGuard(g)]
  {
    var s := Run(START, steps);
    EveryRunKeeps(START, steps);
    var c := s.holders[InGuard(g)];
    assert Kept(s, c);
    var others := Holders(s.holders, c) - {InGuard(g)};
    assert |others| == |Holders(s.holders, c)| - 1;
    if h :| h in s.holders && h != InGuard(g) && s.holders[h] == c {
      assert h in others;
    } else {
      assert others == {};
    }
  }

  /** Once a guard is no longer alive it stays so until something else is moved into it. */
  lemma DeadStaysDead(s: State, step: Step, g: Guard)
    requires Inv(s) && Enabled(s, step) && !Alive(s, g)
    requires !(step.Make? && (step.first == g || step.second == g)) && !(step.Move? && step.to == g)
    ensures Inv(After(s, step)) && !Alive(After(s, step), g)
  {
    StepKeeps(s, step);
  }

  /** destroy() without another thread in between. */
  function Destroyed(s: State, g: Guard, t: Thread): State
    requires Placed(s) && Taken(t) !in s.holders && t !in s.deleting
  {
    if InGuard(g) !in s.holders then s
    else
      var exchanged := After(After(s, Take(g, t)), Exchange(t));
      if t in exchanged.deleting then After(exchanged, Delete(t)) else exchanged
  }

  lemma AtMostOnce(s: State, g: Guard)
    requires Inv(s) && InGuard(g) in s.holders
    ensures var a := s.cells[s.holders[InGuard(g)]];
            a.exchanged <= 1 && (a.bothAlive <==> a.exchanged == 0) && a.deleted == 0
  {
    var c := s.holders[InGuard(g)];
    assert Kept(s, c) && InGuard(g) in Holders(s.holders, c);
  }

  /** The guard has no cell then, and its cell is deleted exactly if the other guard has exchanged it
      before; all the others are as they were. */
  lemma DestroyedLeaves(s: State, g: Guard, t: Thread)
    requires Inv(s) && Taken(t) !in s.holders && t !in s.deleting && InGuard(g) in s.holders
    ensures var u, c := Destroyed(s, g, t), s.holders[InGuard(g)];
            && u.holders == s.holders - {InGuard(g)} && u.deleting == s.deleting
            && u.cells == s.cells[c := Atomic(false, s.cells[c].exchanged + 1, if s.cells[c].bothAlive then 0 else 1)]
  {
    hide Deleters;
    var c := s.holders[InGuard(g)];
    AtMostOnce(s, g);
    hide Kept;
    var taken := After(s, Take(g, t));
    assert taken.holders - {Taken(t)} == s.holders - {InGuard(g)};
  }

  lemma GuardIsEmpty(s: State, g: Guard, t: Thread)
    requires Inv(s) && Taken(t) !in s.holders && t !in s.deleting
    ensures var u := Destroyed(s, g, t);
            && Pointer(u, InGuard(g)) == None && OthersPoint(s, u, InGuard(g), InGuard(g)) && u.deleting == s.deleting
  {
    if InGuard(g) in s.holders { DestroyedLeaves(s, g, t); }
  }

  // ---------------------------------------------------------------- the methods

  /** The memory that all the guards share; each method is one atomic step of some thread. */
  class Memory {
    var cells: map<Cell, Atomic>
    var holders: map<Holder, Cell>
    var deleting: map<Thread, Cell>
    var next: Cell

    ghost function Model(): State
      reads this
    {
      State(cells, holders, deleting, next)
    }

    constructor ()
      ensures Model() == START && Inv(Model())
    {
      cells, holders, deleting, next := map[], map[], map[], 0;
    }

    method MakeBinaryGuard(first: Guard, second: Guard)
      requires Inv(Model()) && Enabled(Model(), Make(first, second))
      modifies this
      ensures Inv(Model()) && Model() == After(old(Model()), Make(first, second))
    {
      StepKeeps(Model(), Make(first, second));
      cells := cells[next := Atomic(true, 0, 0)];
      holders := holders[InGuard(first) := next][InGuard(second) := next];
      next := next + 1;
    }

    method MoveTo(from: Guard, to: Guard)
      requires Inv(Model()) && Enabled(Model(), Move(from, to))
      modifies this
      ensures Inv(Model()) && Model() == After(old(Model()), Move(from, to))
    {
      StepKeeps(Model(), Move(from, to));
      if InGuard(from) in holders {
        var both := holders[InGuard(from)];
        holders := holders - {InGuard(from)};
        holders := holders[InGuard(to) := both];
      }
    }

    /** The move assignment, without another thread in between: the guard gives up what it has and takes
        over the pointer of the other one, unless that is the guard itself. */
    method MoveAssign(from: Guard, to: Guard, t: Thread)
      requires Inv(Model()) && Taken(t) !in holders && t !in deleting
      modifies this
      ensures Inv(Model()) && (from == to ==> Model() == old(Model()))
      ensures from != to ==>
                && Pointer(Model(), InGuard(to)) == Pointer(old(Model()), InGuard(from))
                && Pointer(Model(), InGuard(from)) == None
                && OthersPoint(old(Model()), Model(), InGuard(from), InGuard(to))
                && cells == Destroyed(old(Model()), to, t).cells && deleting == old(deleting)
    {
      if to != from {
        GuardIsEmpty(Model(), to, t);
        Destroy(to, t);
        ghost var s := Model();
        MoveTo(from, to);
        StepIs(s, Move(from, to));
      }
    }

    /** destroy() without another thread in between. */
    method Destroy(g: Guard, t: Thread)
      requires Inv(Model()) && Taken(t) !in holders && t !in deleting
      modifies this
      ensures Inv(Model()) && Model() == Destroyed(old(Model()), g, t)
    {
      if InGuard(g) in holders {
        TakeFrom(g, t);
        var exchanged := CompareExchange(t);
        if !exchanged {
          DeleteCell(t);
        }
      }
    }

    method TakeFrom(g: Guard, t: Thread)
      requires Inv(Model()) && Enabled(Model(), Take(g, t))
      modifies this
      ensures Inv(Model()) && Model() == After(old(Model()), Take(g, t))
    {
      StepKeeps(Model(), Take(g, t));
      holders := (holders - {InGuard(g)})[Taken(t) := holders[InGuard(g)]];
    }

    method CompareExchange(t: Thread) returns (exchanged: bool)
      requires Inv(Model()) && Enabled(Model(), Exchange(t))
      modifies this
      ensures Inv(Model()) && Model() == After(old(Model()), Exchange(t))
      ensures exchanged == old(cells[holders[Taken(t)]].bothAlive)
    {
      StepKeeps(Model(), Exchange(t));
      var both := holders[Taken(t)];
      holders := holders - {Taken(t)};
      exchanged := cells[both].bothAlive;
      if !exchanged {
        deleting := deleting[t := both];
      }
      cells := cells[both := Atomic(false, cells[both].exchanged + 1, cells[both].deleted)];
    }

    method DeleteCell(t: Thread)
      requires Inv(Model()) && Enabled(Model(), Delete(t))
      modifies this
      ensures Inv(Model()) && Model() == After(old(Model()), Delete(t))
    {
      hide Kept;
      var both := deleting[t];
      ghost var after := After(Model(), Delete(t));
      DeletedKeeps(Model(), t);
      cells := cells[both := cells[both].(deleted := cells[both].deleted + 1)];
      deleting := deleting - {t};
      assert Model() == after;
    }
  }
}
