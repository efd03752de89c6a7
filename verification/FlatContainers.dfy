/** The sorted containers that keep their elements in a deque: flat_set and flat_map.

    A comparator is given by the rank of a key: compare(a, b) is rank(a) < rank(b), and keys of the
    same rank are the same for the container. */
module FlatStorage {

  /** What both containers keep: the ranks of their elements ascend strictly. */
  predicate Strict(ranks: seq<int>) {
    forall i, j :: 0 <= i < j < |ranks| ==> ranks[i] < ranks[j]
  }

  predicate Sorted(ranks: seq<int>) {
    forall i, j :: 0 <= i <= j < |ranks| ==> ranks[i] <= ranks[j]
  }

  /** The first position whose rank is not below r. */
  predicate IsLower(ranks: seq<int>, r: int, k: nat) {
    && k <= |ranks|
    && (forall i :: 0 <= i < k ==> ranks[i] < r)
    && (forall i :: k <= i < |ranks| ==> r <= ranks[i])
  }

  function RanksOf<T>(data: seq<T>, rank: T -> int): (ranks: seq<int>)
    ensures |ranks| == |data| && forall i :: 0 <= i < |data| ==> ranks[i] == rank(data[i])
  {
    seq(|data|, i requires 0 <= i < |data| => rank(data[i]))
  }

  /** std::lower_bound */
  method LowerBound<T>(data: seq<T>, rank: T -> int, r: int) returns (k: nat)
    requires Sorted(RanksOf(data, rank))
    ensures IsLower(RanksOf(data, rank), r, k)
  {
    k := 0;
    var hi := |data|;
    ghost var ranks := RanksOf(data, rank);
    while k < hi
      invariant k <= hi <= |data|
      invariant forall i :: 0 <= i < k ==> ranks[i] < r
      invariant forall i :: hi <= i < |data| ==> r <= ranks[i]
    {
      var mid := (k + hi) / 2;
      assert ranks[mid] == rank(data[mid]);
      if rank(data[mid]) < r { k := mid + 1; } else { hi := mid; }
    }
  }

  function Inserted<T>(s: seq<T>, k: nat, x: T): seq<T>
    requires k <= |s|
  {
    s[..k] + [x] + s[k..]
  }

  function Erased<T>(s: seq<T>, k: nat): seq<T>
    requires k < |s|
  {
    s[..k] + s[k + 1..]
  }

  /** The contents of a container, by the ranks of the keys. */
  ghost predicate Holds<T>(ranks: seq<int>, items: seq<T>, contents: map<int, T>) {
    && |items| == |ranks|
    && (forall i :: 0 <= i < |ranks| ==> ranks[i] in contents && contents[ranks[i]] == items[i])
    && (forall r :: r in contents ==> r in ranks)
  }

  lemma InsertKeeps<T>(ranks: seq<int>, items: seq<T>, contents: map<int, T>, k: nat, r: int, x: T)
    requires Strict(ranks) && Holds(ranks, items, contents) && IsLower(ranks, r, k) && (k < |ranks| ==> ranks[k] != r)
    ensures r !in contents
    ensures Strict(Inserted(ranks, k, r)) && Holds(Inserted(ranks, k, r), Inserted(items, k, x), contents[r := x])
  {
    NotBetween(ranks, r, k);
    InsertedAt(ranks, k, r);
    InsertedAt(items, k, x);
    HoldsInserted(ranks, items, contents, k, r, x);
  }

  lemma InsertedAt<T>(s: seq<T>, k: nat, x: T)
    requires k <= |s|
    ensures |Inserted(s, k, x)| == |s| + 1
    ensures forall i :: 0 <= i <= |s| ==> Inserted(s, k, x)[i] == if i < k then s[i] else if i == k then x else s[i - 1]
  {
  }

  lemma HoldsInserted<T>(ranks: seq<int>, items: seq<T>, contents: map<int, T>, k: nat, r: int, x: T)
    requires Holds(ranks, items, contents) && r !in contents && k <= |ranks|
    ensures Holds(Inserted(ranks, k, r), Inserted(items, k, x), contents[r := x])
  {
    InsertedAt(ranks, k, r);
    InsertedAt(items, k, x);
    forall q | q in contents[r := x] ensures q in Inserted(ranks, k, r) {
      if q != r {
        StillThere(ranks, k, r, q);
      } else {
        assert Inserted(ranks, k, r)[k] == r;
      }
    }
  }

  lemma StillThere(ranks: seq<int>, k: nat, r: int, q: int)
    requires k <= |ranks| && q in ranks
    ensures q in Inserted(ranks, k, r) && r in Inserted(ranks, k, r)
  {
    var more := Inserted(ranks, k, r);
    var i :| 0 <= i < |ranks| && ranks[i] == q;
    assert q == more[if i < k then i else i + 1];
    assert more[k] == r;
  }

  lemma NotBetween(ranks: seq<int>, r: int, k: nat)
    requires Strict(ranks) && IsLower(ranks, r, k) && (k < |ranks| ==> ranks[k] != r)
    ensures Strict(Inserted(ranks, k, r)) && r !in ranks
  {
    forall i | 0 <= i < |ranks| ensures ranks[i] != r {
      if k < i { assert ranks[k] < ranks[i]; }
    }
  }

  lemma NotOutside(ranks: seq<int>, r: int)
    requires Strict(ranks) && (ranks == [] || r < ranks[0] || ranks[|ranks| - 1] < r)
    ensures r !in ranks
  {
    forall i | 0 <= i < |ranks| ensures ranks[i] != r {
      if 0 < i { assert ranks[0] < ranks[i]; }
      if i < |ranks| - 1 { assert ranks[i] < ranks[|ranks| - 1]; }
    }
  }

  lemma ErasedAt<T>(s: seq<T>, k: nat)
    requires k < |s|
    ensures |Erased(s, k)| == |s| - 1
    ensures forall i :: 0 <= i < |s| - 1 ==> Erased(s, k)[i] == s[if i < k then i else i + 1]
  {
  }

  lemma EraseKeeps<T>(ranks: seq<int>, items: seq<T>, contents: map<int, T>, k: nat)
    requires Strict(ranks) && Holds(ranks, items, contents) && k < |ranks|
    ensures Strict(Erased(ranks, k)) && Holds(Erased(ranks, k), Erased(items, k), contents - {ranks[k]})
  {
    ErasedAt(ranks, k);
    ErasedAt(items, k);
    HoldsErased(ranks, items, contents, k);
  }

  lemma HoldsErased<T>(ranks: seq<int>, items: seq<T>, contents: map<int, T>, k: nat)
    requires Strict(ranks) && Holds(ranks, items, contents) && k < |ranks|
    ensures Holds(Erased(ranks, k), Erased(items, k), contents - {ranks[k]})
  {
    ErasedAt(ranks, k);
    ErasedAt(items, k);
    var less := Erased(ranks, k);
    forall r | r in contents - {ranks[k]} ensures r in less {
      var i :| 0 <= i < |ranks| && ranks[i] == r;
      assert less[if i < k then i else i - 1] == r;
    }
    forall i | 0 <= i < |less| ensures less[i] != ranks[k] {
      var j := if i < k then i else i + 1;
      assert less[i] == ranks[j];
      assert if j < k then ranks[j] < ranks[k] else ranks[k] < ranks[j];
    }
  }

  lemma AssignKeeps<T>(ranks: seq<int>, items: seq<T>, contents: map<int, T>, k: nat, x: T)
    requires Strict(ranks) && Holds(ranks, items, contents) && k < |ranks|
    ensures Holds(ranks, items[k := x], contents[ranks[k] := x])
  {
  }

  /** A key is there exactly if the first position not below it has its rank. */
  lemma FoundAtLower<T>(ranks: seq<int>, items: seq<T>, contents: map<int, T>, r: int, k: nat)
    requires Strict(ranks) && Holds(ranks, items, contents) && IsLower(ranks, r, k)
    ensures r in contents <==> k < |ranks| && ranks[k] == r
  {
    assert forall i :: k < i < |ranks| ==> ranks[k] < ranks[i];
  }

  lemma EmptyTogether<T>(ranks: seq<int>, items: seq<T>, contents: map<int, T>)
    requires Holds(ranks, items, contents)
    ensures contents == map[] <==> ranks == []
    ensures contents == map[] <==> items == []
  {
    if ranks != [] {
      assert ranks[0] in contents;
    } else {
      assert forall r :: r !in contents;
    }
  }

  lemma FirstAndRest<T>(s: seq<T>, t: seq<T>)
    requires s != [] && t != [] && s[0] == t[0] && Erased(s, 0) == Erased(t, 0)
    ensures s == t
  {
    assert s == [s[0]] + Erased(s, 0) && t == [t[0]] + Erased(t, 0);
  }

  /** Two containers with the same contents have their elements in the same order. */
  lemma {:induction false} OneOrder<T>(ranks: seq<int>, items: seq<T>, ranks': seq<int>, items': seq<T>,
                                       contents: map<int, T>)
    requires Strict(ranks) && Holds(ranks, items, contents) && Strict(ranks') && Holds(ranks', items', contents)
    ensures ranks == ranks' && items == items'
    decreases |ranks|
  {
    EmptyTogether(ranks, items, contents);
    EmptyTogether(ranks', items', contents);
    if contents != map[] {
      var i :| 0 <= i < |ranks| && ranks[i] == ranks'[0];
      var j :| 0 <= j < |ranks'| && ranks'[j] == ranks[0];
      assert i == 0 && j == 0;
      EraseKeeps(ranks, items, contents, 0);
      EraseKeeps(ranks', items', contents, 0);
      OneOrder(Erased(ranks, 0), Erased(items, 0), Erased(ranks', 0), Erased(items', 0), contents - {ranks[0]});
      FirstAndRest(ranks, ranks');
      FirstAndRest(items, items');
    }
  }
}

module FlatMaps {
  import opened FlatStorage
  import opened Options

  datatype Entry<K, V> = Entry(key: K, value: V)

  class FlatMap<K(!new), V> {
    const rank: K -> int
    const zero: V                    // Type()
    var data: seq<Entry<K, V>>
    ghost var contents: map<int, Entry<K, V>>

    ghost function Ranks(): seq<int>
      reads this
    {
      RanksOf(data, (e: Entry<K, V>) => rank(e.key))
    }

    ghost predicate Valid()
      reads this
    {
      Strict(Ranks()) && Holds(Ranks(), data, contents)
    }

    constructor (rank: K -> int, zero: V)
      ensures Valid() && contents == map[] && this.rank == rank && this.zero == zero
    {
      this.rank, this.zero := rank, zero;
      data, contents := [], map[];
    }

    method LowerBoundOf(key: K) returns (k: nat)
      requires Valid()
      ensures IsLower(Ranks(), rank(key), k)
    {
      k := LowerBound(data, (e: Entry<K, V>) => rank(e.key), rank(key));
    }

    /** Puts an entry where it belongs. */
    method Put(k: nat, key: K, value: V)
      requires Valid() && IsLower(Ranks(), rank(key), k) && (k < |data| ==> Ranks()[k] != rank(key))
      modifies this
      ensures Valid() && k < |data| && data[k] == Entry(key, value)
      ensures rank(key) !in old(contents) && contents == old(contents)[rank(key) := Entry(key, value)]
    {
      InsertKeeps(Ranks(), data, contents, k, rank(key), Entry(key, value));
      ghost var ranks := Inserted(Ranks(), k, rank(key));
      data := Inserted(data, k, Entry(key, value));
      contents := contents[rank(key) := Entry(key, value)];
      assert Ranks() == ranks;
    }

    /** try_emplace, and insert with the key of the entry: the map keeps an entry that it has. */
    method TryEmplace(key: K, value: V) returns (where: nat, inserted: bool)
      requires Valid()
      modifies this
      ensures Valid() && inserted == (rank(key) !in old(contents))
      ensures contents == if inserted then old(contents)[rank(key) := Entry(key, value)] else old(contents)
      ensures where < |data| && Ranks()[where] == rank(key)
    {
      if data == [] || rank(key) < rank(data[0].key) {
        Put(0, key, value);
        return 0, true;
      } else if rank(data[|data| - 1].key) < rank(key) {
        Put(|data|, key, value);
        return |data| - 1, true;
      }
      where := LowerBoundOf(key);
      FoundAtLower(Ranks(), data, contents, rank(key), where);
      if rank(key) < rank(data[where].key) {
        Put(where, key, value);
        return where, true;
      }
      return where, false;
    }

    /** The place of the value that operator[] gives; the key gets a default value if it is new. */
    method Index(key: K) returns (where: nat)
      requires Valid()
      modifies this
      ensures Valid() && where < |data| && Ranks()[where] == rank(key)
      ensures contents
              == if rank(key) in old(contents) then old(contents) else old(contents)[rank(key) := Entry(key, zero)]
    {
      if data == [] || rank(key) < rank(data[0].key) {
        Put(0, key, zero);
        return 0;
      } else if rank(data[|data| - 1].key) < rank(key) {
        Put(|data|, key, zero);
        return |data| - 1;
      }
      where := LowerBoundOf(key);
      FoundAtLower(Ranks(), data, contents, rank(key), where);
      if rank(key) < rank(data[where].key) {
        Put(where, key, zero);
      }
    }

    /** map[key] = value */
    method Assign(key: K, value: V)
      requires Valid()
      modifies this
      ensures Valid() && contents.Keys == old(contents).Keys + {rank(key)} && contents[rank(key)].value == value
      ensures forall r :: r in old(contents) && r != rank(key) ==> contents[r] == old(contents)[r]
    {
      var where := Index(key);
      AssignKeeps(Ranks(), data, contents, where, Entry(data[where].key, value));
      ghost var ranks := Ranks();
      contents := contents[rank(key) := Entry(data[where].key, value)];
      data := data[where := Entry(data[where].key, value)];
      assert Ranks() == ranks;
    }

    /** The position of the key, or that of the end. */
    method Find(key: K) returns (where: nat)
      requires Valid()
      ensures if rank(key) in contents
              then where < |data| && Ranks()[where] == rank(key) && data[where] == contents[rank(key)]
              else where == |data|
    {
      if data == [] || rank(key) < rank(data[0].key) || rank(data[|data| - 1].key) < rank(key) {
        NotOutside(Ranks(), rank(key));
        return |data|;
      }
      where := LowerBoundOf(key);
      FoundAtLower(Ranks(), data, contents, rank(key), where);
      if rank(key) < rank(data[where].key) {
        where := |data|;
      }
    }

    method EraseAt(where: nat)
      requires Valid() && where < |data|
      modifies this
      ensures Valid() && contents == old(contents) - {old(Ranks())[where]}
    {
      EraseKeeps(Ranks(), data, contents, where);
      ghost var ranks := Erased(Ranks(), where);
      contents := contents - {Ranks()[where]};
      data := Erased(data, where);
      assert Ranks() == ranks;
    }

    method Remove(key: K) returns (removed: bool)
      requires Valid()
      modifies this
      ensures Valid() && contents == old(contents) - {rank(key)} && removed == (rank(key) in old(contents))
    {
      if data == [] || rank(key) < rank(data[0].key) || rank(data[|data| - 1].key) < rank(key) {
        NotOutside(Ranks(), rank(key));
        return false;
      }
      var where := LowerBoundOf(key);
      FoundAtLower(Ranks(), data, contents, rank(key), where);
      if rank(key) < rank(data[where].key) {
        return false;
      }
      EraseAt(where);
      return true;
    }

    method Take(key: K) returns (result: Option<V>)
      requires Valid()
      modifies this
      ensures Valid() && contents == old(contents) - {rank(key)}
      ensures result == if rank(key) in old(contents) then Some(old(contents)[rank(key)].value) else None
    {
      var it := Find(key);
      if it == |data| {
        return None;
      }
      result := Some(data[it].value);
      EraseAt(it);
    }
  }
}

module FlatSets {
  import opened FlatStorage

  function ContentsOf<T>(data: seq<T>, rank: T -> int): map<int, T> {
    if data == [] then map[]
    else ContentsOf(data[..|data| - 1], rank)[rank(data[|data| - 1]) := data[|data| - 1]]
  }

  lemma {:induction false} ContentsAreHeld<T>(data: seq<T>, rank: T -> int)
    requires Strict(RanksOf(data, rank))
    ensures Holds(RanksOf(data, rank), data, ContentsOf(data, rank))
  {
    if data != [] {
      var n := |data| - 1;
      var before := data[..n];
      assert RanksOf(before, rank) == RanksOf(data, rank)[..n];
      ContentsAreHeld(before, rank);
      InsertKeeps(RanksOf(before, rank), before, ContentsOf(before, rank), n, rank(data[n]), data[n]);
      InsertedLast(RanksOf(data, rank));
      InsertedLast(data);
    }
  }

  lemma InsertedLast<T>(s: seq<T>)
    requires s != []
    ensures Inserted(s[..|s| - 1], |s| - 1, s[|s| - 1]) == s
  {
  }

  /** std::sort, of which only this is known: the elements are the same and they ascend. */
  method Sort<T(==)>(s: seq<T>, rank: T -> int) returns (sorted: seq<T>)
    ensures Sorted(RanksOf(sorted, rank)) && multiset(sorted) == multiset(s)
  {
    sorted := [];
    for i := 0 to |s|
      invariant Sorted(RanksOf(sorted, rank)) && multiset(sorted) == multiset(s[..i])
    {
      sorted := SortIn(sorted, s[i], rank);
      assert s[..i + 1] == s[..i] + [s[i]];
    }
    assert s[..|s|] == s;
  }

  method SortIn<T(==)>(s: seq<T>, x: T, rank: T -> int) returns (sorted: seq<T>)
    requires Sorted(RanksOf(s, rank))
    ensures Sorted(RanksOf(sorted, rank)) && multiset(sorted) == multiset(s) + multiset{x}
  {
    var k := |s|;
    while k > 0 && rank(x) < rank(s[k - 1])
      invariant 0 <= k <= |s|
      invariant forall i :: k <= i < |s| ==> rank(x) < rank(s[i])
    {
      k := k - 1;
    }
    sorted := Inserted(s, k, x);
    OneMoreMember(s, k, x);
    SortedStays(s, x, k, rank);
  }

  lemma OneMoreMember<T>(s: seq<T>, k: nat, x: T)
    requires k <= |s|
    ensures multiset(Inserted(s, k, x)) == multiset(s) + multiset{x}
  {
    assert s == s[..k] + s[k..];
  }

  lemma SortedStays<T>(s: seq<T>, x: T, k: nat, rank: T -> int)
    requires Sorted(RanksOf(s, rank)) && k <= |s|
    requires (k > 0 ==> rank(s[k - 1]) <= rank(x)) && forall i :: k <= i < |s| ==> rank(x) < rank(s[i])
    ensures Sorted(RanksOf(Inserted(s, k, x), rank))
  {
    InsertedAt(s, k, x);
    var r := RanksOf(s, rank);
    assert forall i :: 0 <= i < k ==> r[i] <= r[k - 1];
  }

  /** std::unique */
  method KeepFirst<T>(s: seq<T>, rank: T -> int) returns (kept: seq<T>)
    requires Sorted(RanksOf(s, rank))
    ensures Unique(kept, s, rank)
  {
    kept := [];
    var i := 0;
    while i < |s|
      invariant 0 <= i <= |s|
      invariant UniqueSoFar(kept, s, rank, i)
    {
      OneTurn(kept, s, i, rank);
      if kept == [] || rank(kept[|kept| - 1]) < rank(s[i]) {
        kept := kept + [s[i]];
      }
      i := i + 1;
    }
    AllSoFar(kept, s, rank);
  }

  ghost predicate UniqueSoFar<T>(kept: seq<T>, s: seq<T>, rank: T -> int, i: nat)
    requires i <= |s|
  {
    Unique(kept, s[..i], rank)
  }

  lemma AllSoFar<T>(kept: seq<T>, s: seq<T>, rank: T -> int)
    requires UniqueSoFar(kept, s, rank, |s|)
    ensures Unique(kept, s, rank)
  {
    assert s[..|s|] == s;
  }

  class FlatSet<T(==)> {
    const rank: T -> int
    var data: seq<T>
    ghost var contents: map<int, T>

    ghost predicate Valid()
      reads this
    {
      Strict(RanksOf(data, rank)) && Holds(RanksOf(data, rank), data, contents)
    }

    /** From a range: sorted, and then without duplicates. */
    constructor (rank: T -> int, list: seq<T>)
      ensures Valid() && this.rank == rank
      ensures forall r :: r in contents <==> r in RanksOf(list, rank)
      ensures forall r :: r in contents ==> contents[r] in list
    {
      this.rank := rank;
      data, contents := [], map[];
      new;
      data := Sort(list, rank);
      SameMembers(list, data, rank);
      Finalize();
    }

    /** std::unique and erase: of each run of equal elements the first one stays. */
    method Finalize()
      requires Sorted(RanksOf(data, rank))
      modifies this
      ensures Valid() && contents == ContentsOf(data, rank)
      ensures forall r :: r in contents <==> r in RanksOf(old(data), rank)
      ensures forall r :: r in contents ==> FirstOf(contents[r], old(data), rank)
    {
      var kept := KeepFirst(data, rank);
      UniqueContains(kept, data, rank);
      data := kept;
      contents := ContentsOf(data, rank);
    }

    method Put(k: nat, value: T)
      requires Valid() && IsLower(RanksOf(data, rank), rank(value), k) && (k < |data| ==> rank(data[k]) != rank(value))
      modifies this
      ensures Valid() && data == Inserted(old(data), k, value)
      ensures rank(value) !in old(contents) && contents == old(contents)[rank(value) := value]
    {
      InsertKeeps(RanksOf(data, rank), data, contents, k, rank(value), value);
      InsertedAt(data, k, value);
      ghost var ranks := Inserted(RanksOf(data, rank), k, rank(value));
      data := Inserted(data, k, value);
      contents := contents[rank(value) := value];
      assert RanksOf(data, rank) == ranks;
    }

    method Insert(value: T) returns (where: nat, inserted: bool)
      requires Valid()
      modifies this
      ensures Valid() && inserted == (rank(value) !in old(contents))
      ensures contents == if inserted then old(contents)[rank(value) := value] else old(contents)
      ensures where < |data| && rank(data[where]) == rank(value)
    {
      if data == [] || rank(value) < rank(data[0]) {
        Put(0, value);
        return 0, true;
      } else if rank(data[|data| - 1]) < rank(value) {
        Put(|data|, value);
        return |data| - 1, true;
      }
      where := LowerBound(data, rank, rank(value));
      FoundAtLower(RanksOf(data, rank), data, contents, rank(value), where);
      if rank(value) < rank(data[where]) {
        Put(where, value);
        return where, true;
      }
      return where, false;
    }

    /** The position of the value, or that of the end. */
    method Find(value: T) returns (where: nat)
      requires Valid()
      ensures if rank(value) in contents then where < |data| && rank(data[where]) == rank(value) else where == |data|
    {
      if data == [] || rank(value) < rank(data[0]) || rank(data[|data| - 1]) < rank(value) {
        NotOutside(RanksOf(data, rank), rank(value));
        return |data|;
      }
      where := LowerBound(data, rank, rank(value));
      FoundAtLower(RanksOf(data, rank), data, contents, rank(value), where);
      if rank(value) < rank(data[where]) {
        where := |data|;
      }
    }

    method Remove(value: T) returns (removed: bool)
      requires Valid()
      modifies this
      ensures Valid() && contents == old(contents) - {rank(value)} && removed == (rank(value) in old(contents))
    {
      if data == [] || rank(value) < rank(data[0]) || rank(data[|data| - 1]) < rank(value) {
        NotOutside(RanksOf(data, rank), rank(value));
        return false;
      }
      var where := LowerBound(data, rank, rank(value));
      FoundAtLower(RanksOf(data, rank), data, contents, rank(value), where);
      if rank(value) < rank(data[where]) {
        return false;
      }
      EraseAt(where);
      return true;
    }

    method EraseAt(where: nat)
      requires Valid() && where < |data|
      modifies this
      ensures Valid() && contents == old(contents) - {rank(old(data)[where])}
    {
      EraseKeeps(RanksOf(data, rank), data, contents, where);
      ErasedAt(data, where);
      ErasedAt(RanksOf(data, rank), where);
      ghost var ranks := Erased(RanksOf(data, rank), where);
      contents := contents - {rank(data[where])};
      data := Erased(data, where);
      assert RanksOf(data, rank) == ranks;
    }

    /** Which of two equal elements stays is not said, but one of them does. */
    method Merge(other: seq<T>)
      requires Valid()
      modifies this
      ensures Valid()
      ensures forall r :: r in contents <==> r in old(contents) || r in RanksOf(other, rank)
      ensures forall r :: r in contents ==> contents[r] in old(data) + other
    {
      ghost var all := data + other;
      data := Sort(data + other, rank);
      SameMembers(all, data, rank);
      SplitMembers(old(data), other, rank);
      Finalize();
    }
  }

  /** Of all the elements of its rank x is the first. */
  ghost predicate FirstOf<T>(x: T, s: seq<T>, rank: T -> int) {
    exists i :: 0 <= i < |s| && FirstAt(x, s, rank, i)
  }

  ghost predicate FirstAt<T>(x: T, s: seq<T>, rank: T -> int, i: nat)
    requires i < |s|
  {
    s[i] == x && forall k :: 0 <= k < i ==> rank(s[k]) != rank(x)
  }

  ghost predicate Firsts<T>(kept: seq<T>, s: seq<T>, rank: T -> int) {
    forall j :: 0 <= j < |kept| ==> FirstOf(kept[j], s, rank)
  }

  /** Every rank of s is among the ranks of what is kept. */
  ghost predicate Ranked<T>(kept: seq<T>, s: seq<T>, rank: T -> int) {
    forall i :: 0 <= i < |s| ==> rank(s[i]) in RanksOf(kept, rank)
  }

  ghost predicate Unique<T>(kept: seq<T>, s: seq<T>, rank: T -> int) {
    && Strict(RanksOf(kept, rank)) && Firsts(kept, s, rank) && Ranked(kept, s, rank)
    && (s == [] <==> kept == [])
    && (s != [] ==> rank(kept[|kept| - 1]) == rank(s[|s| - 1]))
  }

  lemma FirstStays<T>(x: T, s: seq<T>, rank: T -> int, i: nat)
    requires i < |s| && FirstOf(x, s[..i], rank)
    ensures FirstOf(x, s[..i + 1], rank)
  {
    var k :| 0 <= k < i && FirstAt(x, s[..i], rank, k);
    assert FirstAt(x, s[..i + 1], rank, k);
  }

  lemma NewIsFirst<T>(s: seq<T>, rank: T -> int, i: nat)
    requires i < |s| && Sorted(RanksOf(s, rank)) && (i > 0 ==> rank(s[i - 1]) < rank(s[i]))
    ensures FirstOf(s[i], s[..i + 1], rank)
  {
    assert forall k :: 0 <= k < i ==> RanksOf(s, rank)[k] <= RanksOf(s, rank)[i - 1];
    assert FirstAt(s[i], s[..i + 1], rank, i);
  }

  lemma FirstsStay<T>(kept: seq<T>, s: seq<T>, rank: T -> int, i: nat)
    requires i < |s| && Firsts(kept, s[..i], rank)
    ensures Firsts(kept, s[..i + 1], rank)
  {
    forall j | 0 <= j < |kept| ensures FirstOf(kept[j], s[..i + 1], rank) { FirstStays(kept[j], s, rank, i); }
  }

  /** One turn of std::unique. */
  lemma OneTurn<T>(kept: seq<T>, s: seq<T>, i: nat, rank: T -> int)
    requires i < |s| && UniqueSoFar(kept, s, rank, i) && Sorted(RanksOf(s, rank))
    ensures if kept == [] || rank(kept[|kept| - 1]) < rank(s[i]) then UniqueSoFar(kept + [s[i]], s, rank, i + 1)
            else UniqueSoFar(kept, s, rank, i + 1)
  {
    FirstsStay(kept, s, rank, i);
    if kept == [] || rank(kept[|kept| - 1]) < rank(s[i]) {
      NewIsFirst(s, rank, i);
      StillStrict(kept, rank, s[i]);
      StillRanked(kept, kept + [s[i]], s, rank, i);
    } else {
      assert RanksOf(s, rank)[i - 1] <= RanksOf(s, rank)[i];
      StillRanked(kept, kept, s, rank, i);
    }
  }

  lemma StillStrict<T>(kept: seq<T>, rank: T -> int, x: T)
    requires Strict(RanksOf(kept, rank)) && (kept == [] || rank(kept[|kept| - 1]) < rank(x))
    ensures Strict(RanksOf(kept + [x], rank))
  {
    var r := RanksOf(kept, rank);
    assert forall k :: 0 <= k < |r| ==> r[k] <= r[|r| - 1];
    assert RanksOf(kept + [x], rank) == r + [rank(x)];
  }

  lemma StillRanked<T>(kept: seq<T>, more: seq<T>, s: seq<T>, rank: T -> int, i: nat)
    requires i < |s| && more != [] && kept <= more && rank(more[|more| - 1]) == rank(s[i])
    requires Ranked(kept, s[..i], rank)
    ensures Ranked(more, s[..i + 1], rank)
  {
    var r, r', t := RanksOf(kept, rank), RanksOf(more, rank), s[..i + 1];
    assert r'[|more| - 1] == rank(s[i]);
    forall k | 0 <= k < |t| ensures rank(t[k]) in r' {
      if k < i {
        assert rank(s[..i][k]) in r;
        var j :| 0 <= j < |r| && r[j] == rank(t[k]);
        assert r'[j] == r[j];
      }
    }
  }

  lemma UniqueContains<T>(kept: seq<T>, s: seq<T>, rank: T -> int)
    requires Unique(kept, s, rank)
    ensures Holds(RanksOf(kept, rank), kept, ContentsOf(kept, rank))
    ensures forall r :: r in ContentsOf(kept, rank) <==> r in RanksOf(s, rank)
    ensures forall r :: r in ContentsOf(kept, rank) ==> FirstOf(ContentsOf(kept, rank)[r], s, rank)
  {
    ContentsAreHeld(kept, rank);
    var contents, ranks := ContentsOf(kept, rank), RanksOf(kept, rank);
    forall r | r in contents ensures r in RanksOf(s, rank) && FirstOf(contents[r], s, rank) {
      var i :| 0 <= i < |ranks| && ranks[i] == r;
      assert FirstOf(kept[i], s, rank);
      var j :| 0 <= j < |s| && FirstAt(kept[i], s, rank, j);
      assert RanksOf(s, rank)[j] == r;
    }
    forall r | r in RanksOf(s, rank) ensures r in contents {
      var j :| 0 <= j < |s| && RanksOf(s, rank)[j] == r;
      assert rank(s[j]) in ranks;
    }
  }

  lemma SameMembers<T>(s: seq<T>, t: seq<T>, rank: T -> int)
    requires multiset(s) == multiset(t)
    ensures forall x :: x in s <==> x in t
    ensures forall r :: r in RanksOf(s, rank) <==> r in RanksOf(t, rank)
  {
    assert forall x :: x in s <==> x in multiset(s);
    assert forall x :: x in t <==> x in multiset(t);
    SameRanks(s, t, rank);
    SameRanks(t, s, rank);
  }

  lemma SameRanks<T>(s: seq<T>, t: seq<T>, rank: T -> int)
    requires forall x :: x in s ==> x in t
    ensures forall r :: r in RanksOf(s, rank) ==> r in RanksOf(t, rank)
  {
    forall r | r in RanksOf(s, rank) ensures r in RanksOf(t, rank) {
      var i :| 0 <= i < |s| && RanksOf(s, rank)[i] == r;
      assert s[i] in t;
      var j :| 0 <= j < |t| && t[j] == s[i];
      assert RanksOf(t, rank)[j] == r;
    }
  }

  lemma SplitMembers<T>(s: seq<T>, t: seq<T>, rank: T -> int)
    ensures forall r :: r in RanksOf(s + t, rank) <==> r in RanksOf(s, rank) || r in RanksOf(t, rank)
  {
    assert RanksOf(s + t, rank) == RanksOf(s, rank) + RanksOf(t, rank);
  }
}

/** The order in which feedMsgs adds a batch of messages. */
module FeedMessages {
  import opened FlatStorage
  import opened FlatMaps

  const WORD: nat := 0x1_0000_0000

  /** (uint64(uint32(msgId)) << 32) | uint64(i), for an index that an int can hold. */
  function Position(id: int, i: nat): nat {
    id % WORD * WORD + i
  }

  /** Message i comes before message j: first by the id taken as unsigned, then by the index. */
  predicate Before(ids: seq<int>, i: nat, j: nat)
    requires i < |ids| && j < |ids|
  {
    ids[i] % WORD < ids[j] % WORD || (ids[i] % WORD == ids[j] % WORD && i < j)
  }

  ghost predicate InOrder(ids: seq<int>, added: seq<nat>) {
    && (forall a :: 0 <= a < |added| ==> added[a] < |ids|)
    && (forall a, b :: 0 <= a < b < |added| ==> Before(ids, added[a], added[b]))
  }

  lemma PositionsCompare(ids: seq<int>, i: nat, j: nat)
    requires i < |ids| <= 0x7FFF_FFFF && j < |ids|
    ensures Position(ids[i], i) < Position(ids[j], j) <==> Before(ids, i, j)
    ensures Position(ids[i], i) == Position(ids[j], j) <==> i == j
  {
  }

  /** `skip` tells of the messages that are in blocks already. */
  method FeedMsgs(ids: seq<int>, skip: seq<bool>) returns (added: seq<nat>)
    requires |ids| == |skip| <= 0x7FFF_FFFF
    ensures forall i: nat :: i in added <==> i < |ids| && !skip[i]
    ensures InOrder(ids, added)
  {
    var indices := Indices(ids, skip);
    added := [];
    var n := 0;
    while n < |indices.data|
      invariant 0 <= n <= |indices.data| && |added| == n
      invariant forall a :: 0 <= a < n ==> added[a] == indices.data[a].value
    {
      added := added + [indices.data[n].value];
      n := n + 1;
    }
    WalkedInOrder(indices.data, indices.Ranks(), indices.contents, ids, skip, added);
  }

  /** The map of the messages that are not skipped, by their positions. */
  method Indices(ids: seq<int>, skip: seq<bool>) returns (indices: FlatMap<nat, nat>)
    requires |ids| == |skip| <= 0x7FFF_FFFF
    ensures fresh(indices) && indices.Valid() && Indexed(indices.contents, ids, skip, |ids|)
  {
    indices := new FlatMap<nat, nat>(k => k, 0);
    var i := 0;
    while i != |ids|
      invariant 0 <= i <= |ids| && fresh(indices) && indices.Valid() && indices.rank == (k => k)
      invariant Indexed(indices.contents, ids, skip, i)
    {
      NewPosition(indices.contents, ids, skip, i);
      if !skip[i] {
        var position := Position(ids[i], i);
        var _, _ := indices.TryEmplace(position, i);
      }
      i := i + 1;
    }
  }

  /** The entries after the first n messages. */
  ghost predicate Indexed(contents: map<int, Entry<nat, nat>>, ids: seq<int>, skip: seq<bool>, n: nat)
    requires |ids| == |skip|
  {
    && n <= |ids|
    && (forall i: nat :: i < n && !skip[i] ==> Position(ids[i], i) in contents)
    && (forall r :: r in contents ==> contents[r].value < n && !skip[contents[r].value] && r == contents[r].key)
    && (forall r :: r in contents ==> r == Position(ids[contents[r].value], contents[r].value))
  }

  /** Every message that is not skipped gets an entry of its own. */
  lemma NewPosition(contents: map<int, Entry<nat, nat>>, ids: seq<int>, skip: seq<bool>, n: nat)
    requires |ids| == |skip| <= 0x7FFF_FFFF && Indexed(contents, ids, skip, n) && n < |ids|
    ensures var p := Position(ids[n], n);
            if skip[n] then Indexed(contents, ids, skip, n + 1)
            else p !in contents && Indexed(contents[p := Entry(p, n)], ids, skip, n + 1)
  {
    var p := Position(ids[n], n);
    if p in contents {
      PositionsCompare(ids, contents[p].value, n);
    }
  }

  lemma WalkedInOrder(data: seq<Entry<nat, nat>>, ranks: seq<int>, contents: map<int, Entry<nat, nat>>,
                      ids: seq<int>, skip: seq<bool>, added: seq<nat>)
    requires |ids| == |skip| <= 0x7FFF_FFFF && Indexed(contents, ids, skip, |ids|)
    requires Strict(ranks) && Holds(ranks, data, contents)
    requires |added| == |data| && forall a :: 0 <= a < |data| ==> added[a] == data[a].value
    ensures forall i: nat :: i in added <==> i < |ids| && !skip[i]
    ensures InOrder(ids, added)
  {
    forall i: nat | i < |ids| && !skip[i] ensures i in added {
      var p := Position(ids[i], i);
      var a :| 0 <= a < |ranks| && ranks[a] == p;
      PositionsCompare(ids, contents[p].value, i);
      assert added[a] == i;
    }
    forall a | 0 <= a < |added|
      ensures added[a] < |ids| && !skip[added[a]] && ranks[a] == Position(ids[added[a]], added[a])
    {
      assert ranks[a] in contents && contents[ranks[a]] == data[a];
    }
    forall a, b | 0 <= a < b < |added| ensures added[a] < |ids| && added[b] < |ids| && Before(ids, added[a], added[b]) {
      PositionsCompare(ids, added[a], added[b]);
    }
  }
}
