/** The sorted containers that hold several elements of the same rank: flat_multi_set, and
    flat_multi_map with whole pairs as elements. */
module FlatMultis {
  import opened FlatStorage
  import opened FlatSets

  /** The elements of one rank, in their order. */
  function Of<T>(s: seq<T>, rank: T -> int, r: int): seq<T> {
    if s == [] then [] else (if rank(s[0]) == r then [s[0]] else []) + Of(s[1..], rank, r)
  }

  lemma {:induction false} OfBoth<T>(a: seq<T>, b: seq<T>, rank: T -> int, r: int)
    ensures Of(a + b, rank, r) == Of(a, rank, r) + Of(b, rank, r)
  {
    if a == [] {
      assert a + b == b;
    } else {
      OfBoth(a[1..], b, rank, r);
      TailOfBoth(a, b);
      Assoc(if rank(a[0]) == r then [a[0]] else [], Of(a[1..], rank, r), Of(b, rank, r));
    }
  }

  lemma Assoc<T>(a: seq<T>, b: seq<T>, c: seq<T>)
    ensures a + b + c == a + (b + c)
  {
  }

  lemma TailOfBoth<T>(a: seq<T>, b: seq<T>)
    requires a != []
    ensures (a + b)[1..] == a[1..] + b && (a + b)[0] == a[0]
  {
  }

  lemma {:induction false} OfNone<T>(s: seq<T>, rank: T -> int, r: int)
    requires forall i :: 0 <= i < |s| ==> rank(s[i]) != r
    ensures Of(s, rank, r) == []
  {
    if s != [] { OfNone(s[1..], rank, r); }
  }

  lemma {:induction false} OfAll<T>(s: seq<T>, rank: T -> int, r: int)
    requires forall i :: 0 <= i < |s| ==> rank(s[i]) == r
    ensures Of(s, rank, r) == s
  {
    if s != [] { OfAll(s[1..], rank, r); }
  }

  lemma OfParts<T>(a: seq<T>, b: seq<T>, c: seq<T>, rank: T -> int, r: int)
    ensures Of(a + b + c, rank, r) == Of(a, rank, r) + Of(b, rank, r) + Of(c, rank, r)
    ensures Of(a + c, rank, r) == Of(a, rank, r) + Of(c, rank, r)
  {
    OfBoth(a + b, c, rank, r);
    OfBoth(a, b, rank, r);
    OfBoth(a, c, rank, r);
  }

  lemma {:induction false} OfHas<T>(s: seq<T>, rank: T -> int, r: int)
    ensures Of(s, rank, r) != [] <==> exists i :: 0 <= i < |s| && rank(s[i]) == r
  {
    if forall i :: 0 <= i < |s| ==> rank(s[i]) != r {
      OfNone(s, rank, r);
    } else {
      var i :| 0 <= i < |s| && rank(s[i]) == r;
      OfParts(s[..i], [s[i]], s[i + 1..], rank, r);
      assert s == s[..i] + [s[i]] + s[i + 1..];
    }
  }

  /** The order is determined by the ranks, and among elements of one rank by the order of those:
      what is sorted is the stable sort of what was put in. */
  lemma {:induction false} OneStableOrder<T>(s: seq<T>, t: seq<T>, rank: T -> int)
    requires Sorted(RanksOf(s, rank)) && Sorted(RanksOf(t, rank))
    requires forall r :: Of(s, rank, r) == Of(t, rank, r)
    ensures s == t
    decreases |s|
  {
    if s == [] || t == [] {
      BothEmpty(s, t, rank);
    } else {
      SameFirst(s, t, rank);
      forall r ensures Of(s[1..], rank, r) == Of(t[1..], rank, r) {
        assert Of(s, rank, r) == Of(t, rank, r);
        OfTail(s, rank, r);
        OfTail(t, rank, r);
      }
      TailSorted(s, rank);
      TailSorted(t, rank);
      OneStableOrder(s[1..], t[1..], rank);
      assert s == [s[0]] + s[1..] && t == [t[0]] + t[1..];
    }
  }

  lemma OfTail<T>(s: seq<T>, rank: T -> int, r: int)
    requires s != []
    ensures Of(s[1..], rank, r) == if rank(s[0]) == r then Of(s, rank, r)[1..] else Of(s, rank, r)
  {
  }

  lemma TailSorted<T>(s: seq<T>, rank: T -> int)
    requires Sorted(RanksOf(s, rank)) && s != []
    ensures Sorted(RanksOf(s[1..], rank))
  {
    var r := RanksOf(s, rank);
    assert forall i :: 0 <= i < |s| - 1 ==> RanksOf(s[1..], rank)[i] == r[i + 1];
  }

  lemma BothEmpty<T>(s: seq<T>, t: seq<T>, rank: T -> int)
    requires (s == [] || t == []) && forall r :: Of(s, rank, r) == Of(t, rank, r)
    ensures s == t
  {
    var other := s + t;
    if other != [] {
      var r := rank(other[0]);
      assert Of(s, rank, r) == Of(t, rank, r);
      OfHas(s, rank, r);
      OfHas(t, rank, r);
    }
  }

  lemma SameFirst<T>(s: seq<T>, t: seq<T>, rank: T -> int)
    requires Sorted(RanksOf(s, rank)) && Sorted(RanksOf(t, rank)) && s != [] && t != []
    requires forall r :: Of(s, rank, r) == Of(t, rank, r)
    ensures s[0] == t[0]
  {
    assert forall r :: Of(s, rank, r) == Of(t, rank, r);
    FirstIsLeast(s, t, rank);
    FirstIsLeast(t, s, rank);
    var p := rank(s[0]);
    assert Of(s, rank, p)[0] == s[0] && Of(t, rank, p)[0] == t[0];
  }

  /** Somewhere in t is the rank that s begins with. */
  lemma FirstIsLeast<T>(s: seq<T>, t: seq<T>, rank: T -> int)
    requires Sorted(RanksOf(t, rank)) && s != [] && t != []
    requires Of(s, rank, rank(s[0])) == Of(t, rank, rank(s[0]))
    ensures rank(t[0]) <= rank(s[0])
  {
    OfHas(t, rank, rank(s[0]));
    var i :| 0 <= i < |t| && rank(t[i]) == rank(s[0]);
    assert RanksOf(t, rank)[0] <= RanksOf(t, rank)[i];
  }

  // ---------------------------------------------------------------- places

  /** The first position whose rank is above r. */
  predicate IsUpper(ranks: seq<int>, r: int, k: nat) {
    && k <= |ranks|
    && (forall i :: 0 <= i < k ==> ranks[i] <= r)
    && (forall i :: k <= i < |ranks| ==> r < ranks[i])
  }

  lemma PutLast<T>(s: seq<T>, rank: T -> int, k: nat, x: T)
    requires Sorted(RanksOf(s, rank)) && IsUpper(RanksOf(s, rank), rank(x), k)
    ensures Sorted(RanksOf(Inserted(s, k, x), rank))
    ensures forall r :: Of(Inserted(s, k, x), rank, r) == Of(s, rank, r) + if r == rank(x) then [x] else []
  {
    var ranks := RanksOf(s, rank);
    assert forall i :: 0 <= i < |s| ==> rank(s[i]) == ranks[i];
    SortedStays(s, x, k, rank);
    forall r ensures Of(Inserted(s, k, x), rank, r) == Of(s, rank, r) + if r == rank(x) then [x] else [] {
      OfParts(s[..k], [x], s[k..], rank, r);
      assert s == s[..k] + s[k..];
      assert [x][1..] == [];
      if r == rank(x) {
        OfNone(s[k..], rank, r);
      }
    }
  }

  /** The run of the elements of rank r. */
  predicate IsRange(ranks: seq<int>, r: int, k: nat, m: nat) {
    k <= m && IsLower(ranks, r, k) && IsUpper(ranks, r, m)
  }

  lemma RangeIsRank<T>(s: seq<T>, rank: T -> int, r: int, k: nat, m: nat)
    requires Sorted(RanksOf(s, rank)) && IsRange(RanksOf(s, rank), r, k, m)
    ensures Of(s, rank, r) == s[k..m]
  {
    RangeSplits(s, rank, r, k, m);
    ThreeParts(s, k, m);
    OfParts(s[..k], s[k..m], s[m..], rank, r);
    OfNone(s[..k], rank, r);
    OfNone(s[m..], rank, r);
    OfAll(s[k..m], rank, r);
    NothingAround(s[k..m]);
  }

  lemma ThreeParts<T>(s: seq<T>, k: nat, m: nat)
    requires k <= m <= |s|
    ensures s == s[..k] + s[k..m] + s[m..]
  {
  }

  lemma NothingAround<T>(s: seq<T>)
    ensures [] + s + [] == s
  {
  }

  lemma RangeSplits<T>(s: seq<T>, rank: T -> int, r: int, k: nat, m: nat)
    requires IsRange(RanksOf(s, rank), r, k, m)
    ensures forall i :: 0 <= i < k ==> rank(s[i]) < r
    ensures forall i :: m <= i < |s| ==> r < rank(s[i])
    ensures forall i :: k <= i < m ==> rank(s[i]) == r
  {
    assert forall i :: 0 <= i < |s| ==> rank(s[i]) == RanksOf(s, rank)[i];
  }

  /** Cutting out some of the elements of one rank leaves all the other ranks. */
  lemma CutOut<T>(s: seq<T>, rank: T -> int, r: int, k: nat, m: nat)
    requires Sorted(RanksOf(s, rank)) && k <= m <= |s| && forall i :: k <= i < m ==> rank(s[i]) == r
    ensures Sorted(RanksOf(s[..k] + s[m..], rank))
    ensures forall q :: Of(s[..k] + s[m..], rank, q)
                      == if q == r then Of(s[..k], rank, r) + Of(s[m..], rank, r) else Of(s, rank, q)
  {
    CutSorted(s, rank, k, m);
    OfBoth(s[..k], s[m..], rank, r);
    forall q | q != r ensures Of(s[..k] + s[m..], rank, q) == Of(s, rank, q) {
      CutOther(s, rank, q, k, m);
    }
  }

  lemma CutSorted<T>(s: seq<T>, rank: T -> int, k: nat, m: nat)
    requires Sorted(RanksOf(s, rank)) && k <= m <= |s|
    ensures Sorted(RanksOf(s[..k] + s[m..], rank))
  {
    var rest := s[..k] + s[m..];
    var ranks := RanksOf(s, rank);
    assert forall i :: 0 <= i < |rest| ==> RanksOf(rest, rank)[i] == ranks[if i < k then i else i + (m - k)];
  }

  lemma CutOther<T>(s: seq<T>, rank: T -> int, q: int, k: nat, m: nat)
    requires k <= m <= |s| && forall i :: k <= i < m ==> rank(s[i]) != q
    ensures Of(s[..k] + s[m..], rank, q) == Of(s, rank, q)
  {
    ThreeParts(s, k, m);
    OfParts(s[..k], s[k..m], s[m..], rank, q);
    OfNone(s[k..m], rank, q);
  }

  class FlatMultiSet<T(!new)> {
    const rank: T -> int
    var data: seq<T>

    ghost predicate Valid()
      reads this
    {
      Sorted(RanksOf(data, rank))
    }

    constructor (rank: T -> int)
      ensures Valid() && data == [] && this.rank == rank
    {
      this.rank, data := rank, [];
    }

    method UpperBound(r: int) returns (k: nat)
      requires Valid()
      ensures IsUpper(RanksOf(data, rank), r, k)
    {
      k := 0;
      var hi := |data|;
      while k < hi
        invariant k <= hi <= |data|
        invariant forall i :: 0 <= i < k ==> RanksOf(data, rank)[i] <= r
        invariant forall i :: hi <= i < |data| ==> r < RanksOf(data, rank)[i]
      {
        var mid := (k + hi) / 2;
        assert RanksOf(data, rank)[mid] == rank(data[mid]);
        if rank(data[mid]) <= r { k := mid + 1; } else { hi := mid; }
      }
    }

    /** The value becomes the last of its rank. */
    method Insert(value: T) returns (where: nat)
      requires Valid()
      modifies this
      ensures Valid() && where < |data| && data[where] == value
      ensures forall r :: Of(data, rank, r) == Of(old(data), rank, r) + if r == rank(value) then [value] else []
    {
      if data == [] || rank(value) < rank(data[0]) {
        where := 0;
      } else if rank(data[|data| - 1]) <= rank(value) {
        where := |data|;
      } else {
        where := UpperBound(rank(value));
      }
      PutLast(data, rank, where, value);
      data := Inserted(data, where, value);
    }

    /** The first of the elements of that rank goes. */
    method RemoveOne(value: T) returns (removed: bool)
      requires Valid()
      modifies this
      ensures Valid() && removed == (Of(old(data), rank, rank(value)) != [])
      ensures forall r :: Of(data, rank, r) ==
                if r == rank(value) && removed then Of(old(data), rank, r)[1..] else Of(old(data), rank, r)
    {
      OfHas(data, rank, rank(value));
      if data == [] || rank(value) < rank(data[0]) || rank(data[|data| - 1]) < rank(value) {
        Outside(data, rank, rank(value));
        return false;
      }
      var where := LowerBound(data, rank, rank(value));
      assert RanksOf(data, rank)[where] == rank(data[where]);
      if rank(value) < rank(data[where]) {
        AtLower(data, rank, rank(value), where);
        return false;
      }
      FirstGoes(data, rank, rank(value), where);
      data := Erased(data, where);
      return true;
    }

    /** How many elements of that rank there are. */
    method Count(value: T) returns (count: nat)
      requires Valid()
      ensures count == |Of(data, rank, rank(value))|
    {
      OfHas(data, rank, rank(value));
      if data == [] || rank(value) < rank(data[0]) || rank(data[|data| - 1]) < rank(value) {
        Outside(data, rank, rank(value));
        return 0;
      }
      var from := LowerBound(data, rank, rank(value));
      var till := UpperBound(rank(value));
      RangeOrdered(data, rank, rank(value), from, till);
      RangeIsRank(data, rank, rank(value), from, till);
      count := till - from;
    }

    method RemoveAll(value: T) returns (count: nat)
      requires Valid()
      modifies this
      ensures Valid() && count == |Of(old(data), rank, rank(value))|
      ensures forall r :: Of(data, rank, r) == if r == rank(value) then [] else Of(old(data), rank, r)
    {
      OfHas(data, rank, rank(value));
      if data == [] || rank(value) < rank(data[0]) || rank(data[|data| - 1]) < rank(value) {
        Outside(data, rank, rank(value));
        return 0;
      }
      var from := LowerBound(data, rank, rank(value));
      var till := UpperBound(rank(value));
      RangeOrdered(data, rank, rank(value), from, till);
      RangeIsRank(data, rank, rank(value), from, till);
      if from == till {
        return 0;
      }
      RangeGoes(data, rank, rank(value), from, till);
      data := data[..from] + data[till..];
      count := till - from;
    }
  }

  lemma Outside<T>(s: seq<T>, rank: T -> int, r: int)
    requires Sorted(RanksOf(s, rank)) && (s == [] || r < rank(s[0]) || rank(s[|s| - 1]) < r)
    ensures Of(s, rank, r) == []
  {
    var ranks := RanksOf(s, rank);
    forall i | 0 <= i < |s| ensures rank(s[i]) != r {
      assert ranks[0] <= ranks[i] <= ranks[|s| - 1];
    }
    OfNone(s, rank, r);
  }

  lemma AtLower<T>(s: seq<T>, rank: T -> int, r: int, k: nat)
    requires Sorted(RanksOf(s, rank)) && IsLower(RanksOf(s, rank), r, k) && k < |s| && r < rank(s[k])
    ensures Of(s, rank, r) == []
  {
    var ranks := RanksOf(s, rank);
    forall i | 0 <= i < |s| ensures rank(s[i]) != r {
      assert i >= k ==> ranks[k] <= ranks[i];
      assert ranks[i] == rank(s[i]);
    }
    OfNone(s, rank, r);
  }

  lemma FirstGoes<T>(s: seq<T>, rank: T -> int, r: int, k: nat)
    requires Sorted(RanksOf(s, rank)) && IsLower(RanksOf(s, rank), r, k) && k < |s| && rank(s[k]) <= r
    ensures Sorted(RanksOf(Erased(s, k), rank)) && Of(s, rank, r) != []
    ensures forall q :: Of(Erased(s, k), rank, q) == if q == r then Of(s, rank, q)[1..] else Of(s, rank, q)
  {
    assert RanksOf(s, rank)[k] == rank(s[k]);
    CutOut(s, rank, r, k, k + 1);
    assert forall i :: 0 <= i < k ==> RanksOf(s, rank)[i] == rank(s[i]);
    OfNone(s[..k], rank, r);
    assert s == s[..k] + [s[k]] + s[k + 1..];
    OfParts(s[..k], [s[k]], s[k + 1..], rank, r);
    assert [s[k]][1..] == [];
    assert Of(s, rank, r) == [s[k]] + Of(s[k + 1..], rank, r);
  }

  lemma RangeOrdered<T>(s: seq<T>, rank: T -> int, r: int, k: nat, m: nat)
    requires IsLower(RanksOf(s, rank), r, k) && IsUpper(RanksOf(s, rank), r, m)
    ensures IsRange(RanksOf(s, rank), r, k, m)
  {
    var ranks := RanksOf(s, rank);
    assert m < |ranks| ==> r < ranks[m];
  }

  lemma RangeGoes<T>(s: seq<T>, rank: T -> int, r: int, k: nat, m: nat)
    requires Sorted(RanksOf(s, rank)) && IsRange(RanksOf(s, rank), r, k, m)
    ensures Sorted(RanksOf(s[..k] + s[m..], rank))
    ensures forall q :: Of(s[..k] + s[m..], rank, q) == if q == r then [] else Of(s, rank, q)
  {
    assert forall i :: 0 <= i < |s| ==> RanksOf(s, rank)[i] == rank(s[i]);
    CutOut(s, rank, r, k, m);
    OfNone(s[..k], rank, r);
    OfNone(s[m..], rank, r);
  }
}
