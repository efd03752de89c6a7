/** Orders of values: lists that rise strictly, and the order of strings by their units. */
module OrderedNames {

  ghost predicate Strict<T(!new)>(before: (T, T) -> bool) {
    && (forall a :: !before(a, a))
    && (forall a, b, c :: before(a, b) && before(b, c) ==> before(a, c))
  }

  ghost predicate Rising<T>(list: seq<T>, before: (T, T) -> bool) {
    forall i, j :: 0 <= i < j < |list| ==> before(list[i], list[j])
  }

  /** What is in a rising list says in which order it is. */
  lemma {:induction false} OneRisingList<T(!new)>(list: seq<T>, other: seq<T>, before: (T, T) -> bool)
    requires Strict(before) && Rising(list, before) && Rising(other, before)
    requires forall x :: x in list <==> x in other
    ensures list == other
  {
    HasFirst(list);
    HasFirst(other);
    if list != [] {
      FirstsAgree(list, other, before);
      OneRisingList(list[1..], other[1..], before);
      assert list == [list[0]] + list[1..] && other == [other[0]] + other[1..];
    }
  }

  lemma HasFirst<T>(list: seq<T>)
    ensures list == [] || list[0] in list
  {
  }

  lemma FirstsAgree<T(!new)>(list: seq<T>, other: seq<T>, before: (T, T) -> bool)
    requires Strict(before) && Rising(list, before) && Rising(other, before)
    requires list != [] && other != [] && forall x :: x in list <==> x in other
    ensures list[0] == other[0] && forall x :: x in list[1..] <==> x in other[1..]
  {
    assert list[0] in list && other[0] in other;
    var i :| 0 <= i < |other| && other[i] == list[0];
    var j :| 0 <= j < |list| && list[j] == other[0];
    NotAgain(list, before);
    NotAgain(other, before);
  }

  lemma NotAgain<T(!new)>(list: seq<T>, before: (T, T) -> bool)
    requires Strict(before) && Rising(list, before) && list != []
    ensures forall x :: x in list[1..] <==> x in list && x != list[0]
  {
    forall x | x in list && x != list[0] ensures x in list[1..] {
      var i :| 0 <= i < |list| && list[i] == x;
      assert list[1..][i - 1] == x;
    }
  }

  type Name = seq<nat>

  /** The first unit in which two strings differ decides; a string comes before its continuations. */
  predicate Earlier(a: Name, b: Name) {
    b != [] && (a == [] || a[0] < b[0] || (a[0] == b[0] && Earlier(a[1..], b[1..])))
  }

  lemma {:induction false} EarlierTrans(a: Name, b: Name, c: Name)
    requires Earlier(a, b) && Earlier(b, c)
    ensures Earlier(a, c)
  {
    if a != [] && a[0] == b[0] == c[0] { EarlierTrans(a[1..], b[1..], c[1..]); }
  }

  lemma {:induction false} NotEarlier(a: Name)
    ensures !Earlier(a, a)
  {
    if a != [] { NotEarlier(a[1..]); }
  }

  lemma {:induction false} OneIsEarlier(a: Name, b: Name)
    ensures a == b || Earlier(a, b) || Earlier(b, a)
  {
    if a != [] && b != [] {
      OneIsEarlier(a[1..], b[1..]);
      assert a == [a[0]] + a[1..] && b == [b[0]] + b[1..];
    }
  }

  lemma EarlierIsStrict()
    ensures Strict(Earlier)
  {
    forall a ensures !Earlier(a, a) { NotEarlier(a); }
    forall a, b, c | Earlier(a, b) && Earlier(b, c) ensures Earlier(a, c) { EarlierTrans(a, b, c); }
  }

  lemma {:induction false} FirstExists(names: set<Name>, name: Name)
    requires name in names
    ensures exists first :: first in names && forall n :: n in names ==> n == first || Earlier(first, n)
    decreases |names|
  {
    if other :| other in names && Earlier(other, name) {
      NotEarlier(name);
      FirstExists(names - {name}, other);
      var first :| first in names - {name} && forall n :: n in names - {name} ==> n == first || Earlier(first, n);
      if first != other { EarlierTrans(first, other, name); }
      assert first in names && forall n :: n in names ==> n == first || Earlier(first, n);
    } else {
      forall n | n in names ensures n == name || Earlier(name, n) { OneIsEarlier(n, name); }
      assert name in names;
    }
  }

  /** The name with which the iteration over an ordered map begins. */
  function First(names: set<Name>): (first: Name)
    requires names != {}
    ensures first in names && forall n :: n in names ==> n == first || Earlier(first, n)
  {
    var name :| name in names;
    FirstExists(names, name);
    FirstIsUnique(names);
    var first :| first in names && forall n :: n in names ==> n == first || Earlier(first, n);
    first
  }

  lemma FirstIsUnique(names: set<Name>)
    ensures forall a, b :: a in names && b in names && Earlier(a, b) ==> !Earlier(b, a)
  {
    forall a, b | a in names && b in names && Earlier(a, b) ensures !Earlier(b, a) {
      if Earlier(b, a) { EarlierTrans(a, b, a); NotEarlier(a); }
    }
  }
}
