/** The least element of a finite set of integers: where an ordered container starts,
    and the earliest of several deadlines. */
module OrderedKeys {

  lemma MinExists(keys: set<int>, x: int)
    requires x in keys
    ensures exists k :: k in keys && forall j :: j in keys ==> k <= j
    decreases |keys|
  {
    if y :| y in keys && y < x {
      var rest := keys - {x};
      MinExists(rest, y);
      var k :| k in rest && forall j :: j in rest ==> k <= j;
      assert k <= y;
      assert forall j :: j in keys ==> j == x || j in rest;
      assert k in keys && forall j :: j in keys ==> k <= j;
    } else {
      assert x in keys && forall j :: j in keys ==> x <= j;
    }
  }

  lemma EmptyOrMember(keys: set<int>)
    ensures keys == {} || exists x :: x in keys
  {
    if forall x :: x !in keys {
      assert keys == {};
    }
  }

  function Min(keys: set<int>): (k: int)
    requires keys != {}
    ensures k in keys && forall j :: j in keys ==> k <= j
    ensures |keys - {k}| < |keys|
  {
    EmptyOrMember(keys);
    var x :| x in keys;
    MinExists(keys, x);
    var k :| k in keys && forall j :: j in keys ==> k <= j;
    k
  }

  lemma MinIs(keys: set<int>, k: int)
    requires k in keys && forall j :: j in keys ==> k <= j
    ensures keys != {} && Min(keys) == k
  {
  }
}
