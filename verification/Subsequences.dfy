/** One list within another. */
module Subsequences {

  /** The list is all there, in its order, with anything in between. */
  ghost predicate Within<T>(list: seq<T>, all: seq<T>)
    decreases |all|
  {
    list == [] ||
    (all != [] && (Within(list, all[..|all| - 1]) ||
                   (list[|list| - 1] == all[|all| - 1] && Within(list[..|list| - 1], all[..|all| - 1]))))
  }

  lemma WithinOne<T>(list: seq<T>, all: seq<T>, x: T)
    requires Within(list, all)
    ensures Within(list + [x], all + [x])
  {
    assert (list + [x])[..|list|] == list && (all + [x])[..|all|] == all;
  }

  lemma {:induction false} WithinMore<T>(list: seq<T>, all: seq<T>, more: seq<T>)
    requires Within(list, all) && all <= more
    ensures Within(list, more)
    decreases |more|
  {
    if |all| < |more| {
      WithinMore(list, all, more[..|more| - 1]);
    } else {
      assert all == more;
    }
  }

  lemma {:induction false} WithinBoth<T>(a: seq<T>, all: seq<T>, b: seq<T>, rest: seq<T>)
    requires Within(a, all) && Within(b, rest)
    ensures Within(a + b, all + rest)
    decreases |rest|
  {
    if b == [] {
      assert a + b == a;
      WithinMore(a, all, all + rest);
    } else {
      var n, k := |rest| - 1, |b| - 1;
      assert (all + rest)[..|all + rest| - 1] == all + rest[..n];
      if Within(b, rest[..n]) {
        WithinBoth(a, all, b, rest[..n]);
      } else {
        WithinBoth(a, all, b[..k], rest[..n]);
        assert (a + b)[..|a + b| - 1] == a + b[..k];
      }
    }
  }
}
