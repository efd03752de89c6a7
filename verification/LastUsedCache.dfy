/** The cache that orders its entries by their last use. */
module LastUsedCache {

  /** A reference: the time at which each entry was last used. */
  type Stamps<E> = map<E, nat>

  /** The entries of the stamps, each once, the one that was used longest ago first. */
  ghost predicate InOrder<E(!new)>(queue: seq<E>, stamps: Stamps<E>) {
    && (forall e :: e in queue <==> e in stamps)
    && (forall i, j :: 0 <= i < j < |queue| ==> stamps[queue[i]] < stamps[queue[j]])
  }

  function Without<E>(s: seq<E>, k: nat): (less: seq<E>)
    requires k < |s|
    ensures |less| == |s| - 1 && forall i :: 0 <= i < |less| ==> less[i] == s[if i < k then i else i + 1]
  {
    s[..k] + s[k + 1..]
  }

  /** An entry is used: it leaves its place and goes to the end. */
  lemma UsedLast<E(!new)>(queue: seq<E>, stamps: Stamps<E>, k: nat, e: E, now: nat)
    requires InOrder(queue, stamps) && (forall x :: x in stamps ==> stamps[x] < now)
    requires k < |queue| && queue[k] == e
    ensures InOrder(Without(queue, k) + [e], stamps[e := now])
  {
    Dropped(queue, stamps, k);
    Appended(Without(queue, k), stamps - {e}, e, now);
    assert (stamps - {e})[e := now] == stamps[e := now];
  }

  lemma Appended<E(!new)>(queue: seq<E>, stamps: Stamps<E>, e: E, now: nat)
    requires InOrder(queue, stamps) && (forall x :: x in stamps ==> stamps[x] < now) && e !in stamps
    ensures InOrder(queue + [e], stamps[e := now])
  {
    assert forall i :: 0 <= i < |queue| ==> queue[i] in stamps;
  }

  lemma Dropped<E(!new)>(queue: seq<E>, stamps: Stamps<E>, k: nat)
    requires InOrder(queue, stamps) && k < |queue|
    ensures InOrder(Without(queue, k), stamps - {queue[k]})
  {
    var less := Without(queue, k);
    forall e | e in queue && e != queue[k] ensures e in less {
      var i :| 0 <= i < |queue| && queue[i] == e;
      assert less[if i < k then i else i - 1] == e;
    }
    forall i | 0 <= i < |less| ensures less[i] in queue && less[i] != queue[k] {
      var j := if i < k then i else i + 1;
      assert less[i] == queue[j];
      assert stamps[queue[if j < k then j else k]] < stamps[queue[if j < k then k else j]];
    }
  }

  /** The first entry is the one whose last use is the longest ago, whatever was done before. */
  lemma FirstIsLowest<E(!new)>(queue: seq<E>, stamps: Stamps<E>, e: E)
    requires InOrder(queue, stamps) && e in stamps
    ensures queue != [] && stamps[queue[0]] <= stamps[e]
    ensures stamps[queue[0]] == stamps[e] ==> e == queue[0]
  {
    var i :| 0 <= i < |queue| && queue[i] == e;
    assert i > 0 ==> stamps[queue[0]] < stamps[queue[i]];
  }

  // ---------------------------------------------------------------- the list and the map

  /** Each entry has one node, and each node is in the list once. */
  ghost predicate Linked<E(!new)>(queue: seq<nat>, entry: map<nat, E>, place: map<E, nat>) {
    && (forall n :: n in queue <==> n in entry)
    && (forall n :: n in entry ==> entry[n] in place && place[entry[n]] == n)
    && (forall e :: e in place ==> place[e] in entry && entry[place[e]] == e)
    && (forall i, j :: 0 <= i < j < |queue| ==> queue[i] != queue[j])
  }

  function Recency<E>(queue: seq<nat>, entry: map<nat, E>): (entries: seq<E>)
    requires forall n :: n in queue ==> n in entry
    ensures |entries| == |queue| && forall i :: 0 <= i < |queue| ==> entries[i] == entry[queue[i]]
  {
    seq(|queue|, i requires 0 <= i < |queue| => entry[queue[i]])
  }

  lemma Unlinked<E(!new)>(queue: seq<nat>, entry: map<nat, E>, place: map<E, nat>, k: nat)
    requires Linked(queue, entry, place) && k < |queue|
    ensures Linked(Without(queue, k), entry - {queue[k]}, place - {entry[queue[k]]})
  {
    WithoutOne(queue, k);
  }

  lemma UnlinkedEntries<E(!new)>(queue: seq<nat>, entry: map<nat, E>, place: map<E, nat>, k: nat)
    requires Linked(queue, entry, place) && k < |queue|
    ensures forall n :: n in Without(queue, k) ==> n in entry - {queue[k]}
    ensures Recency(Without(queue, k), entry - {queue[k]}) == Without(Recency(queue, entry), k)
  {
    WithoutOne(queue, k);
    var less, now := Without(queue, k), entry - {queue[k]};
    forall i | 0 <= i < |less| ensures Recency(less, now)[i] == Without(Recency(queue, entry), k)[i] {
      assert less[i] in less;
    }
  }

  lemma Spliced<E(!new)>(queue: seq<nat>, entry: map<nat, E>, place: map<E, nat>, k: nat)
    requires Linked(queue, entry, place) && k < |queue|
    ensures Linked(Without(queue, k) + [queue[k]], entry, place)
  {
    WithoutOne(queue, k);
    var less := Without(queue, k);
    assert forall i :: 0 <= i < |less| ==> less[i] in less;
  }

  lemma SplicedEntries<E(!new)>(queue: seq<nat>, entry: map<nat, E>, place: map<E, nat>, k: nat)
    requires Linked(queue, entry, place) && k < |queue|
    ensures forall n :: n in Without(queue, k) + [queue[k]] ==> n in entry
    ensures Recency(Without(queue, k) + [queue[k]], entry) == Without(Recency(queue, entry), k) + [entry[queue[k]]]
  {
    WithoutOne(queue, k);
  }

  lemma Added<E(!new)>(queue: seq<nat>, entry: map<nat, E>, place: map<E, nat>, n: nat, e: E)
    requires Linked(queue, entry, place) && n !in entry && e !in place
    ensures Linked(queue + [n], entry[n := e], place[e := n])
    ensures Recency(queue + [n], entry[n := e]) == Recency(queue, entry) + [e]
  {
    assert forall i :: 0 <= i < |queue| ==> queue[i] in entry;
  }

  lemma WithoutOne(queue: seq<nat>, k: nat)
    requires k < |queue| && forall i, j :: 0 <= i < j < |queue| ==> queue[i] != queue[j]
    ensures var less := Without(queue, k);
            && (forall n :: n in less <==> n in queue && n != queue[k])
            && (forall i, j :: 0 <= i < j < |less| ==> less[i] != less[j])
  {
    var less := Without(queue, k);
    forall n | n in queue && n != queue[k] ensures n in less {
      var i :| 0 <= i < |queue| && queue[i] == n;
      assert less[if i < k then i else i - 1] == n;
    }
  }

  lemma PlaceIsThere<E(!new)>(queue: seq<nat>, entry: map<nat, E>, place: map<E, nat>, stamps: Stamps<E>, e: E)
    requires Linked(queue, entry, place) && InOrder(Recency(queue, entry), stamps)
    ensures e in place <==> e in stamps
    ensures e in place ==> place[e] in queue
  {
    var entries := Recency(queue, entry);
    if e in place {
      var k :| 0 <= k < |queue| && queue[k] == place[e];
      assert entries[k] == e;
    }
    if e in stamps {
      var k :| 0 <= k < |queue| && entries[k] == e;
      assert queue[k] in entry;
    }
  }

  /** Where the node is in the list. */
  method Position(queue: seq<nat>, n: nat) returns (k: nat)
    requires n in queue
    ensures k < |queue| && queue[k] == n
  {
    k := 0;
    while queue[k] != n
      invariant k < |queue| && n in queue[k..]
      decreases |queue| - k
    {
      assert queue[k..] == [queue[k]] + queue[k + 1..];
      k := k + 1;
    }
  }

  // ---------------------------------------------------------------- the cache

  /** The nodes of the list in their order, the entry of each, and the iterators that the map has. */
  datatype State<E> = State(queue: seq<nat>, entry: map<nat, E>, place: map<E, nat>, nextNode: nat)

  /** The list and the map agree, and the list has the entries of the stamps in their order. */
  ghost predicate Refines<E(!new)>(s: State<E>, stamps: Stamps<E>) {
    && Linked(s.queue, s.entry, s.place)
    && (forall n :: n in s.entry ==> n < s.nextNode)
    && InOrder(Recency(s.queue, s.entry), stamps)
  }

  ghost predicate Past<E(!new)>(stamps: Stamps<E>, now: nat) {
    forall e :: e in stamps ==> stamps[e] < now
  }

  function MovedLast<E>(s: State<E>, k: nat): State<E>
    requires k < |s.queue|
  {
    s.(queue := Without(s.queue, k) + [s.queue[k]])
  }

  function PushedLast<E>(s: State<E>, e: E): State<E> {
    State(s.queue + [s.nextNode], s.entry[s.nextNode := e], s.place[e := s.nextNode], s.nextNode + 1)
  }

  function ErasedAt<E>(s: State<E>, k: nat): State<E>
    requires k < |s.queue| && s.queue[k] in s.entry
  {
    s.(queue := Without(s.queue, k), entry := s.entry - {s.queue[k]}, place := s.place - {s.entry[s.queue[k]]})
  }

  lemma LastStays<E(!new)>(s: State<E>, stamps: Stamps<E>, e: E, now: nat)
    requires Refines(s, stamps) && Past(stamps, now)
    requires s.queue != [] && s.entry[s.queue[|s.queue| - 1]] == e
    ensures Refines(s, stamps[e := now])
  {
    var entries := Recency(s.queue, s.entry);
    UsedLast(entries, stamps, |s.queue| - 1, e, now);
    LastIsBack(entries);
  }

  lemma LastIsBack<T>(list: seq<T>)
    requires list != []
    ensures Without(list, |list| - 1) + [list[|list| - 1]] == list
  {
  }

  lemma MoveRefines<E(!new)>(s: State<E>, stamps: Stamps<E>, k: nat, now: nat)
    requires Refines(s, stamps) && Past(stamps, now) && k < |s.queue|
    ensures Refines(MovedLast(s, k), stamps[s.entry[s.queue[k]] := now])
  {
    UsedLast(Recency(s.queue, s.entry), stamps, k, s.entry[s.queue[k]], now);
    Spliced(s.queue, s.entry, s.place, k);
    SplicedEntries(s.queue, s.entry, s.place, k);
  }

  lemma PushRefines<E(!new)>(s: State<E>, stamps: Stamps<E>, e: E, now: nat)
    requires Refines(s, stamps) && Past(stamps, now) && e !in s.place
    ensures Refines(PushedLast(s, e), stamps[e := now])
  {
    PlaceIsThere(s.queue, s.entry, s.place, stamps, e);
    Appended(Recency(s.queue, s.entry), stamps, e, now);
    Added(s.queue, s.entry, s.place, s.nextNode, e);
  }

  lemma EraseRefines<E(!new)>(s: State<E>, stamps: Stamps<E>, k: nat)
    requires Refines(s, stamps) && k < |s.queue|
    ensures Refines(ErasedAt(s, k), stamps - {s.entry[s.queue[k]]})
  {
    Dropped(Recency(s.queue, s.entry), stamps, k);
    Unlinked(s.queue, s.entry, s.place, k);
    UnlinkedEntries(s.queue, s.entry, s.place, k);
  }

  lemma NowIsPast<E(!new)>(stamps: Stamps<E>, e: E, now: nat)
    requires Past(stamps, now)
    ensures Past(stamps[e := now], now + 1)
  {
  }

  class Cache<E(==,!new)> {
    var s: State<E>
    ghost var stamps: Stamps<E>
    ghost var now: nat

    ghost predicate Valid()
      reads this
    {
      Refines(s, stamps) && Past(stamps, now)
    }

    constructor ()
      ensures Valid() && stamps == map[] && now == 0
    {
      s, stamps, now := State([], map[], map[], 0), map[], 0;
    }

    method Up(e: E)
      requires Valid()
      modifies this
      ensures Valid() && now == old(now) + 1
      ensures stamps == old(stamps)[e := old(now)]
    {
      if s.queue != [] && s.entry[s.queue[|s.queue| - 1]] == e {
        LastStays(s, stamps, e, now);
      } else if e in s.place {
        SpliceToEnd(e);
      } else {
        PushRefines(s, stamps, e, now);
        s := PushedLast(s, e);
      }
      NowIsPast(stamps, e, now);
      stamps, now := stamps[e := now], now + 1;
    }

    method SpliceToEnd(e: E)
      requires Refines(s, stamps) && Past(stamps, now) && e in s.place
      modifies this`s
      ensures Refines(s, stamps[e := now])
    {
      PlaceIsThere(s.queue, s.entry, s.place, stamps, e);
      var k := Position(s.queue, s.place[e]);
      MoveRefines(s, stamps, k, now);
      s := MovedLast(s, k);
    }

    method Remove(e: E)
      requires Valid()
      modifies this
      ensures Valid() && stamps == old(stamps) - {e} && now == old(now)
    {
      PlaceIsThere(s.queue, s.entry, s.place, stamps, e);
      if e in s.place {
        var k := Position(s.queue, s.place[e]);
        EraseRefines(s, stamps, k);
        s := ErasedAt(s, k);
        stamps := stamps - {e};
      }
    }

    method Clear()
      modifies this
      ensures Valid() && stamps == map[] && now == old(now)
    {
      s, stamps := State([], map[], map[], s.nextNode), map[];
    }

    /** The entry that was used longest ago, or a default one. */
    method TakeLowest(default: E) returns (result: E)
      requires Valid()
      modifies this
      ensures Valid() && now == old(now)
      ensures if old(stamps) == map[] then result == default && stamps == map[]
              else result in old(stamps) && stamps == old(stamps) - {result}
                   && forall e :: e in stamps ==> old(stamps)[result] < stamps[e]
    {
      ghost var entries := Recency(s.queue, s.entry);
      if s.queue == [] {
        assert forall e :: e in stamps ==> e in entries;
        return default;
      }
      result := s.entry[s.queue[0]];
      assert entries[0] == result;
      forall e | e in stamps ensures stamps[result] <= stamps[e] && (stamps[result] == stamps[e] ==> e == result) {
        FirstIsLowest(entries, stamps, e);
      }
      EraseRefines(s, stamps, 0);
      s := ErasedAt(s, 0);
      stamps := stamps - {result};
    }
  }
}
