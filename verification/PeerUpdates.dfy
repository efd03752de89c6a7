/** The delayed updates of peers: a short list, a map for those that do not fit, and the flush. */
module PeerUpdates {
  import opened Subsequences
  import opened OrderedKeys

  type Peer = nat     // the address of a PeerData, in whose order the map is walked
  type Flag = nat

  const NAME_CHANGED: Flag := 0

  datatype Update = Update(peer: Peer, flags: set<Flag>, oldNameFirstLetters: set<char>)

  datatype State = State(small: seq<Update>, all: map<Peer, Update>)

  // ---------------------------------------------------------------- what waits for a peer

  /** mergePeerUpdate */
  function Merged(to: Update, from: Update): Update {
    to.(oldNameFirstLetters :=
          if NAME_CHANGED !in to.flags && NAME_CHANGED in from.flags then from.oldNameFirstLetters
          else to.oldNameFirstLetters,
        flags := to.flags + from.flags)
  }

  /** At most five updates are in the list, all of different peers, none of which is in the map; the
      map is only used when the list is full. */
  predicate Inv(s: State) {
    && |s.small| <= 5
    && (forall i, j :: 0 <= i < j < |s.small| ==> s.small[i].peer != s.small[j].peer)
    && (forall i :: 0 <= i < |s.small| ==> s.small[i].peer !in s.all)
    && (forall p :: p in s.all ==> s.all[p].peer == p)
    && (s.all != map[] ==> |s.small| == 5)
  }

  /** The contents by peer, in whichever of the two places they are. */
  ghost predicate Holds(s: State, waiting: map<Peer, Update>) {
    && (forall i :: 0 <= i < |s.small| ==> s.small[i].peer in waiting && waiting[s.small[i].peer] == s.small[i])
    && (forall p :: p in s.all ==> p in waiting && waiting[p] == s.all[p])
    && (forall p :: p in waiting ==> p in s.all || Listed(s.small, p))
  }

  function PeersOf(small: seq<Update>): (peers: seq<Peer>)
    ensures |peers| == |small| && forall i :: 0 <= i < |small| ==> peers[i] == small[i].peer
  {
    seq(|small|, i requires 0 <= i < |small| => small[i].peer)
  }

  ghost predicate Listed(small: seq<Update>, p: Peer) {
    exists i :: 0 <= i < |small| && small[i].peer == p
  }

  /** Where an update goes. */
  function Added(waiting: map<Peer, Update>, u: Update): map<Peer, Update> {
    waiting[u.peer := if u.peer in waiting then Merged(waiting[u.peer], u) else u]
  }

  lemma MergedInList(s: State, waiting: map<Peer, Update>, i: nat, u: Update)
    requires Inv(s) && Holds(s, waiting) && i < |s.small| && s.small[i].peer == u.peer
    ensures var t := s.(small := s.small[i := Merged(s.small[i], u)]);
            Inv(t) && Holds(t, Added(waiting, u))
  {
    var t := s.(small := s.small[i := Merged(s.small[i], u)]);
    forall p | p in Added(waiting, u) ensures p in t.all || Listed(t.small, p) {
      if p !in s.all {
        assert p in waiting;
        var k :| 0 <= k < |s.small| && s.small[k].peer == p;
        assert t.small[k].peer == p;
      }
    }
  }

  lemma PushedToList(s: State, waiting: map<Peer, Update>, u: Update)
    requires Inv(s) && Holds(s, waiting) && s.all == map[] && |s.small| < 5 && !Listed(s.small, u.peer)
    ensures var t := s.(small := s.small + [u]);
            Inv(t) && Holds(t, Added(waiting, u))
  {
    var t := s.(small := s.small + [u]);
    assert t.small[|s.small|] == u;
    forall p | p in Added(waiting, u) ensures Listed(t.small, p) {
      if p != u.peer {
        assert p in waiting;
        var k :| 0 <= k < |s.small| && s.small[k].peer == p;
        assert t.small[k].peer == p;
      }
    }
  }

  lemma PutToMap(s: State, waiting: map<Peer, Update>, u: Update)
    requires Inv(s) && Holds(s, waiting) && |s.small| == 5 && !Listed(s.small, u.peer)
    ensures var t := s.(all := s.all[u.peer := if u.peer in s.all then Merged(s.all[u.peer], u) else u]);
            Inv(t) && Holds(t, Added(waiting, u))
  {
    assert u.peer in waiting <==> u.peer in s.all;
  }

  // ---------------------------------------------------------------- what a series of updates comes to

  /** The updates for one peer, merged one after another. */
  function MergeAll(list: seq<Update>): Update
    requires list != []
  {
    if |list| == 1 then list[0] else Merged(MergeAll(list[..|list| - 1]), list[|list| - 1])
  }

  function FlagsOf(list: seq<Update>): set<Flag> {
    if list == [] then {} else FlagsOf(list[..|list| - 1]) + list[|list| - 1].flags
  }

  /** The first update of all, or the first that changed the name. */
  ghost predicate First(list: seq<Update>, named: bool, i: nat) {
    && i < |list| && (named ==> NAME_CHANGED in list[i].flags)
    && forall j :: 0 <= j < i ==> named && NAME_CHANGED !in list[j].flags
  }

  /** It has every flag of the updates, and the letters of the first of them that changed the name, or
      simply of the first. */
  lemma {:induction false} MergeAllIs(list: seq<Update>) returns (i: nat)
    requires list != []
    ensures MergeAll(list).peer == list[0].peer && MergeAll(list).flags == FlagsOf(list)
    ensures First(list, NAME_CHANGED in FlagsOf(list), i)
    ensures MergeAll(list).oldNameFirstLetters == list[i].oldNameFirstLetters
  {
    var n := |list| - 1;
    if n == 0 {
      assert FlagsOf(list[..0]) == {};
      i := 0;
    } else {
      i := MergeAllIs(list[..n]);
      var before := FlagsOf(list[..n]);
      if NAME_CHANGED !in before && NAME_CHANGED in list[n].flags {
        NoneNamed(list[..n]);
        i := n;
      }
    }
  }

  lemma {:induction false} NoneNamed(list: seq<Update>)
    requires NAME_CHANGED !in FlagsOf(list)
    ensures forall j :: 0 <= j < |list| ==> NAME_CHANGED !in list[j].flags
  {
    if list != [] { NoneNamed(list[..|list| - 1]); }
  }

  lemma {:induction false} FlagsHave(list: seq<Update>, j: nat)
    requires j < |list|
    ensures list[j].flags <= FlagsOf(list)
  {
    if j < |list| - 1 { FlagsHave(list[..|list| - 1], j); }
  }

  // ---------------------------------------------------------------- the flush

  function Walk(all: map<Peer, Update>): (list: seq<Update>)
    decreases |all|
  {
    if all == map[] then []
    else
      var p: Peer := Min(all.Keys);
      [all[p]] + Walk(all - {p})
  }

  /** What a flush sends, in its order. */
  function Sent(s: State): seq<Update> {
    s.small + Walk(s.all)
  }

  lemma {:induction false} WalkIsFromMap(all: map<Peer, Update>)
    ensures forall u :: u in Walk(all) ==> exists p :: p in all && all[p] == u
    decreases |all|
  {
    if all != map[] {
      var p: Peer := Min(all.Keys);
      WalkIsFromMap(all - {p});
      forall u | u in Walk(all) ensures exists p :: p in all && all[p] == u {
        if u != all[p] {
          assert u in Walk(all - {p});
          var q :| q in all - {p} && (all - {p})[q] == u;
          assert q in all && all[q] == u;
        }
      }
    }
  }

  lemma {:induction false} WalkHasAll(all: map<Peer, Update>, p: Peer)
    requires p in all
    ensures all[p] in Walk(all)
    decreases |all|
  {
    var q: Peer := Min(all.Keys);
    if q != p { WalkHasAll(all - {q}, p); }
  }

  lemma {:induction false} WalkHasNoTwo(all: map<Peer, Update>)
    requires forall p :: p in all ==> all[p].peer == p
    ensures NoTwo(Walk(all))
    decreases |all|
  {
    if all != map[] {
      var p: Peer := Min(all.Keys);
      var rest := Walk(all - {p});
      WalkHasNoTwo(all - {p});
      WalkIsFromMap(all - {p});
      forall i | 0 <= i < |rest| ensures rest[i].peer != p {
        assert rest[i] in rest;
      }
    }
  }

  predicate NoTwo(list: seq<Update>) {
    forall i, j :: 0 <= i < j < |list| ==> list[i].peer != list[j].peer
  }

  /** Everything that waits is sent, once for each peer; with the list empty nothing waits at all. */
  lemma FlushSendsEach(s: State, waiting: map<Peer, Update>)
    requires Inv(s) && Holds(s, waiting)
    ensures forall u: Update :: u in Sent(s) <==> u.peer in waiting && waiting[u.peer] == u
    ensures NoTwo(Sent(s))
    ensures s.small == [] ==> waiting == map[] && Sent(s) == []
  {
    WalkIsFromMap(s.all);
    WalkHasNoTwo(s.all);
    forall u: Update | u.peer in waiting && waiting[u.peer] == u ensures u in Sent(s) {
      if u.peer in s.all {
        WalkHasAll(s.all, u.peer);
      } else {
        var i :| 0 <= i < |s.small| && s.small[i].peer == u.peer;
        assert u == s.small[i];
      }
    }
    ApartHasNoTwo(s);
  }

  lemma ApartHasNoTwo(s: State)
    requires Inv(s) && NoTwo(Walk(s.all)) && forall u :: u in Walk(s.all) ==> exists p :: p in s.all && s.all[p] == u
    ensures NoTwo(Sent(s))
  {
    var walk := Walk(s.all);
    forall i, j | 0 <= i < |s.small| && 0 <= j < |walk| ensures s.small[i].peer != walk[j].peer {
      assert walk[j] in walk;
    }
  }

  // ---------------------------------------------------------------- the ledger

  /** Where an update is that was given: it waits, or a flush has it in hand, or it was sent as a part
      of the j-th notification. */
  datatype Place = Waits | InHand | WasSent(j: nat)

  /** An update with the serial numbers of those that were merged into it. */
  datatype Entry = Entry(update: Update, parts: seq<nat>)

  /** A notification, and how many updates had been given when it was sent. */
  datatype Notification = Notification(entry: Entry, at: nat)

  /** Every update that was ever given, by its serial number, with its place; the parts of those that
      wait; and every notification in the order of the notifications. */
  datatype Ledger = Ledger(given: seq<Update>, place: seq<Place>, parts: map<Peer, seq<nat>>, sent: seq<Notification>)

  function Given(parts: seq<nat>, given: seq<Update>): seq<Update>
    requires forall n :: n in parts ==> n < |given|
  {
    seq(|parts|, i requires 0 <= i < |parts| => assert parts[i] in parts; given[parts[i]])
  }

  /** The update is what its parts come to, in the order in which they were given. */
  ghost predicate Whole(e: Entry, given: seq<Update>) {
    && e.parts != []
    && (forall n :: n in e.parts ==> n < |given| && given[n].peer == e.update.peer)
    && (forall i, j :: 0 <= i < j < |e.parts| ==> e.parts[i] < e.parts[j])
    && e.update == MergeAll(Given(e.parts, given))
  }

  ghost predicate AllAt(parts: seq<nat>, place: seq<Place>, at: Place) {
    forall n :: n in parts ==> n < |place| && place[n] == at
  }

  ghost predicate WaitingOk(l: Ledger, waiting: map<Peer, Update>, p: Peer)
    requires p in waiting && p in l.parts
  {
    waiting[p].peer == p && Whole(Entry(waiting[p], l.parts[p]), l.given) && AllAt(l.parts[p], l.place, Waits)
  }

  ghost predicate SentOk(l: Ledger, j: nat)
    requires j < |l.sent|
  {
    && Whole(l.sent[j].entry, l.given) && AllAt(l.sent[j].entry.parts, l.place, WasSent(j))
    && l.sent[j].at <= |l.given| && forall n :: n in l.sent[j].entry.parts ==> n < l.sent[j].at
  }

  ghost predicate PlaceOk(l: Ledger, n: nat)
    requires n < |l.given| && n < |l.place|
  {
    match l.place[n]
    case Waits => l.given[n].peer in l.parts && n in l.parts[l.given[n].peer]
    case InHand => true
    case WasSent(j) => j < |l.sent| && n in l.sent[j].entry.parts
  }

  /** Each update that was given is at exactly one place; what waits and what was sent is what its
      parts come to, and no part came after the notification. */
  ghost predicate Kept(l: Ledger, waiting: map<Peer, Update>) {
    && |l.place| == |l.given| && l.parts.Keys == waiting.Keys
    && (forall p :: p in waiting ==> WaitingOk(l, waiting, p))
    && (forall j :: 0 <= j < |l.sent| ==> SentOk(l, j))
    && (forall n :: 0 <= n < |l.given| ==> PlaceOk(l, n))
  }

  /** The entries of `hand` leave the hand, and nothing else enters or leaves it; what was sent stays,
      and nothing begins to wait once more. */
  ghost predicate Sending(l: Ledger, m: Ledger, hand: seq<Entry>) {
    && l.given <= m.given && l.sent <= m.sent && |l.place| <= |m.place|
    && (forall n: nat :: Held(m, n) <==> Held(l, n) && !InOne(hand, n))
    && forall n: nat :: n < |l.place| && m.place[n] == Waits ==> l.place[n] == Waits
  }

  ghost predicate Calm(l: Ledger, m: Ledger) {
    Sending(l, m, [])
  }

  predicate Held(l: Ledger, n: nat) {
    n < |l.place| && l.place[n] == InHand
  }

  ghost predicate InOne(hand: seq<Entry>, n: nat) {
    exists i :: 0 <= i < |hand| && n in hand[i].parts
  }

  /** An update is given. */
  function Noted(l: Ledger, u: Update): Ledger {
    var n := |l.given|;
    var was := if u.peer in l.parts then l.parts[u.peer] else [];
    l.(given := l.given + [u], place := l.place + [Waits], parts := l.parts[u.peer := was + [n]])
  }

  lemma WholeStays(e: Entry, given: seq<Update>, more: seq<Update>)
    requires Whole(e, given) && given <= more
    ensures Whole(e, more)
  {
    assert Given(e.parts, more) == Given(e.parts, given);
  }

  lemma WholeGrows(e: Entry, given: seq<Update>, u: Update)
    requires e.update.peer == u.peer && (if e.parts == [] then true else Whole(e, given))
    ensures Whole(Entry(if e.parts == [] then u else Merged(e.update, u), e.parts + [|given|]), given + [u])
  {
    var parts, more := e.parts + [|given|], given + [u];
    var list := Given(parts, more);
    assert list[..|e.parts|] == Given(e.parts, more);
    if e.parts != [] {
      assert Given(e.parts, more) == Given(e.parts, given);
    }
  }

  lemma NotedKeeps(l: Ledger, waiting: map<Peer, Update>, u: Update)
    requires Kept(l, waiting)
    ensures Kept(Noted(l, u), Added(waiting, u)) && Calm(l, Noted(l, u))
  {
    var m, after := Noted(l, u), Added(waiting, u);
    forall p | p in after ensures WaitingOk(m, after, p) {
      NotedWaits(l, waiting, u, p);
    }
    forall j | 0 <= j < |m.sent| ensures SentOk(m, j) {
      NotedSent(l, waiting, u, j);
    }
    forall n | 0 <= n < |m.given| ensures PlaceOk(m, n) {
      NotedPlace(l, waiting, u, n);
    }
  }

  lemma NotedSent(l: Ledger, waiting: map<Peer, Update>, u: Update, j: nat)
    requires Kept(l, waiting) && j < |l.sent|
    ensures SentOk(Noted(l, u), j)
  {
    assert SentOk(l, j);
    WholeStays(l.sent[j].entry, l.given, l.given + [u]);
  }

  lemma NotedPlace(l: Ledger, waiting: map<Peer, Update>, u: Update, n: nat)
    requires Kept(l, waiting) && n <= |l.given|
    ensures PlaceOk(Noted(l, u), n)
  {
    if n < |l.given| { assert PlaceOk(l, n); }
  }

  lemma NotedWaits(l: Ledger, waiting: map<Peer, Update>, u: Update, p: Peer)
    requires Kept(l, waiting) && p in Added(waiting, u)
    ensures WaitingOk(Noted(l, u), Added(waiting, u), p)
  {
    if p in waiting { assert WaitingOk(l, waiting, p); }
    if p == u.peer {
      WholeGrows(if p in waiting then Entry(waiting[p], l.parts[p]) else Entry(u, []), l.given, u);
    } else {
      WholeStays(Entry(waiting[p], l.parts[p]), l.given, l.given + [u]);
    }
  }

  /** A flush takes everything that waits. */
  function TakenAll(l: Ledger): Ledger {
    l.(parts := map[],
       place := seq(|l.place|, n requires 0 <= n < |l.place| => if l.place[n] == Waits then InHand else l.place[n]))
  }

  /** The entries of a flush, and those of them that are left. */
  ghost predicate HandOk(l: Ledger, hand: seq<Entry>) {
    && (forall i :: 0 <= i < |hand| ==> Whole(hand[i], l.given) && AllAt(hand[i].parts, l.place, InHand))
    && forall i, j :: 0 <= i < j < |hand| ==> hand[i].update.peer != hand[j].update.peer
  }

  lemma TakenAllKeeps(l: Ledger, waiting: map<Peer, Update>)
    requires Kept(l, waiting)
    ensures Kept(TakenAll(l), map[])
  {
    var m := TakenAll(l);
    forall j | 0 <= j < |m.sent| ensures SentOk(m, j) { assert SentOk(l, j); }
    forall n | 0 <= n < |m.given| ensures PlaceOk(m, n) { assert PlaceOk(l, n); }
  }

  function Entries(list: seq<Update>, parts: map<Peer, seq<nat>>): (hand: seq<Entry>)
    requires forall u :: u in list ==> u.peer in parts
    ensures |hand| == |list| && forall i :: 0 <= i < |list| ==> hand[i] == Entry(list[i], parts[list[i].peer])
  {
    seq(|list|, i requires 0 <= i < |list| => Entry(list[i], parts[list[i].peer]))
  }

  lemma TakenAllInHand(l: Ledger, waiting: map<Peer, Update>, list: seq<Update>)
    requires Kept(l, waiting) && NoTwo(list)
    requires forall u: Update :: u in list <==> u.peer in waiting && waiting[u.peer] == u
    ensures forall u :: u in list ==> u.peer in l.parts
    ensures HandOk(TakenAll(l), Entries(list, l.parts))
    ensures forall n: nat :: Held(TakenAll(l), n) <==> Held(l, n) || InOne(Entries(list, l.parts), n)
  {
    var m, hand := TakenAll(l), Entries(list, l.parts);
    forall i | 0 <= i < |hand| ensures Whole(hand[i], m.given) && AllAt(hand[i].parts, m.place, InHand) {
      assert list[i] in list;
      assert WaitingOk(l, waiting, list[i].peer);
    }
    forall n: nat ensures Held(m, n) <==> Held(l, n) || InOne(hand, n) {
      TakenIsHeld(l, waiting, list, n);
    }
  }

  lemma WaitedInHand(l: Ledger, waiting: map<Peer, Update>, list: seq<Update>, n: nat)
    requires Kept(l, waiting) && forall u :: u in list ==> u.peer in l.parts
    requires forall u: Update :: u in list <==> u.peer in waiting && waiting[u.peer] == u
    requires InOne(Entries(list, l.parts), n)
    ensures n < |l.place| && l.place[n] == Waits
  {
    var i :| 0 <= i < |list| && n in Entries(list, l.parts)[i].parts;
    assert list[i] in list;
    assert WaitingOk(l, waiting, list[i].peer);
  }

  lemma TakenIsHeld(l: Ledger, waiting: map<Peer, Update>, list: seq<Update>, n: nat)
    requires Kept(l, waiting) && forall u :: u in list ==> u.peer in l.parts
    requires forall u: Update :: u in list <==> u.peer in waiting && waiting[u.peer] == u
    ensures Held(TakenAll(l), n) <==> Held(l, n) || InOne(Entries(list, l.parts), n)
  {
    var hand := Entries(list, l.parts);
    if n < |l.place| && l.place[n] == Waits {
      assert PlaceOk(l, n);
      var p := l.given[n].peer;
      assert WaitingOk(l, waiting, p);
      assert waiting[p] in list;
      var i :| 0 <= i < |list| && list[i] == waiting[p];
      assert n in hand[i].parts;
    }
    if InOne(hand, n) { WaitedInHand(l, waiting, list, n); }
  }

  /** The notification of one entry. */
  function Notified(l: Ledger, e: Entry): Ledger {
    l.(sent := l.sent + [Notification(e, |l.given|)],
       place := seq(|l.place|, n requires 0 <= n < |l.place| => if n in e.parts then WasSent(|l.sent|) else l.place[n]))
  }

  lemma NotifiedKeeps(l: Ledger, waiting: map<Peer, Update>, e: Entry)
    requires Kept(l, waiting) && Whole(e, l.given) && AllAt(e.parts, l.place, InHand)
    ensures Kept(Notified(l, e), waiting)
    ensures forall n: nat :: Held(Notified(l, e), n) <==> Held(l, n) && n !in e.parts
  {
    var m := Notified(l, e);
    forall p | p in waiting ensures WaitingOk(m, waiting, p) { assert WaitingOk(l, waiting, p); }
    forall j | 0 <= j < |m.sent| ensures SentOk(m, j) {
      if j < |l.sent| { assert SentOk(l, j); }
    }
    forall n | 0 <= n < |m.given| ensures PlaceOk(m, n) { assert PlaceOk(l, n); }
  }

  /** What a flush has still in hand stays there while other entries are sent and more is given. */
  lemma HandStays(l: Ledger, m: Ledger, hand: seq<Entry>, gone: seq<Entry>)
    requires HandOk(l, hand) && l.given <= m.given
    requires forall n: nat :: Held(m, n) <==> Held(l, n) && !InOne(gone, n)
    requires forall i, j :: 0 <= i < |hand| && 0 <= j < |gone| ==> hand[i].update.peer != gone[j].update.peer
    requires forall j :: 0 <= j < |gone| ==> Whole(gone[j], l.given)
    ensures HandOk(m, hand)
  {
    forall i | 0 <= i < |hand| ensures Whole(hand[i], m.given) && AllAt(hand[i].parts, m.place, InHand) {
      WholeStays(hand[i], l.given, m.given);
      forall n | n in hand[i].parts ensures Held(m, n) {
        assert Held(l, n);
      }
    }
  }

  /** When nothing waits and no flush is going on, every update that was given was sent as a part of
      exactly one notification, after it was given, with all its flags; and every notification is
      what its parts come to, and so nothing else was sent. */
  lemma AllSentInTheEnd(l: Ledger, n: nat) returns (j: nat)
    requires Kept(l, map[]) && (forall k: nat :: !Held(l, k)) && n < |l.given|
    ensures j < |l.sent| && n in l.sent[j].entry.parts && n < l.sent[j].at
    ensures l.given[n].peer == l.sent[j].entry.update.peer && l.given[n].flags <= l.sent[j].entry.update.flags
    ensures forall k :: 0 <= k < |l.sent| && n in l.sent[k].entry.parts ==> k == j
    ensures forall k :: 0 <= k < |l.sent| ==> Whole(l.sent[k].entry, l.given)
  {
    assert PlaceOk(l, n) && !Held(l, n);
    j := l.place[n].j;
    assert SentOk(l, j);
    forall k | 0 <= k < |l.sent| ensures Whole(l.sent[k].entry, l.given) && (n in l.sent[k].entry.parts ==> k == j) {
      assert SentOk(l, k);
    }
    var parts := l.sent[j].entry.parts;
    var i :| 0 <= i < |parts| && parts[i] == n;
    var _ := MergeAllIs(Given(parts, l.given));
    FlagsHave(Given(parts, l.given), i);
  }

  // ---------------------------------------------------------------- the two lists

  /** What a handler of an update does before it returns: it may come back with updates, and it may
      flush; `plan` says what the handlers of that flush do, update by update. */
  datatype Act = Add(u: Update) | Flush(plan: Plan)
  datatype Acts = Acts(list: seq<Act>)
  datatype Plan = Plan(handlers: seq<Acts>)

  /** The updates of some notifications. */
  function Heard(sent: seq<Notification>): seq<Update> {
    seq(|sent|, i requires 0 <= i < |sent| => sent[i].entry.update)
  }

  /** What was heard between two moments. */
  function Between(l: Ledger, m: Ledger): seq<Update>
    requires l.sent <= m.sent
  {
    Heard(m.sent[|l.sent|..])
  }

  lemma BetweenAdds(l: Ledger, m: Ledger, k: Ledger)
    requires l.sent <= m.sent <= k.sent
    ensures Between(l, k) == Between(l, m) + Between(m, k)
  {
  }

  /** A flush that has sent the first i entries of its hand. */
  ghost predicate SoFar(l: Ledger, m: Ledger, hand: seq<Entry>, list: seq<Update>, i: nat)
    requires i <= |hand| == |list|
  {
    Sending(l, m, hand[..i]) && HandOk(m, hand[i..]) && Within(list[..i], Between(l, m))
  }

  lemma AtFirst(l: Ledger, hand: seq<Entry>, list: seq<Update>)
    requires HandOk(l, hand) && |hand| == |list|
    ensures SoFar(l, l, hand, list, 0)
  {
    assert hand[0..] == hand && forall n: nat :: !InOne(hand[..0], n);
  }

  lemma NextInHand(l: Ledger, m: Ledger, hand: seq<Entry>, list: seq<Update>, i: nat)
    requires i < |hand| == |list| && SoFar(l, m, hand, list, i)
    ensures Whole(hand[i], m.given) && AllAt(hand[i].parts, m.place, InHand)
  {
    assert hand[i..][0] == hand[i];
  }

  lemma AtLast(l: Ledger, m: Ledger, hand: seq<Entry>, list: seq<Update>)
    requires |hand| == |list| && SoFar(l, m, hand, list, |list|)
    ensures Sending(l, m, hand) && Within(list, Between(l, m))
  {
    assert hand[..|list|] == hand && list[..|list|] == list;
  }

  /** One more entry is sent, and its handlers come back. */
  lemma OneMoreSent(l: Ledger, m: Ledger, k: Ledger, hand: seq<Entry>, i: nat, list: seq<Update>,
                    waiting: map<Peer, Update>)
    requires i < |hand| == |list| && hand[i].update == list[i]
    requires Kept(m, waiting) && SoFar(l, m, hand, list, i) && Calm(Notified(m, hand[i]), k)
    ensures SoFar(l, k, hand, list, i + 1)
  {
    assert hand[i..][0] == hand[i] && hand[i..][1..] == hand[i + 1..];
    NotifiedKeeps(m, waiting, hand[i]);
    RestStays(m, k, hand[i..]);
    OneMoreSending(l, m, k, hand, i);
    OneMoreWithin(l, m, k, hand[i], list, i);
  }

  lemma OneMoreSending(l: Ledger, m: Ledger, k: Ledger, hand: seq<Entry>, i: nat)
    requires i < |hand| && Sending(l, m, hand[..i]) && Calm(Notified(m, hand[i]), k)
    requires forall n: nat :: Held(Notified(m, hand[i]), n) <==> Held(m, n) && n !in hand[i].parts
    ensures Sending(l, k, hand[..i + 1])
  {
    OneMoreIn(hand, i);
    assert forall n: nat :: !InOne([], n);
  }

  lemma OneMoreWithin(l: Ledger, m: Ledger, k: Ledger, e: Entry, list: seq<Update>, i: nat)
    requires i < |list| && e.update == list[i] && l.sent <= m.sent && Notified(m, e).sent <= k.sent
    requires Within(list[..i], Between(l, m))
    ensures Within(list[..i + 1], Between(l, k))
  {
    var n := Notified(m, e);
    BetweenAdds(l, n, k);
    assert Between(l, n) == Between(l, m) + [list[i]];
    assert list[..i + 1] == list[..i] + [list[i]];
    WithinOne(list[..i], Between(l, m), list[i]);
    WithinMore(list[..i + 1], Between(l, n), Between(l, k));
  }

  lemma OneInHand(e: Entry)
    ensures forall n: nat :: InOne([e], n) <==> n in e.parts
  {
    assert [e][0] == e;
  }

  lemma OneMoreIn(hand: seq<Entry>, i: nat)
    requires i < |hand|
    ensures forall n: nat :: InOne(hand[..i + 1], n) <==> InOne(hand[..i], n) || n in hand[i].parts
  {
    forall n: nat | InOne(hand[..i], n) || n in hand[i].parts ensures InOne(hand[..i + 1], n) {
      if n in hand[i].parts {
        assert hand[..i + 1][i] == hand[i];
      } else {
        var k :| 0 <= k < i && n in hand[..i][k].parts;
        assert hand[..i + 1][k] == hand[..i][k];
      }
    }
  }

  lemma RestStays(m: Ledger, k: Ledger, hand: seq<Entry>)
    requires hand != [] && HandOk(m, hand) && Calm(Notified(m, hand[0]), k)
    requires forall n: nat :: Held(Notified(m, hand[0]), n) <==> Held(m, n) && n !in hand[0].parts
    ensures HandOk(k, hand[1..])
  {
    OneInHand(hand[0]);
    forall n: nat ensures Held(k, n) <==> Held(m, n) && !InOne([hand[0]], n) {
      assert !InOne([], n);
    }
    HandStays(m, k, hand[1..], [hand[0]]);
  }

  /** Sending one list and then another. */
  lemma SentTwice(l: Ledger, m: Ledger, k: Ledger, a: seq<Entry>, b: seq<Entry>)
    requires Sending(l, m, a) && Sending(m, k, b)
    ensures Sending(l, k, a + b)
  {
    forall n: nat ensures InOne(a + b, n) <==> InOne(a, n) || InOne(b, n) {
      if InOne(a, n) {
        var i :| 0 <= i < |a| && n in a[i].parts;
        assert (a + b)[i] == a[i];
      }
      if InOne(b, n) {
        var i :| 0 <= i < |b| && n in b[i].parts;
        assert (a + b)[|a| + i] == b[i];
      }
    }
  }

  /** Everything that waited at the first moment has been sent since. */
  ghost predicate AllSince(l: Ledger, m: Ledger) {
    forall n: nat :: n < |l.place| && l.place[n] == Waits ==> SentSince(l, m, n)
  }

  /** A whole flush: everything that waited was sent during it, in the order of the two places, and
      the hand is what it was. */
  lemma FlushIsCalm(l: Ledger, waiting: map<Peer, Update>, k: Ledger, after: map<Peer, Update>, list: seq<Update>)
    requires Kept(l, waiting) && Kept(k, after) && NoTwo(list)
    requires forall u: Update :: u in list <==> u.peer in waiting && waiting[u.peer] == u
    requires (forall u :: u in list ==> u.peer in l.parts) && Sending(TakenAll(l), k, Entries(list, l.parts))
    ensures Calm(l, k) && AllSince(l, k)
  {
    var hand := Entries(list, l.parts);
    forall n: nat ensures Held(k, n) <==> Held(l, n) {
      TakenIsHeld(l, waiting, list, n);
      if InOne(hand, n) { WaitedInHand(l, waiting, list, n); }
    }
    assert forall n: nat :: !InOne([], n);
    forall n: nat | n < |l.place| && l.place[n] == Waits ensures SentSince(l, k, n) {
      assert !Held(l, n);
      NoLongerWaits(l, waiting, k, hand, n);
      WaitedIsSent(l, waiting, k, after, n);
    }
  }

  lemma WaitedIsSent(l: Ledger, waiting: map<Peer, Update>, k: Ledger, after: map<Peer, Update>, n: nat)
    requires Kept(l, waiting) && Kept(k, after) && l.sent <= k.sent && n < |l.place| <= |k.place|
    requires l.place[n] == Waits && k.place[n].WasSent?
    ensures SentSince(l, k, n)
  {
    forall i | 0 <= i < |l.sent| ensures n !in k.sent[i].entry.parts {
      assert SentOk(l, i) && k.sent[i] == l.sent[i];
    }
    assert PlaceOk(k, n);
  }

  lemma NoLongerWaits(l: Ledger, waiting: map<Peer, Update>, k: Ledger, hand: seq<Entry>, n: nat)
    requires Kept(l, waiting) && Sending(TakenAll(l), k, hand) && n < |l.place| && l.place[n] == Waits && !Held(k, n)
    ensures k.place[n].WasSent?
  {
    assert TakenAll(l).place[n] == InHand;
  }

  /** The update with that serial number is a part of a notification after the first moment. */
  ghost predicate SentSince(l: Ledger, m: Ledger, n: nat) {
    exists j :: |l.sent| <= j < |m.sent| && n in m.sent[j].entry.parts
  }

  lemma AllSinceStays(l: Ledger, m: Ledger, k: Ledger)
    requires Calm(m, k) && AllSince(l, m)
    ensures AllSince(l, k)
  {
    forall n: nat | n < |l.place| && l.place[n] == Waits ensures SentSince(l, k, n) {
      assert SentSince(l, m, n);
      var j :| |l.sent| <= j < |m.sent| && n in m.sent[j].entry.parts;
      assert k.sent[j] == m.sent[j];
    }
  }

  /** What waited at the first moment waits at the second, and is sent then, or has been sent before. */
  lemma AllSinceJoins(l: Ledger, waiting: map<Peer, Update>, m: Ledger, after: map<Peer, Update>, k: Ledger)
    requires Kept(l, waiting) && Kept(m, after) && Calm(l, m) && Calm(m, k) && AllSince(m, k)
    ensures AllSince(l, k)
  {
    forall n: nat | n < |l.place| && l.place[n] == Waits ensures SentSince(l, k, n) {
      if m.place[n] == Waits {
        assert SentSince(m, k, n);
        var j :| |m.sent| <= j < |k.sent| && n in k.sent[j].entry.parts;
        assert |l.sent| <= j;
      } else {
        assert !Held(l, n) && !InOne([], n) && !Held(m, n);
        WaitedIsSent(l, waiting, m, after, n);
        var j :| |l.sent| <= j < |m.sent| && n in m.sent[j].entry.parts;
        assert k.sent[j] == m.sent[j];
      }
    }
  }

  /** The updates that the acts give themselves. */
  function Adds(acts: seq<Act>): seq<Update> {
    if acts == [] then []
    else
      var a := acts[|acts| - 1];
      Adds(acts[..|acts| - 1]) + if a.Add? then [a.u] else []
  }

  lemma {:induction false} AddsHave(acts: seq<Act>, k: nat)
    requires k < |acts| && acts[k].Add?
    ensures acts[k].u in Adds(acts)
    decreases |acts|
  {
    if k < |acts| - 1 { AddsHave(acts[..|acts| - 1], k); }
  }

  /** They have been given between the two moments, in their order. */
  ghost predicate Gives(acts: seq<Act>, l: Ledger, m: Ledger) {
    l.given <= m.given && Within(Adds(acts), m.given[|l.given|..])
  }

  lemma NothingGiven(l: Ledger)
    ensures Gives([], l, l) && Calm(l, l)
  {
    assert forall n: nat :: !InOne([], n);
  }

  lemma CalmTwice(l: Ledger, m: Ledger, k: Ledger)
    requires Calm(l, m) && Calm(m, k)
    ensures Calm(l, k)
  {
    SentTwice(l, m, k, [], []);
  }

  lemma GivenStays(l: Ledger, m: Ledger)
    requires Calm(l, m)
    ensures l.given <= m.given
  {
  }

  lemma GivesOneMore(acts: seq<Act>, i: nat, l: Ledger, m: Ledger, k: Ledger)
    requires i < |acts| && Gives(acts[..i], l, m) && m.given <= k.given
    requires acts[i].Add? ==> m.given + [acts[i].u] <= k.given
    ensures Gives(acts[..i + 1], l, k)
  {
    var now := m.given[|l.given|..];
    assert acts[..i + 1][..i] == acts[..i];
    assert Adds(acts[..i + 1]) == Adds(acts[..i]) + if acts[i].Add? then [acts[i].u] else [];
    if acts[i].Add? {
      WithinOne(Adds(acts[..i]), now, acts[i].u);
      assert (m.given + [acts[i].u])[|l.given|..] == now + [acts[i].u];
      WithinMore(Adds(acts[..i + 1]), now + [acts[i].u], k.given[|l.given|..]);
    } else {
      assert Adds(acts[..i + 1]) == Adds(acts[..i]);
      WithinMore(Adds(acts[..i + 1]), now, k.given[|l.given|..]);
    }
  }

  class Updates {
    var small: seq<Update>
    var all: map<Peer, Update>
    ghost var waiting: map<Peer, Update>
    ghost var ledger: Ledger

    ghost predicate Valid()
      reads this
    {
      Inv(State(small, all)) && Holds(State(small, all), waiting) && Kept(ledger, waiting)
    }

    constructor ()
      ensures Valid() && waiting == map[] && ledger == Ledger([], [], map[], [])
    {
      small, all, waiting := [], map[], map[];
      ledger := Ledger([], [], map[], []);
    }

    method PeerUpdatedDelayed(u: Update)
      requires Valid()
      modifies this
      ensures Valid() && waiting == Added(old(waiting), u) && ledger == Noted(old(ledger), u)
      ensures PeersOf(old(small)) <= PeersOf(small)
    {
      NotedKeeps(ledger, waiting, u);
      Put(u);
      waiting, ledger := Added(waiting, u), Noted(ledger, u);
    }

    /** The update goes to the entry of its peer, or to the place that has room. */
    method Put(u: Update)
      requires Inv(State(small, all)) && Holds(State(small, all), waiting)
      modifies this`small, this`all
      ensures Inv(State(small, all)) && Holds(State(small, all), Added(waiting, u))
      ensures PeersOf(old(small)) <= PeersOf(small)
    {
      var existingUpdatesCount := |small|;
      for i := 0 to existingUpdatesCount
        invariant small == old(small) && all == old(all)
        invariant forall k :: 0 <= k < i ==> small[k].peer != u.peer
      {
        if small[i].peer == u.peer {
          MergedInList(State(small, all), waiting, i, u);
          small := small[i := Merged(small[i], u)];
          return;
        }
      }
      if all == map[] {
        if existingUpdatesCount < 5 {
          PushedToList(State(small, all), waiting, u);
          small := small + [u];
          return;
        }
      }
      PutToMap(State(small, all), waiting, u);
      if u.peer in all {
        all := all[u.peer := Merged(all[u.peer], u)];
      } else {
        all := all[u.peer := u];
      }
    }

    /** What a handler does: it gives its updates in their order, and if it flushes, everything that
        waited before has been sent. */
    method Perform(acts: Acts)
      requires Valid()
      modifies this
      ensures Valid() && Calm(old(ledger), ledger)
      ensures Gives(acts.list, old(ledger), ledger)
      ensures (exists k :: 0 <= k < |acts.list| && acts.list[k].Flush?) ==> AllSince(old(ledger), ledger)
      decreases acts, 0
    {
      hide AllSince, Gives, Sending, Kept, Inv, Holds;
      ghost var was, waited0 := ledger, waiting;
      NothingGiven(was);
      var i := 0;
      while i < |acts.list|
        invariant 0 <= i <= |acts.list|
        invariant Valid() && Calm(was, ledger) && Gives(acts.list[..i], was, ledger)
        invariant (exists k :: 0 <= k < i && acts.list[k].Flush?) ==> AllSince(was, ledger)
      {
        ghost var before, waited := ledger, waiting;
        match acts.list[i] {
          case Add(u) =>
            NotedKeeps(before, waited, u);
            PeerUpdatedDelayed(u);
          case Flush(plan) =>
            var _ := PeerUpdatedSendDelayed(plan);
        }
        GivenStays(before, ledger);
        GivesOneMore(acts.list, i, was, before, ledger);
        if acts.list[i].Flush? {
          AllSinceJoins(was, waited0, before, waited, ledger);
        } else if exists k :: 0 <= k < i && acts.list[k].Flush? {
          AllSinceStays(was, before, ledger);
        }
        CalmTwice(was, before, ledger);
        i := i + 1;
      }
      assert acts.list[..|acts.list|] == acts.list;
    }

    /** The result are the updates that this flush sends, in their order.  Everything that waits is sent
        before the flush is over, and what the handlers add and flush meanwhile is kept. */
    method PeerUpdatedSendDelayed(plan: Plan) returns (list: seq<Update>)
      requires Valid()
      modifies this
      ensures Valid() && Calm(old(ledger), ledger)
      ensures list == Sent(State(old(small), old(all))) && Within(list, Between(old(ledger), ledger))
      ensures AllSince(old(ledger), ledger)
      decreases plan, 3
    {
      hide AllSince, Within, Kept, Inv, Holds;
      ghost var was, waited := ledger, waiting;
      FlushSendsEach(State(small, all), waiting);
      if small == [] {
        NothingFlushed(was, waited);
        return [];
      }
      var smallList, allList := small, Walk(all);
      list := smallList + allList;
      TakenAllKeeps(was, waited);
      TakenAllInHand(was, waited, list);
      NothingHolds();
      small, all := [], map[];
      waiting, ledger := map[], TakenAll(was);
      SendBoth(smallList, allList, plan, Entries(list, was.parts));
      FlushIsCalm(was, waited, ledger, waiting, list);
    }

    /** The two loops of a flush. */
    method SendBoth(smallList: seq<Update>, allList: seq<Update>, plan: Plan, ghost hand: seq<Entry>)
      requires Valid() && HandOk(ledger, hand) && HandIs(hand, smallList + allList)
      modifies this
      ensures Valid() && Sending(old(ledger), ledger, hand) && Within(smallList + allList, Between(old(ledger), ledger))
      decreases plan, 2
    {
      hide Kept, Inv, Holds;
      ghost var l := ledger;
      ghost var a, b := hand[..|smallList|], hand[|smallList|..];
      assert hand == a + b;
      SendEach(smallList, plan, 0, a);
      ghost var m := ledger;
      HandStays(l, m, b, a);
      SendEach(allList, plan, |smallList|, b);
      SentTwice(l, m, ledger, a, b);
      BetweenAdds(l, m, ledger);
      WithinBoth(smallList, Between(l, m), allList, Between(m, ledger));
    }

    method SendEach(list: seq<Update>, plan: Plan, from: nat, ghost hand: seq<Entry>)
      requires Valid() && HandOk(ledger, hand) && HandIs(hand, list)
      modifies this
      ensures Valid() && Sending(old(ledger), ledger, hand) && Within(list, Between(old(ledger), ledger))
      decreases plan, 1
    {
      ghost var l := ledger;
      AtFirst(l, hand, list);
      var i := 0;
      while i < |list|
        invariant 0 <= i <= |list| && Valid() && SoFar(l, ledger, hand, list, i)
      {
        ghost var m, waited := ledger, waiting;
        NextInHand(l, m, hand, list, i);
        SendOne(list[i], plan, from + i, hand[i]);
        OneMoreSent(l, m, ledger, hand, i, list, waited);
        i := i + 1;
      }
      AtLast(l, ledger, hand, list);
    }

    /** One notification, and what its handlers do. */
    method SendOne(u: Update, plan: Plan, k: nat, ghost e: Entry)
      requires Valid() && e.update == u && Whole(e, ledger.given) && AllAt(e.parts, ledger.place, InHand)
      modifies this
      ensures Valid() && Calm(Notified(old(ledger), e), ledger)
      ensures k < |plan.handlers| ==> Gives(plan.handlers[k].list, Notified(old(ledger), e), ledger)
      decreases plan, 0
    {
      NotifiedKeeps(ledger, waiting, e);
      ledger := Notified(ledger, e);
      assert forall n: nat :: !InOne([], n);
      if k < |plan.handlers| {
        Perform(plan.handlers[k]);
      }
    }
  }

  ghost predicate HandIs(hand: seq<Entry>, list: seq<Update>) {
    |hand| == |list| && forall i :: 0 <= i < |list| ==> hand[i].update == list[i]
  }

  lemma NothingHolds()
    ensures Inv(State([], map[])) && Holds(State([], map[]), map[])
  {
  }

  lemma NothingFlushed(l: Ledger, waiting: map<Peer, Update>)
    requires Kept(l, waiting) && waiting == map[]
    ensures Calm(l, l) && AllSince(l, l) && Within([], Between(l, l))
  {
    assert forall n: nat :: !InOne([], n);
    forall n: nat | n < |l.place| ensures l.place[n] != Waits { assert PlaceOk(l, n); }
  }
}
