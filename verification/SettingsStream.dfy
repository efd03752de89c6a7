/** The big-endian stream in which settings are stored: the fields, and the groups of fields that a
    stream may end after. */
module SettingsStream {

  type Byte = b: nat | b < 0x100
  type Bytes = seq<Byte>
  type Unit = u: nat | u < 0x1_0000      // a UTF-16 unit of a QString
  type QString = seq<Unit>

  const NULL: nat := 0xFFFF_FFFF          // the length of a null string or byte array

  datatype Read<T> = Got(value: T, rest: Bytes) | Bad

  // ---------------------------------------------------------------- words

  function U32Bytes(u: nat): (s: Bytes)
    requires u < 0x1_0000_0000
    ensures |s| == 4
  {
    [u / 0x100_0000, u / 0x1_0000 % 0x100, u / 0x100 % 0x100, u % 0x100]
  }

  function ReadU32(s: Bytes): Read<nat> {
    if |s| < 4 then Bad
    else Got(s[0] as nat * 0x100_0000 + s[1] as nat * 0x1_0000 + s[2] as nat * 0x100 + s[3], s[4..])
  }

  lemma ReadU32Back(u: nat, rest: Bytes)
    requires u < 0x1_0000_0000
    ensures ReadU32(U32Bytes(u) + rest) == Got(u, rest)
  {
    BytesOfWord(u);
    var s := U32Bytes(u) + rest;
    assert s[4..] == rest;
    assert s[0] == U32Bytes(u)[0] && s[1] == U32Bytes(u)[1] && s[2] == U32Bytes(u)[2] && s[3] == U32Bytes(u)[3];
  }

  lemma BytesOfWord(u: nat)
    requires u < 0x1_0000_0000
    ensures u == u / 0x100_0000 * 0x100_0000 + u / 0x1_0000 % 0x100 * 0x1_0000 + u / 0x100 % 0x100 * 0x100 + u % 0x100
  {
    assert u / 0x100 == u / 0x1_0000 * 0x100 + u / 0x100 % 0x100;
    assert u / 0x1_0000 == u / 0x100_0000 * 0x100 + u / 0x1_0000 % 0x100;
  }

  lemma ReadU32More(s: Bytes, t: Bytes)
    requires ReadU32(s).Got?
    ensures ReadU32(s + t) == Got(ReadU32(s).value, ReadU32(s).rest + t)
  {
    assert (s + t)[4..] == s[4..] + t;
  }

  predicate Int32(v: int) {
    -0x8000_0000 <= v < 0x8000_0000
  }

  function IntBytes(v: int): Bytes
    requires Int32(v)
  {
    U32Bytes(v % 0x1_0000_0000)
  }

  function Signed(u: nat): int {
    if u < 0x8000_0000 then u else u - 0x1_0000_0000
  }

  function ReadInt(s: Bytes): Read<int> {
    match ReadU32(s)
    case Bad => Bad
    case Got(u, rest) => Got(Signed(u), rest)
  }

  lemma ReadIntBack(v: int, rest: Bytes)
    requires Int32(v)
    ensures ReadInt(IntBytes(v) + rest) == Got(v, rest)
  {
    ReadU32Back(v % 0x1_0000_0000, rest);
  }

  function U64Bytes(u: nat): Bytes
    requires u < 0x1_0000_0000_0000_0000
  {
    U32Bytes(u / 0x1_0000_0000) + U32Bytes(u % 0x1_0000_0000)
  }

  function ReadU64(s: Bytes): Read<nat> {
    match ReadU32(s)
    case Bad => Bad
    case Got(hi, s') =>
      match ReadU32(s')
      case Bad => Bad
      case Got(lo, rest) => Got(hi * 0x1_0000_0000 + lo, rest)
  }

  lemma Glue(a: Bytes, b: Bytes, c: Bytes)
    ensures a + b + c == a + (b + c)
  {
  }

  lemma ReadU64Back(u: nat, rest: Bytes)
    requires u < 0x1_0000_0000_0000_0000
    ensures ReadU64(U64Bytes(u) + rest) == Got(u, rest)
  {
    Glue(U32Bytes(u / 0x1_0000_0000), U32Bytes(u % 0x1_0000_0000), rest);
    ReadU32Back(u / 0x1_0000_0000, U32Bytes(u % 0x1_0000_0000) + rest);
    ReadU32Back(u % 0x1_0000_0000, rest);
  }

  lemma ReadU64More(s: Bytes, t: Bytes)
    requires ReadU64(s).Got?
    ensures ReadU64(s + t) == Got(ReadU64(s).value, ReadU64(s).rest + t)
  {
    ReadU32More(s, t);
    ReadU32More(ReadU32(s).rest, t);
  }

  // ---------------------------------------------------------------- strings and byte arrays

  function BlobBytes(b: Bytes): Bytes
    requires |b| < NULL
  {
    U32Bytes(|b|) + b
  }

  function ReadBlob(s: Bytes): Read<Bytes> {
    match ReadU32(s)
    case Bad => Bad
    case Got(n, rest) =>
      if n == NULL then Got([], rest)
      else if |rest| < n then Bad
      else Got(rest[..n], rest[n..])
  }

  lemma ReadBlobBack(b: Bytes, rest: Bytes)
    requires |b| < NULL
    ensures ReadBlob(BlobBytes(b) + rest) == Got(b, rest)
  {
    Glue(U32Bytes(|b|), b, rest);
    ReadU32Back(|b|, b + rest);
    assert (b + rest)[..|b|] == b && (b + rest)[|b|..] == rest;
  }

  lemma ReadBlobMore(s: Bytes, t: Bytes)
    requires ReadBlob(s).Got?
    ensures ReadBlob(s + t) == Got(ReadBlob(s).value, ReadBlob(s).rest + t)
  {
    ReadU32More(s, t);
    var n, rest := ReadU32(s).value, ReadU32(s).rest;
    if n != NULL {
      assert (rest + t)[..n] == rest[..n] && (rest + t)[n..] == rest[n..] + t;
    }
  }

  function UnitBytes(q: QString): (s: Bytes)
    ensures |s| == 2 * |q|
  {
    if q == [] then [] else [q[0] / 0x100, q[0] % 0x100] + UnitBytes(q[1..])
  }

  function Units(s: Bytes): (q: QString)
    requires |s| % 2 == 0
  {
    if s == [] then [] else [s[0] as nat * 0x100 + s[1]] + Units(s[2..])
  }

  lemma {:induction false} UnitsBack(q: QString)
    ensures Units(UnitBytes(q)) == q
  {
    if q != [] {
      UnitsBack(q[1..]);
      assert UnitBytes(q)[2..] == UnitBytes(q[1..]);
    }
  }

  function StringBytes(q: QString): Bytes
    requires 2 * |q| < NULL
  {
    BlobBytes(UnitBytes(q))
  }

  function ReadString(s: Bytes): Read<QString> {
    match ReadU32(s)
    case Bad => Bad
    case Got(n, _) =>
      if n != NULL && n % 2 == 1 then Bad
      else match ReadBlob(s)
        case Bad => Bad
        case Got(b, rest) => if |b| % 2 == 0 then Got(Units(b), rest) else Bad
  }

  lemma ReadStringBack(q: QString, rest: Bytes)
    requires 2 * |q| < NULL
    ensures ReadString(StringBytes(q) + rest) == Got(q, rest)
  {
    var b := UnitBytes(q);
    Glue(U32Bytes(|b|), b, rest);
    ReadU32Back(|b|, b + rest);
    ReadBlobBack(b, rest);
    UnitsBack(q);
  }

  lemma ReadStringMore(s: Bytes, t: Bytes)
    requires ReadString(s).Got?
    ensures ReadString(s + t) == Got(ReadString(s).value, ReadString(s).rest + t)
  {
    ReadU32More(s, t);
    ReadBlobMore(s, t);
  }

  // ---------------------------------------------------------------- groups

  datatype Sound = Sound(key: QString, path: QString)

  /** A group of fields: a few integers, a counted list of sounds or of peers, or a byte array. */
  datatype Group =
    | One(a: int)
    | Two(a: int, b: int)
    | Three(a: int, b: int, c: int)
    | Sounds(sounds: seq<Sound>)
    | Peers(peers: seq<nat>)
    | Blob(blob: Bytes)

  predicate Storable(g: Group) {
    match g
    case One(a) => Int32(a)
    case Two(a, b) => Int32(a) && Int32(b)
    case Three(a, b, c) => Int32(a) && Int32(b) && Int32(c)
    case Sounds(list) =>
      Int32(|list|) && forall i :: 0 <= i < |list| ==> 2 * |list[i].key| < NULL && 2 * |list[i].path| < NULL
    case Peers(list) => Int32(|list|) && forall i :: 0 <= i < |list| ==> list[i] < 0x1_0000_0000_0000_0000
    case Blob(b) => |b| < NULL
  }

  /** The same fields, whatever they hold. */
  predicate Alike(g: Group, h: Group) {
    match g
    case One(_) => h.One?
    case Two(_, _) => h.Two?
    case Three(_, _, _) => h.Three?
    case Sounds(_) => h.Sounds?
    case Peers(_) => h.Peers?
    case Blob(_) => h.Blob?
  }

  function ReadTwo(s: Bytes): Read<(int, int)> {
    match ReadInt(s)
    case Bad => Bad
    case Got(a, s') =>
      match ReadInt(s')
      case Bad => Bad
      case Got(b, rest) => Got((a, b), rest)
  }

  lemma ReadTwoBack(a: int, b: int, rest: Bytes)
    requires Int32(a) && Int32(b)
    ensures ReadTwo(IntBytes(a) + IntBytes(b) + rest) == Got((a, b), rest)
  {
    Glue(IntBytes(a), IntBytes(b), rest);
    ReadIntBack(a, IntBytes(b) + rest);
    ReadIntBack(b, rest);
  }

  lemma ReadTwoMore(s: Bytes, t: Bytes)
    requires ReadTwo(s).Got?
    ensures ReadTwo(s + t) == Got(ReadTwo(s).value, ReadTwo(s).rest + t)
  {
    ReadU32More(s, t);
    ReadU32More(ReadInt(s).rest, t);
  }

  function SoundBytes(x: Sound): Bytes
    requires 2 * |x.key| < NULL && 2 * |x.path| < NULL
  {
    StringBytes(x.key) + StringBytes(x.path)
  }

  function ReadSound(s: Bytes): Read<Sound> {
    match ReadString(s)
    case Bad => Bad
    case Got(key, s') =>
      match ReadString(s')
      case Bad => Bad
      case Got(path, rest) => Got(Sound(key, path), rest)
  }

  lemma ReadSoundBack(x: Sound, rest: Bytes)
    requires 2 * |x.key| < NULL && 2 * |x.path| < NULL
    ensures ReadSound(SoundBytes(x) + rest) == Got(x, rest)
  {
    Glue(StringBytes(x.key), StringBytes(x.path), rest);
    ReadStringBack(x.key, StringBytes(x.path) + rest);
    ReadStringBack(x.path, rest);
  }

  lemma ReadSoundMore(s: Bytes, t: Bytes)
    requires ReadSound(s).Got?
    ensures ReadSound(s + t) == Got(ReadSound(s).value, ReadSound(s).rest + t)
  {
    ReadStringMore(s, t);
    ReadStringMore(ReadString(s).rest, t);
  }

  function SoundsBytes(list: seq<Sound>): Bytes
    requires forall i :: 0 <= i < |list| ==> 2 * |list[i].key| < NULL && 2 * |list[i].path| < NULL
  {
    if list == [] then [] else SoundBytes(list[0]) + SoundsBytes(list[1..])
  }

  function ReadSounds(n: nat, s: Bytes): Read<seq<Sound>> {
    if n == 0 then Got([], s)
    else match ReadSound(s)
      case Bad => Bad
      case Got(x, s') =>
        match ReadSounds(n - 1, s')
        case Bad => Bad
        case Got(list, rest) => Got([x] + list, rest)
  }

  lemma {:induction false} ReadSoundsBack(list: seq<Sound>, rest: Bytes)
    requires forall i :: 0 <= i < |list| ==> 2 * |list[i].key| < NULL && 2 * |list[i].path| < NULL
    ensures ReadSounds(|list|, SoundsBytes(list) + rest) == Got(list, rest)
  {
    if list == [] {
      assert SoundsBytes(list) + rest == rest;
    } else {
      var first, more := SoundBytes(list[0]), SoundsBytes(list[1..]);
      Glue(first, more, rest);
      ReadSoundBack(list[0], more + rest);
      ReadSoundsBack(list[1..], rest);
      assert [list[0]] + list[1..] == list;
    }
  }

  lemma {:induction false} ReadSoundsMore(n: nat, s: Bytes, t: Bytes)
    requires ReadSounds(n, s).Got?
    ensures ReadSounds(n, s + t) == Got(ReadSounds(n, s).value, ReadSounds(n, s).rest + t)
  {
    if n > 0 {
      ReadSoundMore(s, t);
      ReadSoundsMore(n - 1, ReadSound(s).rest, t);
    }
  }

  function PeersBytes(list: seq<nat>): Bytes
    requires forall i :: 0 <= i < |list| ==> list[i] < 0x1_0000_0000_0000_0000
  {
    if list == [] then [] else U64Bytes(list[0]) + PeersBytes(list[1..])
  }

  function ReadPeers(n: nat, s: Bytes): Read<seq<nat>> {
    if n == 0 then Got([], s)
    else match ReadU64(s)
      case Bad => Bad
      case Got(x, s') =>
        match ReadPeers(n - 1, s')
        case Bad => Bad
        case Got(list, rest) => Got([x] + list, rest)
  }

  lemma {:induction false} ReadPeersBack(list: seq<nat>, rest: Bytes)
    requires forall i :: 0 <= i < |list| ==> list[i] < 0x1_0000_0000_0000_0000
    ensures ReadPeers(|list|, PeersBytes(list) + rest) == Got(list, rest)
  {
    if list == [] {
      assert PeersBytes(list) + rest == rest;
    } else {
      Glue(U64Bytes(list[0]), PeersBytes(list[1..]), rest);
      ReadU64Back(list[0], PeersBytes(list[1..]) + rest);
      ReadPeersBack(list[1..], rest);
      assert [list[0]] + list[1..] == list;
    }
  }

  lemma {:induction false} ReadPeersMore(n: nat, s: Bytes, t: Bytes)
    requires ReadPeers(n, s).Got?
    ensures ReadPeers(n, s + t) == Got(ReadPeers(n, s).value, ReadPeers(n, s).rest + t)
  {
    if n > 0 {
      ReadU64More(s, t);
      ReadPeersMore(n - 1, ReadU64(s).rest, t);
    }
  }

  function GroupBytes(g: Group): (s: Bytes)
    requires Storable(g)
  {
    match g
    case One(a) => IntBytes(a)
    case Two(a, b) => IntBytes(a) + IntBytes(b)
    case Three(a, b, c) => IntBytes(a) + (IntBytes(b) + IntBytes(c))
    case Sounds(list) => IntBytes(|list|) + SoundsBytes(list)
    case Peers(list) => IntBytes(|list|) + PeersBytes(list)
    case Blob(b) => BlobBytes(b)
  }

  /** Reads a group with the fields of `like`.  A count that is negative is bad. */
  function ReadGroup(like: Group, s: Bytes): Read<Group> {
    match like
    case One(_) => (match ReadInt(s) case Bad => Bad case Got(a, rest) => Got(One(a), rest))
    case Two(_, _) => (match ReadTwo(s) case Bad => Bad case Got(x, rest) => Got(Two(x.0, x.1), rest))
    case Three(_, _, _) =>
      (match ReadInt(s)
       case Bad => Bad
       case Got(a, s') => match ReadTwo(s') case Bad => Bad case Got(x, rest) => Got(Three(a, x.0, x.1), rest))
    case Blob(_) => (match ReadBlob(s) case Bad => Bad case Got(b, rest) => Got(Blob(b), rest))
    case Sounds(_) =>
      (match ReadInt(s)
       case Bad => Bad
       case Got(n, s') =>
         if n < 0 then Bad
         else match ReadSounds(n, s') case Bad => Bad case Got(sounds, rest) => Got(Sounds(sounds), rest))
    case Peers(_) =>
      (match ReadInt(s)
       case Bad => Bad
       case Got(n, s') =>
         if n < 0 then Bad
         else match ReadPeers(n, s') case Bad => Bad case Got(peers, rest) => Got(Peers(peers), rest))
  }

  lemma ReadGroupBack(g: Group, like: Group, rest: Bytes)
    requires Storable(g) && Alike(g, like)
    ensures ReadGroup(like, GroupBytes(g) + rest) == Got(g, rest)
  {
    match g
    case One(a) => ReadIntBack(a, rest);
    case Two(a, b) => ReadTwoBack(a, b, rest);
    case Three(a, b, c) =>
      Glue(IntBytes(a), IntBytes(b) + IntBytes(c), rest);
      ReadIntBack(a, IntBytes(b) + IntBytes(c) + rest);
      ReadTwoBack(b, c, rest);
    case Blob(b) => ReadBlobBack(b, rest);
    case Sounds(list) =>
      Glue(IntBytes(|list|), SoundsBytes(list), rest);
      ReadIntBack(|list|, SoundsBytes(list) + rest);
      ReadSoundsBack(list, rest);
    case Peers(list) =>
      Glue(IntBytes(|list|), PeersBytes(list), rest);
      ReadIntBack(|list|, PeersBytes(list) + rest);
      ReadPeersBack(list, rest);
  }

  /** What a read gives does not depend on what comes after it. */
  lemma ReadGroupMore(like: Group, s: Bytes, t: Bytes)
    requires ReadGroup(like, s).Got?
    ensures ReadGroup(like, s + t) == Got(ReadGroup(like, s).value, ReadGroup(like, s).rest + t)
  {
    match like
    case One(_) => ReadU32More(s, t);
    case Two(_, _) => ReadTwoMore(s, t);
    case Three(_, _, _) =>
      ReadU32More(s, t);
      ReadTwoMore(ReadInt(s).rest, t);
    case Blob(_) => ReadBlobMore(s, t);
    case Sounds(_) =>
      ReadU32More(s, t);
      ReadSoundsMore(ReadInt(s).value, ReadInt(s).rest, t);
    case Peers(_) =>
      ReadU32More(s, t);
      ReadPeersMore(ReadInt(s).value, ReadInt(s).rest, t);
  }

  /** A group that is cut anywhere cannot be read. */
  lemma CutGroupIsBad(g: Group, like: Group, n: nat)
    requires Storable(g) && Alike(g, like) && n < |GroupBytes(g)|
    ensures ReadGroup(like, GroupBytes(g)[..n]).Bad?
  {
    ReadGroupBack(g, like, []);
    assert GroupBytes(g) + [] == GroupBytes(g);
    CutIsBad(like, GroupBytes(g), n);
  }

  /** Since nothing may be left over after the whole, less than the whole cannot be enough. */
  lemma CutIsBad(like: Group, s: Bytes, n: nat)
    requires ReadGroup(like, s).Got? && ReadGroup(like, s).rest == [] && n < |s|
    ensures ReadGroup(like, s[..n]).Bad?
  {
    assert s[..n] + s[n..] == s;
    if ReadGroup(like, s[..n]).Got? {
      ReadGroupMore(like, s[..n], s[n..]);
    }
  }

  // ---------------------------------------------------------------- streams

  function AllBytes(groups: seq<Group>): Bytes
    requires forall i :: 0 <= i < |groups| ==> Storable(groups[i])
  {
    if groups == [] then [] else GroupBytes(groups[0]) + AllBytes(groups[1..])
  }

  /** The groups, and how many of them were read. */
  datatype Decoded = Decoded(groups: seq<Group>, count: nat)

  /** The groups from i on take what the stream has; where it ends they keep what they are.  The
      first group is read in any case. */
  function Decode(groups: seq<Group>, i: nat, s: Bytes): Read<Decoded>
    requires i <= |groups|
    decreases |groups| - i
  {
    if i == |groups| || (i > 0 && s == []) then Got(Decoded(groups, i), s)
    else match ReadGroup(groups[i], s)
      case Bad => Bad
      case Got(g, rest) => Decode(groups[i := g], i + 1, rest)
  }

  predicate AllAlike(groups: seq<Group>, others: seq<Group>) {
    |groups| == |others| && forall i :: 0 <= i < |groups| ==> Alike(groups[i], others[i])
  }

  lemma ReadAlike(like: Group, s: Bytes)
    requires ReadGroup(like, s).Got?
    ensures Alike(like, ReadGroup(like, s).value)
  {
  }

  /** Whatever the stream is, the fields that are read are those that were there. */
  lemma {:induction false} DecodedAlike(groups: seq<Group>, i: nat, s: Bytes, likes: seq<Group>)
    requires i <= |groups| && Decode(groups, i, s).Got? && AllAlike(likes, groups)
    ensures AllAlike(likes, Decode(groups, i, s).value.groups)
    decreases |groups| - i
  {
    if i < |groups| && (i == 0 || s != []) {
      ReadAlike(groups[i], s);
      var read := ReadGroup(groups[i], s);
      DecodedAlike(groups[i := read.value], i + 1, read.rest, likes);
    }
  }

  ghost predicate Match(groups: seq<Group>, likes: seq<Group>) {
    && |groups| == |likes|
    && (forall i :: 0 <= i < |groups| ==> Storable(groups[i]) && Alike(groups[i], likes[i]))
  }

  /** A stream of the first k groups, followed by some of the next one: it is read if nothing of the
      next group is there, and bad otherwise. */
  lemma {:induction false} CutStream(groups: seq<Group>, likes: seq<Group>, i: nat, k: nat, tail: Bytes)
    requires Match(groups, likes) && i <= k <= |groups| && k > 0
    requires tail == [] || (k < |groups| && |tail| < |GroupBytes(groups[k])| && tail == GroupBytes(groups[k])[..|tail|])
    ensures Decode(groups[..i] + likes[i..], i, AllBytes(groups[i..k]) + tail)
         == if tail == [] then Got(Decoded(groups[..k] + likes[k..], k), []) else Bad
    decreases k - i
  {
    hide Decode, AllBytes;
    if i == k {
      CutHere(groups, likes, k, tail);
    } else {
      CutStream(groups, likes, i + 1, k, tail);
      OneGroup(groups, likes, i, k, tail);
    }
  }

  lemma CutHere(groups: seq<Group>, likes: seq<Group>, k: nat, tail: Bytes)
    requires Match(groups, likes) && 0 < k <= |groups|
    requires tail == [] || (k < |groups| && |tail| < |GroupBytes(groups[k])| && tail == GroupBytes(groups[k])[..|tail|])
    ensures Decode(groups[..k] + likes[k..], k, AllBytes(groups[k..k]) + tail)
         == if tail == [] then Got(Decoded(groups[..k] + likes[k..], k), []) else Bad
  {
    assert AllBytes(groups[k..k]) + tail == tail;
    if tail != [] {
      CutGroupIsBad(groups[k], likes[k], |tail|);
    }
  }

  lemma OneGroup(groups: seq<Group>, likes: seq<Group>, i: nat, k: nat, tail: Bytes)
    requires Match(groups, likes) && i < k <= |groups|
    ensures Decode(groups[..i] + likes[i..], i, AllBytes(groups[i..k]) + tail)
         == Decode(groups[..i + 1] + likes[i + 1..], i + 1, AllBytes(groups[i + 1..k]) + tail)
  {
    var now := groups[..i] + likes[i..];
    assert groups[i..k][1..] == groups[i + 1..k];
    Glue(GroupBytes(groups[i]), AllBytes(groups[i + 1..k]), tail);
    ReadGroupBack(groups[i], likes[i], AllBytes(groups[i + 1..k]) + tail);
    assert now[i := groups[i]] == groups[..i + 1] + likes[i + 1..];
    NotEmpty(groups[i]);
  }

  lemma NotEmpty(g: Group)
    requires Storable(g)
    ensures GroupBytes(g) != []
  {
  }

  /** Where a cut of the stream at n lies: after k whole groups, m bytes into the next one. */
  lemma CutLies(groups: seq<Group>, n: nat) returns (k: nat, tail: Bytes)
    requires (forall i :: 0 <= i < |groups| ==> Storable(groups[i])) && n <= |AllBytes(groups)|
    ensures k <= |groups| && AllBytes(groups)[..n] == AllBytes(groups[..k]) + tail
    ensures tail != [] ==> k < |groups| && |tail| < |GroupBytes(groups[k])| && tail == GroupBytes(groups[k])[..|tail|]
  {
    hide AllBytes, GroupBytes;
    if groups == [] || n < |GroupBytes(groups[0])| {
      k, tail := 0, AllBytes(groups)[..n];
      CutInFirst(groups, n);
    } else {
      FirstBytes(groups);
      var first := GroupBytes(groups[0]);
      k, tail := CutLies(groups[1..], n - |first|);
      CutAfterFirst(groups, n, k, tail);
      k := k + 1;
    }
  }

  lemma FirstBytes(groups: seq<Group>)
    requires groups != [] && forall i :: 0 <= i < |groups| ==> Storable(groups[i])
    ensures AllBytes(groups) == GroupBytes(groups[0]) + AllBytes(groups[1..])
  {
  }

  lemma CutInFirst(groups: seq<Group>, n: nat)
    requires (forall i :: 0 <= i < |groups| ==> Storable(groups[i])) && n <= |AllBytes(groups)|
    requires groups == [] || n < |GroupBytes(groups[0])|
    ensures AllBytes(groups)[..n] == AllBytes(groups[..0]) + AllBytes(groups)[..n]
    ensures AllBytes(groups)[..n] != [] ==> groups != [] && AllBytes(groups)[..n] == GroupBytes(groups[0])[..n]
  {
    hide GroupBytes;
    if groups != [] { FirstBytes(groups); }
  }

  lemma CutAfterFirst(groups: seq<Group>, n: nat, k: nat, tail: Bytes)
    requires groups != [] && (forall i :: 0 <= i < |groups| ==> Storable(groups[i])) && k < |groups|
    requires |GroupBytes(groups[0])| <= n <= |AllBytes(groups)|
    requires AllBytes(groups[1..])[..n - |GroupBytes(groups[0])|] == AllBytes(groups[1..][..k]) + tail
    ensures AllBytes(groups)[..n] == AllBytes(groups[..k + 1]) + tail
  {
    var first := GroupBytes(groups[0]);
    assert AllBytes(groups)[..n] == first + AllBytes(groups[1..])[..n - |first|];
    assert groups[..k + 1][1..] == groups[1..][..k];
    Glue(first, AllBytes(groups[1..][..k]), tail);
  }

  lemma NothingAfter(s: Bytes, t: Bytes)
    requires s <= t
    ensures s + [] == s && t[..|s|] == s
  {
  }

  lemma {:induction false} PrefixBytes(groups: seq<Group>, k: nat)
    requires (forall i :: 0 <= i < |groups| ==> Storable(groups[i])) && k <= |groups|
    ensures AllBytes(groups[..k]) <= AllBytes(groups)
  {
    if k > 0 {
      PrefixBytes(groups[1..], k - 1);
      assert groups[..k][1..] == groups[1..][..k - 1];
    }
  }

  // ---------------------------------------------------------------- reading

  function Before<T>(list: seq<T>, read: Read<seq<T>>): Read<seq<T>> {
    match read
    case Bad => Bad
    case Got(more, rest) => Got(list + more, rest)
  }

  /** A QDataStream that is read; once a read has failed nothing more is there. */
  class DataStream {
    var rest: Bytes
    var ok: bool

    constructor (s: Bytes)
      ensures rest == s && ok
    {
      rest, ok := s, true;
    }

    method Fail()
      modifies this
      ensures rest == [] && !ok
    {
      rest, ok := [], false;
    }

    method ReadInt32() returns (v: int)
      modifies this
      ensures match ReadInt(old(rest))
              case Bad => rest == [] && !ok
              case Got(u, more) => v == u && rest == more && ok == old(ok)
    {
      v := 0;
      match ReadInt(rest) {
        case Bad => Fail();
        case Got(u, more) => v, rest := u, more;
      }
    }

    method ReadOverride() returns (x: Sound)
      modifies this
      ensures match ReadSound(old(rest))
              case Bad => rest == [] && !ok
              case Got(y, more) => x == y && rest == more && ok == old(ok)
    {
      x := Sound([], []);
      match ReadString(rest) {
        case Bad => Fail();
        case Got(key, s) =>
          match ReadString(s) {
            case Bad => Fail();
            case Got(path, more) => x, rest := Sound(key, path), more;
          }
      }
    }

    method ReadPeer() returns (p: nat)
      modifies this
      ensures match ReadU64(old(rest))
              case Bad => rest == [] && !ok
              case Got(q, more) => p == q && rest == more && ok == old(ok)
    {
      p := 0;
      match ReadU64(rest) {
        case Bad => Fail();
        case Got(q, more) => p, rest := q, more;
      }
    }

    /** The counted loop over the sound overrides. */
    method ReadOverrides(count: nat) returns (list: seq<Sound>)
      requires ok
      modifies this
      ensures match ReadSounds(count, old(rest))
              case Bad => rest == [] && !ok
              case Got(sounds, more) => list == sounds && rest == more && ok
    {
      hide ReadSound;
      list := [];
      Prepended(ReadSounds(count, rest));
      var i := 0;
      while i != count && ok
        invariant 0 <= i <= count
        invariant ok ==> ReadSounds(count, old(rest)) == Before(list, ReadSounds(count - i, rest))
        invariant !ok ==> rest == [] && ReadSounds(count, old(rest)).Bad?
        decreases count - i, ok
      {
        var x := ReadOverride();
        if ok {
          Appended(list, x, ReadSounds(count - i - 1, rest));
          list := list + [x];
          i := i + 1;
        }
      }
      assert ok ==> list + [] == list;
    }

    /** The counted loop over the hidden peers. */
    method ReadHidden(count: nat) returns (list: seq<nat>)
      requires ok
      modifies this
      ensures match ReadPeers(count, old(rest))
              case Bad => rest == [] && !ok
              case Got(peers, more) => list == peers && rest == more && ok
    {
      hide ReadU64;
      list := [];
      Prepended(ReadPeers(count, rest));
      var i := 0;
      while i != count && ok
        invariant 0 <= i <= count
        invariant ok ==> ReadPeers(count, old(rest)) == Before(list, ReadPeers(count - i, rest))
        invariant !ok ==> rest == [] && ReadPeers(count, old(rest)).Bad?
        decreases count - i, ok
      {
        var p := ReadPeer();
        if ok {
          Appended(list, p, ReadPeers(count - i - 1, rest));
          list := list + [p];
          i := i + 1;
        }
      }
      assert ok ==> list + [] == list;
    }

    /** The fields of one group. */
    method ReadFields(like: Group) returns (g: Group)
      requires ok
      modifies this
      ensures match ReadGroup(like, old(rest))
              case Bad => rest == [] && !ok
              case Got(h, more) => g == h && rest == more && ok
    {
      g := like;
      match like {
        case One(_) =>
          var a := ReadInt32();
          g := One(a);
        case Two(_, _) =>
          var a := ReadInt32();
          if ok { var b := ReadInt32(); g := Two(a, b); }
        case Three(_, _, _) =>
          var a := ReadInt32();
          if ok {
            var b := ReadInt32();
            if ok { var c := ReadInt32(); g := Three(a, b, c); }
          }
        case Sounds(_) =>
          var count := ReadInt32();
          if ok {
            if count < 0 { Fail(); } else { var list := ReadOverrides(count); g := Sounds(list); }
          }
        case Peers(_) =>
          var count := ReadInt32();
          if ok {
            if count < 0 { Fail(); } else { var list := ReadHidden(count); g := Peers(list); }
          }
        case Blob(_) =>
          match ReadBlob(rest) {
            case Bad => Fail();
            case Got(b, more) => g, rest := Blob(b), more;
          }
      }
    }

    /** Group after group, the first one in any case and the others while the stream is not at its
        end. */
    method ReadAll(groups: seq<Group>) returns (read: seq<Group>, count: nat)
      requires ok && groups != []
      modifies this
      ensures match Decode(groups, 0, old(rest))
              case Bad => !ok
              case Got(d, _) => ok && read == d.groups && count == d.count
    {
      read, count := groups, 0;
      while count < |groups| && ok && (count == 0 || rest != [])
        invariant count <= |groups| == |read|
        invariant ok ==> Decode(groups, 0, old(rest)) == Decode(read, count, rest)
        invariant !ok ==> Decode(groups, 0, old(rest)).Bad?
        decreases |groups| - count, ok
      {
        var g := ReadFields(read[count]);
        if ok {
          read, count := read[count := g], count + 1;
        }
      }
    }
  }

  lemma Prepended<T>(read: Read<seq<T>>)
    ensures Before([], read) == read
  {
    if read.Got? {
      assert [] + read.value == read.value;
    }
  }

  lemma Appended<T>(list: seq<T>, x: T, read: Read<seq<T>>)
    ensures Before(list, Before([x], read)) == Before(list + [x], read)
  {
    if read.Got? {
      assert list + ([x] + read.value) == list + [x] + read.value;
    }
  }
}
