/** The settings of a session: how they are stored, how they are read back, and the three sections
    of which at most one is shown. */
module Settings {
  import opened SettingsStream
  import opened OrderedKeys
  import opened OrderedNames

  // The values of the enumerations, as they are stored.
  const TOP_LEFT := 1
  const TOP_RIGHT := 4
  const BOTTOM_LEFT := 64
  const BOTTOM_RIGHT := 256
  const ENTER := 0
  const CTRL_ENTER := 1
  const LEGACY_NOBODY := 4      // kLegacyCallsPeerToPeerNobody

  datatype Sections = Sections(bettergramTabs: bool, tabbed: bool, third: bool)

  datatype Support = Support(switch: int, fixChatsOrder: bool, templates: bool, timeSlice: int, allResults: bool)

  datatype Player = Player(column: int, corner: int)

  datatype Widths = Widths(ratio: real, thirdColumn: int, extendedBy: int)

  datatype Variables = Variables(
    selectorTab: int, lastSeenWarningSeen: bool, sections: Sections, soundOverrides: map<QString, QString>,
    tooltipShown: int, player: Player, hidden: set<nat>, smallDialogsList: bool, widths: Widths,
    sendFilesWay: int, sendSubmitWay: int, hadLegacyNobody: bool, support: Support,
    includeMuted: bool, countUnread: bool, exeLaunchWarning: bool, autoDownload: Bytes)

  predicate IsCorner(corner: int) {
    corner == TOP_LEFT || corner == TOP_RIGHT || corner == BOTTOM_LEFT || corner == BOTTOM_RIGHT
  }

  /** An enumeration of three values: selectorTab, the column, sendFilesWay, the support switch. */
  predicate OneOfThree(value: int) {
    0 <= value < 3
  }

  /** What the types of the fields allow, and what fits into the stream; the submit way has four
      values, and a corner may be any combination of RectPart. */
  ghost predicate Sensible(v: Variables) {
    && OneOfThree(v.selectorTab) && OneOfThree(v.player.column)
    && OneOfThree(v.sendFilesWay) && OneOfThree(v.support.switch)
    && 0 <= v.sendSubmitWay < 4
    && Int32(v.player.corner) && Int32(v.tooltipShown) && Int32(v.support.timeSlice)
    && Int32(v.widths.thirdColumn) && Int32(v.widths.extendedBy)
    && Int32(|v.soundOverrides|)
    && (forall k :: k in v.soundOverrides ==> 2 * |k| < NULL && 2 * |v.soundOverrides[k]| < NULL)
    && Int32(|v.hidden|) && (forall p :: p in v.hidden ==> p < 0x1_0000_0000_0000_0000)
    && |v.autoDownload| < NULL
  }

  // ---------------------------------------------------------------- the ratio

  /** qRound */
  function Round(x: real): int {
    (x + 0.5).Floor
  }

  /** The ratio as it is stored. */
  function Millionths(ratio: real): (n: int)
    ensures 0 <= n <= 1000000
  {
    var n := Round(ratio * 1000000.0);
    if n < 0 then 0 else if n > 1000000 then 1000000 else n
  }

  function Ratio(n: int): real {
    if n < 0 then 0.0 else if n > 1000000 then 1.0 else n as real / 1000000.0
  }

  lemma FloorIs(x: real, n: int)
    requires n as real <= x < n as real + 1.0
    ensures x.Floor == n
  {
  }

  lemma RoundIsNear(x: real)
    ensures -0.5 <= Round(x) as real - x <= 0.5
    ensures Round(x) as real == x <==> x.Floor as real == x
  {
    var n := x.Floor;
    if x < n as real + 0.5 {
      FloorIs(x + 0.5, n);
    } else {
      FloorIs(x + 0.5, n + 1);
    }
  }

  function Snapped(ratio: real): real {
    if ratio < 0.0 then 0.0 else if ratio > 1.0 then 1.0 else ratio
  }

  /** A ratio that the stream can hold. */
  predicate Whole(ratio: real) {
    0.0 <= ratio <= 1.0 && (ratio * 1000000.0).Floor as real == ratio * 1000000.0
  }

  /** A ratio comes back snapped to 0..1 and then to the nearest millionth, and unchanged exactly if
      it is a whole number of millionths in there. */
  lemma RatioBack(ratio: real)
    ensures -0.5 <= (Ratio(Millionths(ratio)) - Snapped(ratio)) * 1000000.0 <= 0.5
    ensures Ratio(Millionths(ratio)) == ratio <==> Whole(ratio)
  {
    RoundIsNear(ratio * 1000000.0);
  }

  /** Two that do not come back: one outside of 0..1, and one between two millionths. */
  lemma RatiosLost()
    ensures Ratio(Millionths(2.0)) == 1.0 && Ratio(Millionths(-2.0)) == 0.0
    ensures Ratio(Millionths(0.0000004)) == 0.0
  {
    FloorIs(2000000.5, 2000000);
    FloorIs(-1999999.5, -2000000);
    FloorIs(0.9, 0);
  }

  // ---------------------------------------------------------------- packing

  function Flag(b: bool): int {
    if b then 1 else 0
  }

  /** The groups of the stream, with the sound overrides and the peers in the given order. */
  function Pack(v: Variables, sounds: seq<Sound>, peers: seq<nat>): seq<Group> {
    [ Two(v.selectorTab, Flag(v.lastSeenWarningSeen)),
      One(Flag(v.sections.tabbed)),
      Sounds(sounds),
      One(v.tooltipShown),
      Two(v.player.column, v.player.corner),
      Peers(peers),
      Two(Flag(v.sections.third), Flag(v.smallDialogsList)),
      Three(Millionths(v.widths.ratio), v.widths.thirdColumn, v.widths.extendedBy),
      One(v.sendFilesWay),
      One(0),
      Three(v.sendSubmitWay, v.support.switch, Flag(v.support.fixChatsOrder)),
      One(Flag(v.support.templates)),
      One(v.support.timeSlice),
      Two(Flag(v.includeMuted), Flag(v.countUnread)),
      One(Flag(v.exeLaunchWarning)),
      Blob(v.autoDownload),
      One(Flag(v.support.allResults)) ]
  }

  const GROUPS: nat := 17
  const WIDTHS: nat := 7

  /** What the local variables hold before the stream is read. */
  function Locals(v: Variables): seq<Group> {
    [ Two(0, 0),
      One(1),
      Sounds([]),
      One(0),
      Two(1, TOP_RIGHT),
      Peers([]),
      Two(0, 0),
      Three(0, v.widths.thirdColumn, v.widths.extendedBy),   // the ratio is kept aside
      One(v.sendFilesWay),
      One(0),
      Three(v.sendSubmitWay, v.support.switch, Flag(v.support.fixChatsOrder)),
      One(Flag(v.support.templates)),
      One(v.support.timeSlice),
      Two(Flag(v.includeMuted), Flag(v.countUnread)),
      One(Flag(v.exeLaunchWarning)),
      Blob([]),
      One(Flag(v.support.allResults)) ]
  }

  function MapOf(sounds: seq<Sound>): map<QString, QString> {
    if sounds == [] then map[]
    else MapOf(sounds[..|sounds| - 1])[sounds[|sounds| - 1].key := sounds[|sounds| - 1].path]
  }

  function SetOf(peers: seq<nat>): set<nat> {
    set p | p in peers
  }

  /** After a decoding the tabs of the sections give way to each other in this order. */
  function Settled(tabs: bool, tabbed: bool, third: bool): Sections {
    if tabbed then Sections(false, true, false)
    else if third then Sections(false, false, true)
    else Sections(tabs, false, false)
  }

  /** The local variables become the settings; `tabs` comes from the other store. */
  function Applied(v: Variables, g: seq<Group>, count: nat, tabs: bool): Variables
    requires Shaped(g)
  {
    Variables(
      if OneOfThree(g[0].a) then g[0].a else v.selectorTab,
      g[0].b == 1,
      Settled(tabs, g[1].a == 1, g[6].a != 0),
      MapOf(g[2].sounds),
      g[3].a,
      Player(if OneOfThree(g[4].a) then g[4].a else v.player.column,
             if IsCorner(g[4].b) then g[4].b else v.player.corner),
      SetOf(g[5].peers),
      g[6].b != 0,
      Widths(if count > WIDTHS then Ratio(g[7].a) else v.widths.ratio, g[7].b, g[7].c),
      if OneOfThree(g[8].a) then g[8].a else v.sendFilesWay,
      if g[10].a == ENTER || g[10].a == CTRL_ENTER then g[10].a else v.sendSubmitWay,
      g[9].a == LEGACY_NOBODY,
      Support(if OneOfThree(g[10].b) then g[10].b else v.support.switch, g[10].c == 1, g[11].a == 1,
              g[12].a, g[16].a == 1),
      g[13].a == 1,
      g[13].b == 1,
      g[14].a == 1,
      if g[15].blob != [] then g[15].blob else v.autoDownload)
  }

  predicate Shaped(g: seq<Group>) {
    && |g| == GROUPS
    && g[0].Two? && g[1].One? && g[2].Sounds? && g[3].One? && g[4].Two? && g[5].Peers? && g[6].Two? && g[7].Three?
    && g[8].One? && g[9].One? && g[10].Three? && g[11].One? && g[12].One?
    && g[13].Two? && g[14].One? && g[15].Blob? && g[16].One?
  }

  lemma AlikeKeepsShape(g: seq<Group>, h: seq<Group>)
    requires Shaped(g) && AllAlike(g, h)
    ensures Shaped(h)
  {
  }

  // ---------------------------------------------------------------- reading

  lemma LocalsShaped(v: Variables)
    ensures Shaped(Locals(v)) && AllAlike(Locals(v), Locals(v))
  {
    hide Flag;
  }

  lemma DecodedShaped(v: Variables, s: Bytes)
    requires Decode(Locals(v), 0, s).Got?
    ensures Shaped(Decode(Locals(v), 0, s).value.groups)
  {
    LocalsShaped(v);
    DecodedAlike(Locals(v), 0, s, Locals(v));
    AlikeKeepsShape(Locals(v), Decode(Locals(v), 0, s).value.groups);
  }

  /** constructFromSerialized; `accepts` tells whether setFromSerialized takes the autoDownload. */
  function Constructed(v: Variables, s: Bytes, tabs: bool, accepts: Bytes -> bool): Variables {
    if s == [] then v
    else match Decode(Locals(v), 0, s)
      case Bad => v
      case Got(read, _) =>
        DecodedShaped(v, s);
        if read.groups[15].blob != [] && !accepts(read.groups[15].blob) then v
        else Applied(v, read.groups, read.count, tabs)
  }

  // ---------------------------------------------------------------- at most one section

  predicate AtMostOne(s: Sections) {
    !(s.bettergramTabs && s.tabbed) && !(s.bettergramTabs && s.third) && !(s.tabbed && s.third)
  }

  /** Whatever is read, at most one of the sections is shown. */
  lemma ConstructedShowsOne(v: Variables, s: Bytes, tabs: bool, accepts: Bytes -> bool)
    requires AtMostOne(v.sections)
    ensures AtMostOne(Constructed(v, s, tabs, accepts).sections)
  {
    hide Decode, Locals;
    if s != [] && Decode(Locals(v), 0, s).Got? {
      DecodedShaped(v, s);
    }
  }

  // ---------------------------------------------------------------- round trip

  ghost predicate KeysRise(sounds: seq<Sound>) {
    forall i, j :: 0 <= i < j < |sounds| ==> Earlier(sounds[i].key, sounds[j].key)
  }

  /** Every key of the map once, in the order of the keys. */
  ghost predicate ListsSounds(sounds: seq<Sound>, m: map<QString, QString>) {
    |sounds| == |m| && KeysRise(sounds) && MapOf(sounds) == m
  }

  ghost predicate ListsPeers(peers: seq<nat>, hidden: set<nat>) {
    && |peers| == |hidden| && SetOf(peers) == hidden
    && (forall i, j :: 0 <= i < j < |peers| ==> peers[i] < peers[j])
  }

  lemma {:induction false} MapOfHas(sounds: seq<Sound>)
    requires KeysRise(sounds)
    ensures forall i :: 0 <= i < |sounds| ==>
            sounds[i].key in MapOf(sounds) && MapOf(sounds)[sounds[i].key] == sounds[i].path
  {
    if sounds != [] {
      var n := |sounds| - 1;
      MapOfHas(sounds[..n]);
      forall i | 0 <= i < n ensures sounds[i].key != sounds[n].key { NotEarlier(sounds[i].key); }
    }
  }

  lemma {:induction false} MapOfKeys(sounds: seq<Sound>)
    ensures forall key :: key in MapOf(sounds) <==> key in KeysOf(sounds)
  {
    if sounds != [] {
      var n := |sounds| - 1;
      MapOfKeys(sounds[..n]);
      assert KeysOf(sounds) == KeysOf(sounds[..n]) + [sounds[n].key];
    }
  }

  function KeysOf(sounds: seq<Sound>): (keys: seq<Name>)
    ensures |keys| == |sounds| && forall i :: 0 <= i < |keys| ==> keys[i] == sounds[i].key
  {
    seq(|sounds|, i requires 0 <= i < |sounds| => sounds[i].key)
  }

  /** The order of the two containers leaves one stream for each settings object. */
  lemma OneStream(x: Stored, y: Stored)
    requires Fits(x) && Fits(y) && x.v == y.v
    ensures x == y && AllBytes(GroupsOf(x)) == AllBytes(GroupsOf(y))
  {
    SameSounds(x.sounds, y.sounds, x.v.soundOverrides);
    SamePeers(x.peers, y.peers, x.v.hidden);
  }

  lemma SameSounds(list: seq<Sound>, other: seq<Sound>, m: map<QString, QString>)
    requires ListsSounds(list, m) && ListsSounds(other, m)
    ensures list == other
  {
    MapOfHas(list);
    MapOfHas(other);
    MapOfKeys(list);
    MapOfKeys(other);
    EarlierIsStrict();
    OneRisingList(KeysOf(list), KeysOf(other), Earlier);
    forall i | 0 <= i < |list| ensures list[i] == other[i] {
      assert KeysOf(list)[i] == KeysOf(other)[i];
    }
  }

  ghost predicate PeersSoFar(peers: seq<nat>, rest: set<nat>, hidden: set<nat>) {
    && rest <= hidden && |peers| + |rest| == |hidden| && SetOf(peers) == hidden - rest
    && (forall i, j :: 0 <= i < j < |peers| ==> peers[i] < peers[j])
    && (forall i, q :: 0 <= i < |peers| && q in rest ==> peers[i] < q)
  }

  lemma OnePeerMore(peers: seq<nat>, rest: set<nat>, hidden: set<nat>, p: nat)
    requires PeersSoFar(peers, rest, hidden) && p in rest && forall q :: q in rest ==> p <= q
    ensures PeersSoFar(peers + [p], rest - {p}, hidden)
  {
    hide SetOf;
    SetOfMore(peers, p);
  }

  lemma SetOfMore(peers: seq<nat>, p: nat)
    ensures SetOf(peers + [p]) == SetOf(peers) + {p}
  {
  }

  ghost predicate SoundsSoFar(sounds: seq<Sound>, rest: set<QString>, m: map<QString, QString>) {
    && rest <= m.Keys && |sounds| + |rest| == |m| && KeysRise(sounds) && AllBefore(sounds, rest)
    && MapOf(sounds) == Without(m, rest)
  }

  function Without(m: map<QString, QString>, rest: set<QString>): map<QString, QString> {
    map k | k in m && k !in rest :: m[k]
  }

  lemma WithoutLess(m: map<QString, QString>, rest: set<QString>, key: QString)
    requires key in rest && key in m
    ensures Without(m, rest)[key := m[key]] == Without(m, rest - {key})
  {
  }

  lemma WithoutEnds(m: map<QString, QString>)
    ensures Without(m, m.Keys) == map[] && Without(m, {}) == m
  {
  }

  lemma OneSoundMore(sounds: seq<Sound>, rest: set<QString>, m: map<QString, QString>, key: QString)
    requires SoundsSoFar(sounds, rest, m) && key in rest && forall k :: k in rest ==> k == key || Earlier(key, k)
    ensures SoundsSoFar(sounds + [Sound(key, m[key])], rest - {key}, m)
  {
    hide Earlier, MapOf, Without, KeysRise, AllBefore;
    MapOfMore(sounds, Sound(key, m[key]));
    WithoutLess(m, rest, key);
    OneKeyMore(sounds, rest, Sound(key, m[key]));
  }

  ghost predicate AllBefore(sounds: seq<Sound>, rest: set<QString>) {
    forall i, k :: 0 <= i < |sounds| && k in rest ==> Earlier(sounds[i].key, k)
  }

  lemma OneKeyMore(sounds: seq<Sound>, rest: set<QString>, sound: Sound)
    requires KeysRise(sounds) && AllBefore(sounds, rest) && sound.key in rest
    requires forall k :: k in rest ==> k == sound.key || Earlier(sound.key, k)
    ensures KeysRise(sounds + [sound]) && AllBefore(sounds + [sound], rest - {sound.key})
  {
    hide Earlier;
  }

  lemma MapOfMore(sounds: seq<Sound>, sound: Sound)
    ensures MapOf(sounds + [sound]) == MapOf(sounds)[sound.key := sound.path]
  {
    assert (sounds + [sound])[..|sounds|] == sounds;
  }

  lemma SamePeers(list: seq<nat>, other: seq<nat>, hidden: set<nat>)
    requires ListsPeers(list, hidden) && ListsPeers(other, hidden)
    ensures list == other
  {
    assert forall p :: p in list <==> p in SetOf(list);
    assert forall p :: p in other <==> p in SetOf(other);
    OneRisingList(list, other, (p: nat, q: nat) => p < q);
  }

  lemma ListsStored(v: Variables, sounds: seq<Sound>, peers: seq<nat>)
    requires Sensible(v) && ListsSounds(sounds, v.soundOverrides) && ListsPeers(peers, v.hidden)
    ensures Storable(Sounds(sounds)) && Storable(Peers(peers)) && Storable(Blob(v.autoDownload))
  {
    MapOfHas(sounds);
    forall i | 0 <= i < |peers| ensures peers[i] < 0x1_0000_0000_0000_0000 {
      assert peers[i] in SetOf(peers);
    }
  }

  lemma PackShaped(v: Variables, sounds: seq<Sound>, peers: seq<nat>)
    ensures Shaped(Pack(v, sounds, peers))
  {
    hide Flag, Millionths;
  }

  lemma ShapedAlike(g: seq<Group>, h: seq<Group>)
    requires Shaped(g) && Shaped(h)
    ensures AllAlike(g, h)
  {
  }

  lemma PackStored(v: Variables, sounds: seq<Sound>, peers: seq<nat>)
    requires Sensible(v) && ListsSounds(sounds, v.soundOverrides) && ListsPeers(peers, v.hidden)
    ensures forall i :: 0 <= i < GROUPS ==> Storable(Pack(v, sounds, peers)[i])
  {
    ListsStored(v, sounds, peers);
    FirstStored(v, sounds, peers);
    MiddleStored(v, sounds, peers);
    LastStored(v, sounds, peers);
  }

  lemma FirstStored(v: Variables, sounds: seq<Sound>, peers: seq<nat>)
    requires Sensible(v) && Storable(Sounds(sounds)) && Storable(Peers(peers))
    ensures forall i :: 0 <= i < 6 ==> Storable(Pack(v, sounds, peers)[i])
  {
  }

  lemma MiddleStored(v: Variables, sounds: seq<Sound>, peers: seq<nat>)
    requires Sensible(v)
    ensures forall i :: 6 <= i < 12 ==> Storable(Pack(v, sounds, peers)[i])
  {
  }

  lemma LastStored(v: Variables, sounds: seq<Sound>, peers: seq<nat>)
    requires Sensible(v)
    ensures forall i :: 12 <= i < GROUPS ==> Storable(Pack(v, sounds, peers)[i])
  {
  }

  // ---------------------------------------------------------------- cuts and round trips

  /** What is stored: the groups for a settings object, and a list of its map and of its set. */
  datatype Stored = Stored(v: Variables, sounds: seq<Sound>, peers: seq<nat>)

  ghost predicate Fits(x: Stored) {
    Sensible(x.v) && ListsSounds(x.sounds, x.v.soundOverrides) && ListsPeers(x.peers, x.v.hidden)
  }

  ghost function GroupsOf(x: Stored): (g: seq<Group>)
    requires Fits(x)
    ensures Shaped(g) && forall i :: 0 <= i < |g| ==> Storable(g[i])
  {
    PackStored(x.v, x.sounds, x.peers);
    PackShaped(x.v, x.sounds, x.peers);
    Pack(x.v, x.sounds, x.peers)
  }

  lemma GroupsMatch(x: Stored, start: Variables)
    requires Fits(x)
    ensures Match(GroupsOf(x), Locals(start))
  {
    LocalsShaped(start);
    ShapedAlike(GroupsOf(x), Locals(start));
  }

  /** The first k groups of what was stored, and the local variables for the others. */
  ghost function Mixed(x: Stored, start: Variables, k: nat): (g: seq<Group>)
    requires Fits(x) && k <= GROUPS
    ensures Shaped(g)
  {
    LocalsShaped(start);
    MixShaped(GroupsOf(x), Locals(start), k);
    GroupsOf(x)[..k] + Locals(start)[k..]
  }

  lemma MixShaped(g: seq<Group>, h: seq<Group>, k: nat)
    requires Shaped(g) && Shaped(h) && k <= GROUPS
    ensures Shaped(g[..k] + h[k..])
  {
    var m := g[..k] + h[k..];
    assert forall i :: 0 <= i < GROUPS ==> m[i] == if i < k then g[i] else h[i];
  }

  /** The first k groups of a stream, followed by some of the next one: the fields of the k groups
      are taken and the others keep what they were; but nothing changes at all if there is some of
      the next one. */
  lemma CutAt(x: Stored, start: Variables, tabs: bool, accepts: Bytes -> bool, k: nat, tail: Bytes)
    requires Fits(x) && k <= GROUPS && accepts(x.v.autoDownload)
    requires tail != [] ==> k < GROUPS && |tail| < |GroupBytes(GroupsOf(x)[k])|
                            && tail == GroupBytes(GroupsOf(x)[k])[..|tail|]
    ensures Constructed(start, AllBytes(GroupsOf(x)[..k]) + tail, tabs, accepts)
         == if tail != [] || k == 0 then start else Applied(start, Mixed(x, start, k), k, tabs)
  {
    if k > 0 {
      CutDecodes(x, start, k, tail);
      if tail == [] { MixedBlob(x, start, k); }
    } else if tail != [] {
      GroupsMatch(x, start);
      CutGroupIsBad(GroupsOf(x)[0], Locals(start)[0], |tail|);
      assert AllBytes(GroupsOf(x)[..0]) + tail == tail;
    }
  }

  lemma CutDecodes(x: Stored, start: Variables, k: nat, tail: Bytes)
    requires Fits(x) && 0 < k <= GROUPS
    requires tail != [] ==> k < GROUPS && |tail| < |GroupBytes(GroupsOf(x)[k])|
                            && tail == GroupBytes(GroupsOf(x)[k])[..|tail|]
    ensures AllBytes(GroupsOf(x)[..k]) + tail != []
    ensures Decode(Locals(start), 0, AllBytes(GroupsOf(x)[..k]) + tail)
         == if tail == [] then Got(Decoded(Mixed(x, start, k), k), []) else Bad
  {
    hide Pack, Locals;
    var g, h := GroupsOf(x), Locals(start);
    GroupsMatch(x, start);
    CutStream(g, h, 0, k, tail);
    assert g[0..k] == g[..k] && g[..0] + h[0..] == h;
    NotEmpty(g[0]);
  }

  lemma MixedBlob(x: Stored, start: Variables, k: nat)
    requires Fits(x) && 0 < k <= GROUPS
    ensures Mixed(x, start, k)[15].blob == if 15 < k then x.v.autoDownload else []
  {
    LocalsShaped(start);
    var g, h := GroupsOf(x), Locals(start);
    assert (g[..k] + h[k..])[15] == if 15 < k then g[15] else h[15];
  }

  /** However many bytes of a stored stream are there: if they are exactly the first k groups, those
      are taken, and if they end anywhere else nothing changes. */
  lemma CutAnywhere(x: Stored, start: Variables, tabs: bool, accepts: Bytes -> bool, n: nat)
    requires Fits(x) && accepts(x.v.autoDownload) && n <= |AllBytes(GroupsOf(x))|
    ensures var r := Constructed(start, AllBytes(GroupsOf(x))[..n], tabs, accepts);
            && (forall k :: 0 < k <= GROUPS && Ends(x, k) == n ==> r == Applied(start, Mixed(x, start, k), k, tabs))
            && ((forall k :: 0 < k <= GROUPS ==> Ends(x, k) != n) ==> r == start)
  {
    forall k | 0 < k <= GROUPS && Ends(x, k) == n
      ensures Constructed(start, AllBytes(GroupsOf(x))[..n], tabs, accepts)
              == Applied(start, Mixed(x, start, k), k, tabs)
    {
      CutBetween(x, start, tabs, accepts, k);
    }
    var k, tail := CutLies(GroupsOf(x), n);
    CutAt(x, start, tabs, accepts, k, tail);
    if tail == [] && k > 0 {
      assert Ends(x, k) == n;
    }
  }

  /** How many bytes the first k groups have. */
  ghost function Ends(x: Stored, k: nat): nat
    requires Fits(x) && k <= GROUPS
  {
    |AllBytes(GroupsOf(x)[..k])|
  }

  lemma CutBetween(x: Stored, start: Variables, tabs: bool, accepts: Bytes -> bool, k: nat)
    requires Fits(x) && accepts(x.v.autoDownload) && 0 < k <= GROUPS && Ends(x, k) <= |AllBytes(GroupsOf(x))|
    ensures Constructed(start, AllBytes(GroupsOf(x))[..Ends(x, k)], tabs, accepts)
            == Applied(start, Mixed(x, start, k), k, tabs)
  {
    hide Pack, Locals;
    var s := AllBytes(GroupsOf(x)[..k]);
    PrefixBytes(GroupsOf(x), k);
    CutAt(x, start, tabs, accepts, k, []);
    NothingAfter(s, AllBytes(GroupsOf(x)));
  }

  /** What is there after the whole stream was read. */
  lemma RoundTrip(x: Stored, start: Variables, tabs: bool, accepts: Bytes -> bool)
    requires Fits(x) && accepts(x.v.autoDownload)
    ensures Constructed(start, AllBytes(GroupsOf(x)), tabs, accepts) == Restored(x.v, start, tabs)
  {
    hide Pack, Locals;
    var g := GroupsOf(x);
    CutAt(x, start, tabs, accepts, GROUPS, []);
    assert g[..GROUPS] == g && AllBytes(g) + [] == AllBytes(g);
    assert Mixed(x, start, GROUPS) == g;
    PackApplied(x, start, tabs);
  }

  /** Every field as it was stored, with these exceptions: a ratio to the millionth; a corner that is
      none and a submit way other than the two that are known, which do not come back; the third
      section, which gives way to the tabbed one; and the legacy field. */
  function Restored(v: Variables, start: Variables, tabs: bool): Variables {
    v.(sections := Settled(tabs, v.sections.tabbed, v.sections.third),
       player := v.player.(corner := if IsCorner(v.player.corner) then v.player.corner else start.player.corner),
       widths := v.widths.(ratio := Ratio(Millionths(v.widths.ratio))),
       sendSubmitWay :=
         if v.sendSubmitWay == ENTER || v.sendSubmitWay == CTRL_ENTER then v.sendSubmitWay else start.sendSubmitWay,
       hadLegacyNobody := false,
       autoDownload := if v.autoDownload != [] then v.autoDownload else start.autoDownload)
  }

  lemma PackApplied(x: Stored, start: Variables, tabs: bool)
    requires Fits(x)
    ensures Applied(start, GroupsOf(x), GROUPS, tabs) == Restored(x.v, start, tabs)
  {
  }

  /** The fields of the stream, without the legacy one, which is never stored. */
  function Streamed(v: Variables): Variables {
    v.(hadLegacyNobody := false, sections := v.sections.(bettergramTabs := false))
  }

  /** The stream gives back what was stored exactly when the ratio is a whole number of millionths
      in 0..1, the corner is a corner, the submit way is one of the two that are known, the blob is not empty
      and not both sections are on; or when what was there before makes up for it. */
  lemma RoundTripExactlyWhen(v: Variables, start: Variables, tabs: bool)
    requires Sensible(v)
    ensures Streamed(Restored(v, start, tabs)) == Streamed(v) <==>
              && Whole(v.widths.ratio)
              && (IsCorner(v.player.corner) || start.player.corner == v.player.corner)
              && (v.sendSubmitWay == ENTER || v.sendSubmitWay == CTRL_ENTER || start.sendSubmitWay == v.sendSubmitWay)
              && (v.autoDownload != [] || start.autoDownload == [])
              && !(v.sections.tabbed && v.sections.third)
  {
    RatioBack(v.widths.ratio);
  }

  // ---------------------------------------------------------------- the settings

  class AuthSessionSettings {
    var v: Variables
    var tabbedReplacedWithInfo: bool

    /** The stream of the settings, and what it stores. */
    method Serialize() returns (s: Bytes, x: Stored)
      requires Sensible(v)
      ensures Fits(x) && x.v == v && s == AllBytes(GroupsOf(x))
    {
      var sounds := ListSounds(v.soundOverrides);
      var peers := ListPeers(v.hidden);
      x := Stored(v, sounds, peers);
      PackStored(v, sounds, peers);
      s := AllBytes(Pack(v, sounds, peers));
    }

    method ListSounds(m: map<QString, QString>) returns (sounds: seq<Sound>)
      ensures ListsSounds(sounds, m)
    {
      hide Without, Earlier;
      WithoutEnds(m);
      sounds := [];
      var rest := m.Keys;
      while rest != {}
        invariant SoundsSoFar(sounds, rest, m)
        decreases |rest|
      {
        var key := First(rest);
        OneSoundMore(sounds, rest, m, key);
        sounds := sounds + [Sound(key, m[key])];
        rest := rest - {key};
      }
    }

    method ListPeers(hidden: set<nat>) returns (peers: seq<nat>)
      ensures ListsPeers(peers, hidden)
    {
      peers := [];
      var rest := hidden;
      while rest != {}
        invariant PeersSoFar(peers, rest, hidden)
        decreases |rest|
      {
        var p: nat := Min(rest);
        OnePeerMore(peers, rest, hidden, p);
        peers := peers + [p];
        rest := rest - {p};
      }
    }

    method ConstructFromSerialized(serialized: Bytes, tabs: bool, accepts: Bytes -> bool)
      modifies this`v
      ensures v == Constructed(old(v), serialized, tabs, accepts)
    {
      if serialized == [] { return; }
      var stream := new DataStream(serialized);
      var groups, count := stream.ReadAll(Locals(v));
      if !stream.ok { return; }
      DecodedShaped(v, serialized);
      if groups[15].blob != [] && !accepts(groups[15].blob) { return; }
      v := Applied(v, groups, count, tabs);
    }

    /** The setters, one after the other; at most one section is on at the end if that was so before. */
    method Change(changes: seq<Change>)
      modifies this
      ensures v == old(v).(sections := ChangedAll(old(v.sections), changes))
      ensures AtMostOne(old(v.sections)) ==> AtMostOne(v.sections)
    {
      for i := 0 to |changes|
        invariant v == old(v).(sections := ChangedAll(old(v.sections), changes[..i]))
      {
        assert changes[..i + 1][..i] == changes[..i];
        match changes[i] {
          case Tabs(enabled) => SetBettergramTabsSectionEnabled(enabled);
          case Tabbed(enabled) => SetTabbedSelectorSectionEnabled(enabled);
          case Third(enabled) => SetThirdSectionInfoEnabled(enabled);
        }
      }
      assert changes[..|changes|] == changes;
      if AtMostOne(old(v.sections)) { SettersShowOne(old(v.sections), changes); }
    }

    method SetTabbedReplacedWithInfo(enabled: bool)
      modifies this`tabbedReplacedWithInfo
      ensures tabbedReplacedWithInfo == enabled
    {
      if tabbedReplacedWithInfo != enabled {
        tabbedReplacedWithInfo := enabled;
      }
    }

    method SetBettergramTabsSectionEnabled(enabled: bool)
      modifies this
      ensures v == old(v).(sections :=
                if enabled then Sections(true, false, false) else old(v.sections).(bettergramTabs := false))
      ensures v.sections == Changed(old(v.sections), Tabs(enabled))
      ensures !tabbedReplacedWithInfo
      decreases enabled, 1
    {
      v := v.(sections := v.sections.(bettergramTabs := enabled));
      if enabled {
        SetTabbedSelectorSectionEnabled(false);
        SetThirdSectionInfoEnabled(false);
      }
      SetTabbedReplacedWithInfo(false);
    }

    method SetTabbedSelectorSectionEnabled(enabled: bool)
      modifies this
      ensures v == old(v).(sections :=
                if enabled then Sections(false, true, false) else old(v.sections).(tabbed := false))
      ensures v.sections == Changed(old(v.sections), Tabbed(enabled))
      ensures !tabbedReplacedWithInfo
      decreases enabled, 1
    {
      v := v.(sections := v.sections.(tabbed := enabled));
      if enabled {
        SetBettergramTabsSectionEnabled(false);
        SetThirdSectionInfoEnabled(false);
      }
      SetTabbedReplacedWithInfo(false);
    }

    /** Nothing at all happens if the section is as it should be already. */
    method SetThirdSectionInfoEnabled(enabled: bool)
      modifies this
      ensures v == if enabled == old(v.sections.third) then old(v)
                   else old(v).(sections :=
                     if enabled then Sections(false, false, true) else old(v.sections).(third := false))
      ensures v.sections == Changed(old(v.sections), Third(enabled))
      ensures tabbedReplacedWithInfo == (enabled == old(v.sections.third) && old(tabbedReplacedWithInfo))
      decreases enabled, 1
    {
      if v.sections.third != enabled {
        v := v.(sections := v.sections.(third := enabled));
        if enabled {
          SetBettergramTabsSectionEnabled(false);
          SetTabbedSelectorSectionEnabled(false);
        }
        SetTabbedReplacedWithInfo(false);
      }
    }
  }

  // ---------------------------------------------------------------- the setters in any order

  datatype Change = Tabs(enabled: bool) | Tabbed(enabled: bool) | Third(enabled: bool)

  function Changed(s: Sections, change: Change): Sections {
    match change
    case Tabs(on) => if on then Sections(true, false, false) else s.(bettergramTabs := false)
    case Tabbed(on) => if on then Sections(false, true, false) else s.(tabbed := false)
    case Third(on) => if on == s.third then s else if on then Sections(false, false, true) else s.(third := false)
  }

  function ChangedAll(s: Sections, changes: seq<Change>): Sections {
    if changes == [] then s else Changed(ChangedAll(s, changes[..|changes| - 1]), changes[|changes| - 1])
  }

  lemma ChangesGoOn(s: Sections, changes: seq<Change>, last: Change)
    ensures ChangedAll(s, changes + [last]) == Changed(ChangedAll(s, changes), last) && ChangedAll(s, []) == s
  {
    assert (changes + [last])[..|changes|] == changes;
  }

  lemma {:induction false} SettersShowOne(s: Sections, changes: seq<Change>)
    requires AtMostOne(s)
    ensures AtMostOne(ChangedAll(s, changes))
  {
    if changes != [] { SettersShowOne(s, changes[..|changes| - 1]); }
  }

  /** Without that, turning the third section on again would leave the other one on: the guard of
      its setter looks at its own flag only. */
  lemma ThirdNeedsAtMostOne(s: Sections)
    ensures AtMostOne(Changed(s, Third(true))) <==> AtMostOne(s) || !s.third
  {
  }
}
