/** What the settings are after any stream of the right kind, field by field: also streams that end
    early, as older programs wrote them, and streams with values that no settings have. */
module SettingsFields {
  import opened SettingsStream
  import opened Settings

  ghost predicate AllStorable(g: seq<Group>) {
    forall i :: 0 <= i < |g| ==> Storable(g[i])
  }

  // ---------------------------------------------------------------- the fields

  /** A value that is none of an enumeration leaves the field as it is. */
  function Enumerated(there: bool, value: int, was: int): int {
    if there && 0 <= value < 3 then value else was
  }

  function Stored01(there: bool, value: int, was: bool): bool {
    if there then value == 1 else was
  }

  /** Groups that are not there leave these fields at fixed values, whatever they were. */
  ghost predicate FirstFields(start: Variables, g: seq<Group>, k: nat, tabs: bool, r: Variables)
    requires Shaped(g)
  {
    var tabbed, third := k <= 1 || g[1].a == 1, k > 6 && g[6].a != 0;
    && r.selectorTab == Enumerated(true, g[0].a, start.selectorTab)
    && r.lastSeenWarningSeen == (g[0].b == 1)
    && r.sections.tabbed == tabbed && r.sections.third == (third && !tabbed)
    && r.sections.bettergramTabs == (tabs && !tabbed && !third)
    && (k <= 2 ==> r.soundOverrides == map[])
    && (k > 2 ==> LastOnes(r.soundOverrides, g[2].sounds))
    && r.tooltipShown == (if k > 3 then g[3].a else 0)
    && r.player.column == (if k > 4 then Enumerated(true, g[4].a, start.player.column) else 1)
    && r.player.corner == (if k <= 4 then TOP_RIGHT else if IsCorner(g[4].b) then g[4].b else start.player.corner)
    && (forall p :: p in r.hidden <==> k > 5 && p in g[5].peers)
    && r.smallDialogsList == (k > 6 && g[6].b != 0)
    && r.hadLegacyNobody == (k > 9 && g[9].a == 4)
  }

  /** Groups that are not there leave these fields as they were. */
  ghost predicate LaterFields(start: Variables, g: seq<Group>, k: nat, r: Variables)
    requires Shaped(g)
  {
    && r.widths.ratio == (if k <= 7 then start.widths.ratio
                          else if g[7].a < 0 then 0.0 else if g[7].a > 1000000 then 1.0
                          else g[7].a as real / 1000000.0)
    && r.widths.thirdColumn == (if k > 7 then g[7].b else start.widths.thirdColumn)
    && r.widths.extendedBy == (if k > 7 then g[7].c else start.widths.extendedBy)
    && r.sendFilesWay == Enumerated(k > 8, g[8].a, start.sendFilesWay)
    && r.sendSubmitWay == (if k > 10 && 0 <= g[10].a < 2 then g[10].a else start.sendSubmitWay)
    && r.support.switch == Enumerated(k > 10, g[10].b, start.support.switch)
    && r.support.fixChatsOrder == Stored01(k > 10, g[10].c, start.support.fixChatsOrder)
    && r.support.templates == Stored01(k > 11, g[11].a, start.support.templates)
    && r.support.timeSlice == (if k > 12 then g[12].a else start.support.timeSlice)
    && r.includeMuted == Stored01(k > 13, g[13].a, start.includeMuted)
    && r.countUnread == Stored01(k > 13, g[13].b, start.countUnread)
    && r.exeLaunchWarning == Stored01(k > 14, g[14].a, start.exeLaunchWarning)
    && r.autoDownload == (if k > 15 && g[15].blob != [] then g[15].blob else start.autoDownload)
    && r.support.allResults == Stored01(k > 16, g[16].a, start.support.allResults)
  }

  /** Of several sounds for one key the last one counts. */
  ghost predicate LastOnes(m: map<QString, QString>, sounds: seq<Sound>) {
    && (forall key :: key in m <==> key in KeysOf(sounds))
    && (forall i :: 0 <= i < |sounds| && IsLast(sounds, i) ==> sounds[i].key in m && m[sounds[i].key] == sounds[i].path)
  }

  ghost predicate IsLast(sounds: seq<Sound>, i: nat)
    requires i < |sounds|
  {
    forall j :: i < j < |sounds| ==> sounds[j].key != sounds[i].key
  }

  lemma {:induction false} MapOfHasLast(sounds: seq<Sound>, i: nat)
    requires i < |sounds| && IsLast(sounds, i)
    ensures sounds[i].key in MapOf(sounds) && MapOf(sounds)[sounds[i].key] == sounds[i].path
    decreases |sounds|
  {
    var n := |sounds| - 1;
    if i < n {
      assert sounds[n].key != sounds[i].key;
      MapOfHasLast(sounds[..n], i);
    }
  }

  lemma MapOfIsLast(sounds: seq<Sound>)
    ensures LastOnes(MapOf(sounds), sounds)
  {
    hide MapOf, IsLast;
    MapOfKeys(sounds);
    forall i | 0 <= i < |sounds| && IsLast(sounds, i)
      ensures sounds[i].key in MapOf(sounds) && MapOf(sounds)[sounds[i].key] == sounds[i].path
    {
      MapOfHasLast(sounds, i);
    }
  }

  // ---------------------------------------------------------------- what is read

  /** The stream of the first k groups decodes to those and to the local variables. */
  lemma GroupsDecode(g: seq<Group>, start: Variables, k: nat)
    requires Shaped(g) && AllStorable(g) && 0 < k <= GROUPS
    ensures AllBytes(g[..k]) != []
    ensures Decode(Locals(start), 0, AllBytes(g[..k])) == Got(Decoded(g[..k] + Locals(start)[k..], k), [])
  {
    hide Locals, AllBytes, Decode, Alike;
    LocalsShaped(start);
    ShapedAlike(g, Locals(start));
    StreamDecodes(g, Locals(start), k);
    SomeBytes(g, k);
  }

  lemma SomeBytes(g: seq<Group>, k: nat)
    requires AllStorable(g) && 0 < k <= |g|
    ensures AllBytes(g[..k]) != []
  {
    hide GroupBytes;
    NotEmpty(g[0]);
  }

  lemma StreamDecodes(g: seq<Group>, h: seq<Group>, k: nat)
    requires Match(g, h) && 0 < k <= |g|
    ensures Decode(h, 0, AllBytes(g[..k])) == Got(Decoded(g[..k] + h[k..], k), [])
  {
    hide Decode, AllBytes;
    CutStream(g, h, 0, k, []);
    FromZero(g, h, k);
    NothingMore(AllBytes(g[..k]));
  }

  lemma FromZero(g: seq<Group>, h: seq<Group>, k: nat)
    requires k <= |g|
    ensures g[0..k] == g[..k] && g[..0] + h[0..] == h
  {
  }

  lemma NothingMore(s: Bytes)
    ensures s + [] == s
  {
  }

  /** What the local variables hold that have a value of their own. */
  ghost predicate HeldFirst(m: seq<Group>, g: seq<Group>, k: nat) {
    && |m| == |g| == GROUPS && m[0] == g[0]
    && m[1] == (if k > 1 then g[1] else One(1)) && m[2] == (if k > 2 then g[2] else Sounds([]))
    && m[3] == (if k > 3 then g[3] else One(0)) && m[4] == (if k > 4 then g[4] else Two(1, TOP_RIGHT))
    && m[5] == (if k > 5 then g[5] else Peers([])) && m[6] == (if k > 6 then g[6] else Two(0, 0))
    && m[9] == (if k > 9 then g[9] else One(0))
  }

  /** The others hold the settings. */
  ghost predicate HeldLater(m: seq<Group>, g: seq<Group>, start: Variables, k: nat) {
    && |m| == |g| == GROUPS
    && m[7] == (if k > 7 then g[7] else Three(0, start.widths.thirdColumn, start.widths.extendedBy))
    && m[8] == (if k > 8 then g[8] else One(start.sendFilesWay))
    && m[10] == (if k > 10 then g[10]
                 else Three(start.sendSubmitWay, start.support.switch, Flag(start.support.fixChatsOrder)))
    && m[11] == (if k > 11 then g[11] else One(Flag(start.support.templates)))
    && m[12] == (if k > 12 then g[12] else One(start.support.timeSlice))
    && m[13] == (if k > 13 then g[13] else Two(Flag(start.includeMuted), Flag(start.countUnread)))
    && m[14] == (if k > 14 then g[14] else One(Flag(start.exeLaunchWarning)))
    && m[15] == (if k > 15 then g[15] else Blob([]))
    && m[16] == (if k > 16 then g[16] else One(Flag(start.support.allResults)))
  }

  lemma LocalsHold(start: Variables)
    ensures HeldFirst(Locals(start), Locals(start), 1) && HeldLater(Locals(start), Locals(start), start, 1)
  {
    hide Flag;
  }

  lemma MixHolds(g: seq<Group>, h: seq<Group>, start: Variables, k: nat)
    requires Shaped(g) && HeldFirst(h, h, 1) && HeldLater(h, h, start, 1) && 0 < k <= GROUPS
    ensures HeldFirst(g[..k] + h[k..], g, k) && HeldLater(g[..k] + h[k..], g, start, k)
  {
    hide Flag;
    var m := g[..k] + h[k..];
    assert forall i :: 0 <= i < GROUPS ==> m[i] == if i < k then g[i] else h[i];
  }

  lemma AppliedFirst(m: seq<Group>, g: seq<Group>, start: Variables, k: nat, tabs: bool)
    requires Shaped(m) && Shaped(g) && HeldFirst(m, g, k)
    ensures FirstFields(start, g, k, tabs, Applied(start, m, k, tabs))
  {
    MapOfIsLast(g[2].sounds);
    hide LastOnes;
  }

  lemma AppliedLater(m: seq<Group>, g: seq<Group>, start: Variables, k: nat, tabs: bool)
    requires Shaped(m) && Shaped(g) && HeldLater(m, g, start, k)
    ensures LaterFields(start, g, k, Applied(start, m, k, tabs))
  {
    hide MapOf, SetOf, Settled;
  }

  /** The settings after a stream of k groups: nothing changes if its autoDownload is not accepted, and
      otherwise every field is as it has to be. */
  lemma FieldsTaken(g: seq<Group>, start: Variables, k: nat, tabs: bool, accepts: Bytes -> bool)
    requires Shaped(g) && AllStorable(g) && 0 < k <= GROUPS
    ensures var r := Constructed(start, AllBytes(g[..k]), tabs, accepts);
            if k > 15 && g[15].blob != [] && !accepts(g[15].blob) then r == start
            else FirstFields(start, g, k, tabs, r) && LaterFields(start, g, k, r)
  {
    hide FirstFields, LaterFields, Applied, Locals, Decode, AllBytes;
    var h := Locals(start);
    LocalsShaped(start);
    var m := g[..k] + h[k..];
    GroupsDecode(g, start, k);
    MixShaped(g, h, k);
    LocalsHold(start);
    MixHolds(g, h, start, k);
    AppliedFirst(m, g, start, k, tabs);
    AppliedLater(m, g, start, k, tabs);
  }

  /** A stream that ends within a group changes nothing. */
  lemma PartOfGroupChangesNothing(g: seq<Group>, start: Variables, k: nat, tail: Bytes, tabs: bool,
                                  accepts: Bytes -> bool)
    requires Shaped(g) && AllStorable(g) && k < GROUPS
    requires 0 < |tail| < |GroupBytes(g[k])| && tail == GroupBytes(g[k])[..|tail|]
    ensures Constructed(start, AllBytes(g[..k]) + tail, tabs, accepts) == start
  {
    hide Locals, AllBytes, Alike, GroupBytes;
    var h := Locals(start);
    LocalsShaped(start);
    ShapedAlike(g, h);
    if k == 0 {
      CutGroupIsBad(g[0], h[0], |tail|);
      NothingBefore(g, tail);
    } else {
      CutStream(g, h, 0, k, tail);
      FromZero(g, h, k);
    }
  }

  lemma NothingBefore(g: seq<Group>, tail: Bytes)
    requires AllStorable(g)
    ensures AllBytes(g[..0]) + tail == tail
  {
  }

  lemma {:induction false} LongStream(g: seq<Group>, h: seq<Group>, i: nat, more: Bytes)
    requires Match(g, h) && i <= |g|
    ensures Decode(g[..i] + h[i..], i, AllBytes(g[i..]) + more) == Got(Decoded(g, |g|), more)
    decreases |g| - i
  {
    if i == |g| {
      assert g[..i] + h[i..] == g && AllBytes(g[i..]) + more == more;
    } else {
      hide Decode, AllBytes;
      LongStream(g, h, i + 1, more);
      OneGroup(g, h, i, |g|, more);
      ToTheEnd(g, i);
    }
  }

  lemma ToTheEnd(g: seq<Group>, i: nat)
    requires i < |g|
    ensures g[i..|g|] == g[i..] && g[i + 1..|g|] == g[i + 1..]
  {
  }

  /** What follows the groups that are known, as a newer program may write it, changes nothing. */
  lemma MoreChangesNothing(g: seq<Group>, start: Variables, more: Bytes, tabs: bool, accepts: Bytes -> bool)
    requires Shaped(g) && AllStorable(g)
    ensures Constructed(start, AllBytes(g) + more, tabs, accepts) == Constructed(start, AllBytes(g), tabs, accepts)
  {
    hide Locals, AllBytes, Decode, Applied;
    var h := Locals(start);
    LocalsShaped(start);
    ShapedAlike(g, h);
    LongStream(g, h, 0, more);
    LongStream(g, h, 0, []);
    FromZero(g, h, 0);
    assert g[0..] == g && AllBytes(g) + [] == AllBytes(g);
    SomeBytes(g, GROUPS);
    assert g[..GROUPS] == g;
  }
}
