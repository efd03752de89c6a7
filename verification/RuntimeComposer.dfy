/** The layout of the component block of a RuntimeComposer. */
module ComposerLayout {

  /** uint64 masks, by value. */
  type Mask = nat

  /** sizeof(const RuntimeComposerMetadata*), which is also its alignment. */
  const META_SIZE: nat := 8

  /** RuntimeComponentWraps[i]: a size of zero means that nothing is registered at that index. */
  datatype Wrap = Wrap(size: nat, align: nat)

  predicate Registered(wraps: seq<Wrap>) {
    |wraps| == 64 && forall i :: 0 <= i < 64 ==> wraps[i].size > 0 ==> wraps[i].align > 0
  }

  // ---------------------------------------------------------------- bits

  /** 1ULL << i */
  function Bit(i: nat): (b: nat)
    ensures b > 0
  {
    if i == 0 then 1 else 2 * Bit(i - 1)
  }

  /** mask & (1ULL << i) */
  predicate Has(mask: Mask, i: nat) {
    if i == 0 then mask % 2 == 1 else Has(mask / 2, i - 1)
  }

  /** mask | more */
  function Or(mask: Mask, more: Mask): Mask
    decreases mask + more
  {
    if mask == 0 && more == 0 then 0
    else 2 * Or(mask / 2, more / 2) + if mask % 2 == 1 || more % 2 == 1 then 1 else 0
  }

  /** mask & (~less) */
  function AndNot(mask: Mask, less: Mask): Mask
    decreases mask
  {
    if mask == 0 then 0
    else 2 * AndNot(mask / 2, less / 2) + if mask % 2 == 1 && less % 2 == 0 then 1 else 0
  }

  lemma {:induction false} NoBits(i: nat)
    ensures !Has(0, i)
  {
    if i > 0 { NoBits(i - 1); }
  }

  /** The bit of an index is that bit and no other. */
  lemma {:induction false} BitIs(i: nat, j: nat)
    ensures Has(Bit(i), j) <==> i == j
    decreases i
  {
    if i == 0 {
      if j > 0 { NoBits(j - 1); }
    } else if j > 0 {
      BitIs(i - 1, j - 1);
    }
  }

  lemma {:induction false} MaskAdds(mask: Mask, more: Mask, i: nat)
    ensures Has(Or(mask, more), i) <==> Has(mask, i) || Has(more, i)
    decreases i
  {
    if mask == 0 && more == 0 {
      NoBits(i);
    } else if i > 0 {
      MaskAdds(mask / 2, more / 2, i - 1);
    }
  }

  lemma {:induction false} MaskRemoves(mask: Mask, less: Mask, i: nat)
    ensures Has(AndNot(mask, less), i) <==> Has(mask, i) && !Has(less, i)
    decreases i
  {
    if mask == 0 {
      NoBits(i);
    } else if i > 0 {
      MaskRemoves(mask / 2, less / 2, i - 1);
    }
  }

  /** `_mask < componentBit`: no bit from i on is set. */
  lemma {:induction false} NothingAbove(mask: Mask, i: nat, j: nat)
    requires i <= j && mask < Bit(i)
    ensures !Has(mask, j)
    decreases j
  {
    if mask == 0 {
      NoBits(j);
    } else {
      NothingAbove(mask / 2, i - 1, j - 1);
    }
  }

  // ---------------------------------------------------------------- slots

  predicate Present(mask: Mask, wraps: seq<Wrap>, i: nat)
    requires |wraps| == 64 && i < 64
  {
    Has(mask, i) && wraps[i].size > 0
  }

  /** The least multiple of the alignment that is not below `size`. */
  function AlignUp(size: nat, align: nat): (r: nat)
    requires align > 0
    ensures r >= size && r % align == 0 && r < size + align
  {
    if size % align == 0 then size
    else
      AlignedUp(size, align);
      size + (align - size % align)
  }

  lemma AlignedUp(size: nat, align: nat)
    requires align > 0
    ensures (size + (align - size % align)) % align == 0
  {
    var q := size / align;
    assert size + (align - size % align) == align * (q + 1);
    MultipleOf(q + 1, align);
  }

  lemma MultipleOf(k: nat, align: nat)
    requires align > 0
    ensures align * k % align == 0
  {
    var x := align * k;
    var d := k - x / align;
    assert x % align == align * d;
    MulAtLeast(align, d);
  }

  lemma MulAtLeast(a: nat, d: int)
    ensures d >= 1 ==> a * d >= a
    ensures d <= -1 ==> a * d <= -(a as int)
  {
    if d >= 1 {
      assert a * d == a + a * (d - 1);
    }
  }

  /** The size of the block once the components below n have their slots. */
  function SizeAfter(mask: Mask, wraps: seq<Wrap>, n: nat): (s: nat)
    requires Registered(wraps) && n <= 64
    ensures s >= META_SIZE
  {
    if n == 0 then META_SIZE
    else
      var before := SizeAfter(mask, wraps, n - 1);
      if Present(mask, wraps, n - 1) then AlignUp(before, wraps[n - 1].align) + wraps[n - 1].size else before
  }

  /** A component that is not there has the offset zero, which is that of the pointer. */
  function Offset(mask: Mask, wraps: seq<Wrap>, i: nat): (offset: nat)
    requires Registered(wraps) && i < 64
    ensures offset >= META_SIZE <==> Present(mask, wraps, i)
  {
    if Present(mask, wraps, i) then AlignUp(SizeAfter(mask, wraps, i), wraps[i].align) else 0
  }

  /** The first index from i on at which the loop of the constructor stops. */
  function Last(mask: Mask, i: nat): (last: nat)
    requires i <= 64
    ensures i <= last <= 64
    decreases 64 - i
  {
    if i == 64 || (!Has(mask, i) && mask < Bit(i)) then i else Last(mask, i + 1)
  }

  /** `last` is above every bit of the mask. */
  lemma {:induction false} LastIsAbove(mask: Mask, i: nat, j: nat)
    requires i <= 64 && Last(mask, i) <= j < 64
    ensures !Has(mask, j)
    decreases 64 - i
  {
    if i == 64 || (!Has(mask, i) && mask < Bit(i)) {
      NothingAbove(mask, i, j);
    } else {
      LastIsAbove(mask, i + 1, j);
    }
  }

  /** And no lower index is: the bit before `last` is set. */
  lemma LastIsLeast(mask: Mask)
    requires mask < Bit(64)
    ensures if mask == 0 then Last(mask, 0) == 0 else Last(mask, 0) > 0 && Has(mask, Last(mask, 0) - 1)
  {
    LastStops(mask, 0);
    if Last(mask, 0) > 0 && !Has(mask, Last(mask, 0) - 1) { TopBit(mask, Last(mask, 0) - 1); }
  }

  lemma {:induction false} LastStops(mask: Mask, i: nat)
    requires i <= 64 && mask < Bit(64) && (i > 0 ==> Has(mask, i - 1) || mask >= Bit(i - 1))
    ensures var last := Last(mask, i);
            mask < Bit(last) && (last > 0 ==> Has(mask, last - 1) || mask >= Bit(last - 1))
    decreases 64 - i
  {
    if !(i == 64 || (!Has(mask, i) && mask < Bit(i))) { LastStops(mask, i + 1); }
  }

  lemma {:induction false} TopBit(mask: Mask, i: nat)
    requires Bit(i) <= mask < Bit(i + 1)
    ensures Has(mask, i)
    decreases i
  {
    if i > 0 { TopBit(mask / 2, i - 1); }
  }

  lemma {:induction false} SizeGrows(mask: Mask, wraps: seq<Wrap>, m: nat, n: nat)
    requires Registered(wraps) && m <= n <= 64
    ensures SizeAfter(mask, wraps, m) <= SizeAfter(mask, wraps, n)
  {
    if m < n { SizeGrows(mask, wraps, m, n - 1); }
  }

  /** The slots are aligned, lie between the pointer and the end of the block, and follow each
      other without overlap; an offset tells whether its component is there. */
  lemma SlotsAreGood(mask: Mask, wraps: seq<Wrap>)
    requires Registered(wraps)
    ensures forall i :: 0 <= i < 64 ==> (Offset(mask, wraps, i) >= META_SIZE <==> Present(mask, wraps, i))
    ensures forall i :: 0 <= i < 64 && Present(mask, wraps, i) ==>
              && Offset(mask, wraps, i) % wraps[i].align == 0
              && Offset(mask, wraps, i) + wraps[i].size <= SizeAfter(mask, wraps, 64)
    ensures forall i, j :: 0 <= i < j < 64 && Present(mask, wraps, i) && Present(mask, wraps, j) ==>
              Offset(mask, wraps, i) + wraps[i].size <= Offset(mask, wraps, j)
  {
    forall i | 0 <= i < 64 && Present(mask, wraps, i)
      ensures Offset(mask, wraps, i) + wraps[i].size <= SizeAfter(mask, wraps, 64)
    {
      SizeGrows(mask, wraps, i + 1, 64);
    }
    forall i, j | 0 <= i < j < 64 && Present(mask, wraps, i) && Present(mask, wraps, j)
      ensures Offset(mask, wraps, i) + wraps[i].size <= Offset(mask, wraps, j)
    {
      SizeGrows(mask, wraps, i + 1, j);
    }
  }

  /** Slots for the components of the mask within so many bytes, in the order of the indices. */
  ghost predicate LaysOut(slots: seq<nat>, mask: Mask, wraps: seq<Wrap>, size: nat)
    requires Registered(wraps) && |slots| == 64
  {
    && size >= META_SIZE
    && (forall i :: 0 <= i < 64 && Present(mask, wraps, i) ==>
          META_SIZE <= slots[i] && slots[i] % wraps[i].align == 0 && slots[i] + wraps[i].size <= size)
    && (forall i, j :: 0 <= i < j < 64 && Present(mask, wraps, i) && Present(mask, wraps, j) ==>
          slots[i] + wraps[i].size <= slots[j])
  }

  /** No such layout puts any component lower, or needs fewer bytes. */
  lemma NoLayoutIsSmaller(slots: seq<nat>, mask: Mask, wraps: seq<Wrap>, size: nat)
    requires Registered(wraps) && |slots| == 64 && LaysOut(slots, mask, wraps, size)
    ensures SizeAfter(mask, wraps, 64) <= size
    ensures forall i :: 0 <= i < 64 && Present(mask, wraps, i) ==> Offset(mask, wraps, i) <= slots[i]
  {
    EndsBelow(slots, mask, wraps, size, 64, size);
    forall i | 0 <= i < 64 && Present(mask, wraps, i) ensures Offset(mask, wraps, i) <= slots[i] {
      EndsBelow(slots, mask, wraps, size, i, slots[i]);
      AlignUpIsLeast(SizeAfter(mask, wraps, i), wraps[i].align, slots[i]);
    }
  }

  lemma {:induction false} EndsBelow(slots: seq<nat>, mask: Mask, wraps: seq<Wrap>, size: nat, n: nat, bound: nat)
    requires Registered(wraps) && |slots| == 64 && LaysOut(slots, mask, wraps, size)
    requires n <= 64 && META_SIZE <= bound
    requires forall i :: 0 <= i < n && Present(mask, wraps, i) ==> slots[i] + wraps[i].size <= bound
    ensures SizeAfter(mask, wraps, n) <= bound
  {
    if n > 0 {
      if Present(mask, wraps, n - 1) {
        EndsBelow(slots, mask, wraps, size, n - 1, slots[n - 1]);
        AlignUpIsLeast(SizeAfter(mask, wraps, n - 1), wraps[n - 1].align, slots[n - 1]);
      } else {
        EndsBelow(slots, mask, wraps, size, n - 1, bound);
      }
    }
  }

  lemma AlignUpIsLeast(size: nat, align: nat, slot: nat)
    requires align > 0 && size <= slot && slot % align == 0
    ensures AlignUp(size, align) <= slot
  {
    var up := AlignUp(size, align);
    var k := up / align - slot / align;
    assert up == align * (up / align) && slot == align * (slot / align);
    assert up - slot == align * k;
    MulAtLeast(align, k);
  }

  /** The alignment is enough for the pointer and for the components below n, and one of them needs it. */
  ghost predicate AlignsBelow(mask: Mask, wraps: seq<Wrap>, n: nat, align: nat)
    requires Registered(wraps) && n <= 64
  {
    && align >= META_SIZE && (forall i :: 0 <= i < n && Present(mask, wraps, i) ==> wraps[i].align <= align)
    && (align == META_SIZE || exists i :: 0 <= i < n && Present(mask, wraps, i) && wraps[i].align == align)
  }

  /** The components below n have their slots. */
  ghost predicate LaidOut(offsets: seq<nat>, size: nat, align: nat, mask: Mask, wraps: seq<Wrap>, n: nat)
    requires Registered(wraps) && n <= 64
  {
    && |offsets| == 64 && size == SizeAfter(mask, wraps, n) && AlignsBelow(mask, wraps, n, align)
    && (forall k :: 0 <= k < 64 ==> offsets[k] == if k < n then Offset(mask, wraps, k) else 0)
  }

  lemma LaidNothing(offsets: seq<nat>, mask: Mask, wraps: seq<Wrap>)
    requires Registered(wraps) && |offsets| == 64 && forall k :: 0 <= k < 64 ==> offsets[k] == 0
    ensures LaidOut(offsets, META_SIZE, META_SIZE, mask, wraps, 0)
  {
  }

  lemma LaidOn(offsets: seq<nat>, size: nat, align: nat, mask: Mask, wraps: seq<Wrap>, i: nat, n: nat)
    requires Registered(wraps) && i <= n <= 64 && LaidOut(offsets, size, align, mask, wraps, i)
    requires forall j :: i <= j < n ==> !Has(mask, j)
    ensures LaidOut(offsets, size, align, mask, wraps, n)
  {
    hide Has;
    SameSize(mask, wraps, i, n);
  }

  lemma LaidOne(was: seq<nat>, size: nat, align: nat, mask: Mask, wraps: seq<Wrap>, i: nat,
                offsets: seq<nat>, size': nat, align': nat)
    requires Registered(wraps) && i < 64 && LaidOut(was, size, align, mask, wraps, i) && Has(mask, i)
    requires |offsets| == 64 && forall k :: 0 <= k < 64 && k != i ==> offsets[k] == was[k]
    requires if wraps[i].size == 0 then offsets == was && size' == size && align' == align
             else offsets[i] == AlignUp(size, wraps[i].align) && size' == offsets[i] + wraps[i].size
                  && align' == if wraps[i].align > align then wraps[i].align else align
    ensures LaidOut(offsets, size', align', mask, wraps, i + 1)
  {
    hide Has, AlignUp;
    if wraps[i].size > 0 { assert Present(mask, wraps, i); }
  }

  /** RuntimeComposerMetadata. */
  class Metadata {
    var size: nat
    var align: nat
    var offsets: array<nat>
    var last: nat
    const mask: Mask

    ghost predicate Lays(wraps: seq<Wrap>)
      reads this, offsets
      requires Registered(wraps)
    {
      LaysBelow(wraps, 64) && last == Last(mask, 0)
    }

    /** One component gets the first aligned place after those before it. */
    method Place(component: Wrap, i: nat)
      requires i < offsets.Length && component.align > 0
      modifies this`size, this`align, offsets
      ensures offsets[i] == AlignUp(old(size), component.align) && size == offsets[i] + component.size
      ensures forall k :: 0 <= k < offsets.Length && k != i ==> offsets[k] == old(offsets[k])
      ensures align == if component.align > old(align) then component.align else old(align)
    {
      var badAlign := size % component.align;
      if badAlign != 0 {
        size := size + (component.align - badAlign);
      }
      offsets[i] := size;
      size := size + component.size;
      if align < component.align {
        align := component.align;
      }
    }

    ghost predicate LaysBelow(wraps: seq<Wrap>, n: nat)
      reads this, offsets
      requires Registered(wraps) && n <= 64
    {
      offsets.Length == 64 && LaidOut(offsets[..], size, align, mask, wraps, n)
    }

    /** The component of a bit that the mask has. */
    method Lay(wraps: seq<Wrap>, i: nat)
      requires Registered(wraps) && i < 64 && Has(mask, i) && LaysBelow(wraps, i)
      modifies this`size, this`align, offsets
      ensures LaysBelow(wraps, i + 1)
    {
      hide LaidOut, Has;
      ghost var was, size0, align0 := offsets[..], size, align;
      if wraps[i].size != 0 {
        Place(wraps[i], i);
      }
      LaidOne(was, size0, align0, mask, wraps, i, offsets[..], size, align);
    }

    constructor (mask: Mask, wraps: seq<Wrap>)
      requires Registered(wraps)
      ensures this.mask == mask && fresh(offsets) && Lays(wraps)
    {
      this.mask := mask;
      size := META_SIZE;
      align := META_SIZE;
      offsets := new nat[64](_ => 0);
      last := 64;
      new;
      hide Has, Bit, Last, LaidOut;
      LaidNothing(offsets[..], mask, wraps);
      var i := 0;
      while i != 64
        invariant 0 <= i <= 64 && fresh(offsets) && last == 64 && this.mask == mask
        invariant LaysBelow(wraps, i) && Last(mask, 0) == Last(mask, i)
      {
        LastOnce(mask, i);
        var componentBit := Bit(i);
        if Has(mask, i) {
          Lay(wraps, i);
        } else if mask < componentBit {
          last := i;
          NothingFrom(mask, wraps, i);
          LaidOn(offsets[..], size, align, mask, wraps, i, 64);
          break;
        } else {
          LaidOn(offsets[..], size, align, mask, wraps, i, i + 1);
        }
        i := i + 1;
      }
      LastOnce(mask, 64);
    }
  }

  lemma LastOnce(mask: Mask, i: nat)
    requires i <= 64
    ensures Last(mask, i) == if i == 64 || (!Has(mask, i) && mask < Bit(i)) then i else Last(mask, i + 1)
  {
  }

  lemma NothingFrom(mask: Mask, wraps: seq<Wrap>, i: nat)
    requires Registered(wraps) && i < 64 && mask < Bit(i)
    ensures forall j :: i <= j < 64 ==> !Has(mask, j)
    ensures SizeAfter(mask, wraps, 64) == SizeAfter(mask, wraps, i)
  {
    forall j | i <= j < 64 ensures !Has(mask, j) {
      NothingAbove(mask, i, j);
    }
    SameSize(mask, wraps, i, 64);
  }

  lemma {:induction false} SameSize(mask: Mask, wraps: seq<Wrap>, i: nat, n: nat)
    requires Registered(wraps) && i <= n <= 64 && forall j :: i <= j < n ==> !Has(mask, j)
    ensures SizeAfter(mask, wraps, n) == SizeAfter(mask, wraps, i)
  {
    if i < n { SameSize(mask, wraps, i, n - 1); }
  }
}
