/** SHA-1 as FIPS 180-4 specifies it for byte strings. */
module Sha1Standard {

  type Byte = bv8
  type Word = bv32

  /** The five working variables, and the five words of an intermediate hash value. */
  datatype Words = Words(a: Word, b: Word, c: Word, d: Word, e: Word)

  // Section 3.2: addition of words is modulo 2^32.
  function Add(x: Word, y: Word): Word { x + y }

  function Add5(x: Word, y: Word, z: Word, u: Word, w: Word): Word { x + y + z + u + w }

  // Section 4.1.1: the functions of the four groups of twenty rounds.
  function Ch(x: Word, y: Word, z: Word): Word { (x & y) ^ (!x & z) }

  function Parity(x: Word, y: Word, z: Word): Word { x ^ y ^ z }

  function Maj(x: Word, y: Word, z: Word): Word { (x & y) ^ (x & z) ^ (y & z) }

  function F(t: nat, x: Word, y: Word, z: Word): Word {
    if t < 20 then Ch(x, y, z)
    else if t < 40 then Parity(x, y, z)
    else if t < 60 then Maj(x, y, z)
    else Parity(x, y, z)
  }

  // Section 4.2.1.
  function K(t: nat): Word {
    if t < 20 then 0x5a827999
    else if t < 40 then 0x6ed9eba1
    else if t < 60 then 0x8f1bbcdc
    else 0xca62c1d6
  }

  // Section 5.3.1.
  function Initial(): Words {
    Words(0x67452301, 0xefcdab89, 0x98badcfe, 0x10325476, 0xc3d2e1f0)
  }

  function Mix(x: Word, y: Word, z: Word, u: Word): Word {
    (x ^ y ^ z ^ u).RotateLeft(1)
  }

  // Section 6.1.2, step 1: the message schedule of a block of sixteen words.
  function W(m: seq<Word>, t: nat): Word
    requires |m| == 16
  {
    if t < 16 then m[t]
    else Mix(W(m, t - 3), W(m, t - 8), W(m, t - 14), W(m, t - 16))
  }

  // Section 6.1.2, step 3: one round, and the first t rounds.
  function Round(v: Words, t: nat, w: Word): Words {
    Words(Add5(v.a.RotateLeft(5), F(t, v.b, v.c, v.d), v.e, K(t), w), v.a, v.b.RotateLeft(30), v.c, v.d)
  }

  function Rounds(h: Words, m: seq<Word>, t: nat): Words
    requires |m| == 16
  {
    if t == 0 then h else Round(Rounds(h, m, t - 1), t - 1, W(m, t - 1))
  }

  // Section 6.1.2, step 4.
  function Compress(h: Words, m: seq<Word>): Words
    requires |m| == 16
  {
    var v := Rounds(h, m, 80);
    Words(Add(h.a, v.a), Add(h.b, v.b), Add(h.c, v.c), Add(h.d, v.d), Add(h.e, v.e))
  }

  // Section 2.2.2 / 3.1: words are read from bytes with the most significant byte first.
  function BigEndian(p: Byte, q: Byte, r: Byte, s: Byte): Word {
    ((p as bv32) << 24) | ((q as bv32) << 16) | ((r as bv32) << 8) | (s as bv32)
  }

  function WordAt(s: seq<Byte>, i: nat): Word
    requires i + 4 <= |s|
  {
    BigEndian(s[i], s[i + 1], s[i + 2], s[i + 3])
  }

  // Section 5.2.1: the n-th block of 512 bits.
  function Block(s: seq<Byte>, n: nat): (m: seq<Word>)
    requires 64 * n + 64 <= |s|
    ensures |m| == 16
  {
    seq(16, i requires 0 <= i < 16 => WordAt(s, 64 * n + 4 * i))
  }

  // Section 6.1.2: the hash value after the first n blocks.
  function HashBlocks(s: seq<Byte>, n: nat): Words
    requires 64 * n <= |s|
  {
    if n == 0 then Initial() else Compress(HashBlocks(s, n - 1), Block(s, n - 1))
  }

  function Zeros(n: nat): (z: seq<Byte>)
    ensures |z| == n
  {
    seq(n, _ => 0)
  }

  /** The number in binary. */
  function ByteOf(n: nat): Byte
    requires n < 256
  {
    if n == 0 then 0 else if n % 2 == 1 then (ByteOf(n / 2) << 1) | 1 else ByteOf(n / 2) << 1
  }

  function Be32(n: nat): seq<Byte>
    requires n < 0x1_0000_0000
  {
    [ByteOf(n / 0x100_0000), ByteOf(n / 0x1_0000 % 0x100), ByteOf(n / 0x100 % 0x100), ByteOf(n % 0x100)]
  }

  function Be64(n: nat): seq<Byte>
    requires n < 0x1_0000_0000_0000_0000
  {
    Be32(n / 0x1_0000_0000) + Be32(n % 0x1_0000_0000)
  }

  /** Bytes of zero between the 0x80 byte and the length; see PaddingIsSmallest. */
  function PadZeros(len: nat): (z: nat)
    ensures z < 64 && (len + 1 + z + 8) % 64 == 0
  {
    (55 - len) % 64
  }

  // Section 5.1.1: a one bit, zero bits, and the length in bits as a 64-bit number.
  function Pad(s: seq<Byte>): (p: seq<Byte>)
    requires |s| < 0x2000_0000_0000_0000
    ensures |p| % 64 == 0
  {
    s + [0x80] + Zeros(PadZeros(|s|)) + Be64(8 * |s|)
  }

  /** Section 5.1.1 asks for the smallest number of zero bits that makes the length 448 modulo 512;
      the 0x80 byte brings seven of them. */
  lemma PaddingIsSmallest(len: nat, z: nat)
    requires (8 * len + 1 + (7 + 8 * z)) % 512 == 448
    ensures (8 * len + 1 + (7 + 8 * PadZeros(len))) % 512 == 448 && PadZeros(len) <= z
  {
  }

  function ByteAt(w: Word, k: nat): Byte
    requires k < 4
  {
    ((w >> (8 * (3 - k))) & 0xFF) as bv8
  }

  function Nth(v: Words, k: nat): Word
    requires k < 5
  {
    if k == 0 then v.a else if k == 1 then v.b else if k == 2 then v.c else if k == 3 then v.d else v.e
  }

  /** The five words one after another, most significant byte first. */
  function Digest(v: Words): (d: seq<Byte>)
    ensures |d| == 20
  {
    seq(20, i requires 0 <= i < 20 => ByteAt(Nth(v, i / 4), i % 4))
  }

  function Sha1(s: seq<Byte>): seq<Byte>
    requires |s| < 0x2000_0000_0000_0000
  {
    Digest(HashBlocks(Pad(s), |Pad(s)| / 64))
  }
}

/** Numbers as words: their low 32 binary digits. */
module BinaryWords {
  import opened Sha1Standard

  function ToWord(n: nat): Word {
    if n == 0 then 0 else Digit(ToWord(n / 2), n % 2 == 1)
  }

  function Digit(w: Word, one: bool): Word {
    if one then (w << 1) | 1 else w << 1
  }

  function Power(k: nat): (p: nat)
    ensures p > 0
  {
    if k == 0 then 1 else 2 * Power(k - 1)
  }

  function Shl(w: Word, k: nat): Word {
    if k == 0 then w else Digit(Shl(w, k - 1), false)
  }

  function Or(x: Word, y: Word): Word { x | y }

  function Times8(w: Word): Word { w << 3 }

  lemma DigitOr(x: Word, y: Word, one: bool)
    ensures Digit(Or(x, y), one) == Or(Digit(x, false), Digit(y, one))
  {
    if one { OneOr(x, y); } else { ZeroOr(x, y); }
  }

  lemma OneOr(x: Word, y: Word)
    ensures Digit(Or(x, y), true) == Or(Digit(x, false), Digit(y, true))
  {
  }

  lemma ZeroOr(x: Word, y: Word)
    ensures Digit(Or(x, y), false) == Or(Digit(x, false), Digit(y, false))
  {
  }

  lemma OneDigit(n: nat, one: bool)
    ensures ToWord(2 * n + if one then 1 else 0) == Digit(ToWord(n), one)
  {
    assert Digit(0, false) == 0;
  }

  /** The binary digits of a number are those of its upper part and then those of its lower part. */
  lemma {:induction false} TwoParts(a: nat, b: nat, k: nat)
    requires b < Power(k)
    ensures ToWord(a * Power(k) + b) == Or(Shl(ToWord(a), k), ToWord(b))
    decreases k
  {
    hide ToWord, Digit, Or;
    if k == 0 {
      OrZero(ToWord(a));
    } else {
      TwoParts(a, b / 2, k - 1);
      LastDigit(a, Power(k - 1), b);
      OneDigitMore(a, b / 2, k - 1, a * Power(k - 1) + b / 2, b % 2 == 1);
    }
  }

  lemma LastDigit(a: nat, p: nat, b: nat)
    ensures b == 2 * (b / 2) + if b % 2 == 1 then 1 else 0
    ensures a * (2 * p) + b == 2 * (a * p + b / 2) + if b % 2 == 1 then 1 else 0
  {
    assert a * (2 * p) == 2 * (a * p);
  }

  lemma OneDigitMore(a: nat, b: nat, k: nat, n: nat, one: bool)
    requires ToWord(n) == Or(Shl(ToWord(a), k), ToWord(b))
    ensures ToWord(2 * n + if one then 1 else 0) == Or(Shl(ToWord(a), k + 1), ToWord(2 * b + if one then 1 else 0))
  {
    hide ToWord, Digit, Or;
    OneDigit(n, one);
    OneDigit(b, one);
    DigitOr(Shl(ToWord(a), k), ToWord(b), one);
  }

  lemma OrZero(w: Word)
    ensures Or(w, 0) == Or(0, w) == w && ToWord(0) == 0
  {
  }

  lemma {:induction false} ShlAdds(w: Word, j: nat, k: nat)
    ensures Shl(w, j + k) == Shl(Shl(w, j), k)
    decreases k
  {
    if k > 0 { ShlAdds(w, j, k - 1); }
  }

  lemma Shl8(w: Word)
    ensures Shl(w, 8) == w << 8
  {
    Shl4(w);
    ShlAdds(w, 4, 4);
    Shl4(w << 4);
    EightShifts(w);
  }

  lemma Shl4(w: Word)
    ensures Shl(w, 4) == w << 4
  {
    ShlOne(w, 0);
    ShlOne(w, 1);
    ShlOne(w, 2);
    ShlOne(w, 3);
    FourShifts(w);
  }

  lemma ShlOne(w: Word, k: nat)
    ensures Shl(w, k + 1) == Shl(w, k) << 1 && Shl(w, 0) == w
  {
  }

  lemma FourShifts(w: Word)
    ensures w << 1 << 1 << 1 << 1 == w << 4
  {
  }

  lemma EightShifts(w: Word)
    ensures w << 4 << 4 == w << 8
  {
  }

  lemma Shl32(w: Word)
    ensures Shl(w, 32) == 0
  {
    Shl8(w);
    ShlAdds(w, 8, 8);
    Shl8(w << 8);
    ShlAdds(w, 16, 8);
    Shl8(w << 8 << 8);
    ShlAdds(w, 24, 8);
    Shl8(w << 8 << 8 << 8);
    AllGone(w);
  }

  lemma AllGone(w: Word)
    ensures w << 8 << 8 << 8 << 8 == 0
  {
  }

  lemma Powers()
    ensures Power(8) == 0x100 && Power(32) == 0x1_0000_0000
  {
    assert Power(4) == 16;
    assert Power(8) == 0x100;
    assert Power(12) == 0x1000;
    assert Power(16) == 0x1_0000;
    assert Power(20) == 0x10_0000;
    assert Power(24) == 0x100_0000;
    assert Power(28) == 0x1000_0000;
  }

  /** A word has the number modulo 2^32. */
  lemma WordWraps(n: nat, a: nat, b: nat)
    requires n == a * 0x1_0000_0000 + b && b < 0x1_0000_0000
    ensures ToWord(b) == ToWord(n)
  {
    hide ToWord, Or;
    Powers();
    TwoParts(a, b, 32);
    Shl32(ToWord(a));
    OrZero(ToWord(b));
  }

  /** Shifting a word by three multiplies it by eight modulo 2^32. */
  lemma ShiftedIs(n: nat)
    ensures ToWord(n) << 3 == ToWord(8 * n % 0x1_0000_0000)
  {
    Divided(8 * n);
    ShiftWraps(n, 8 * n, 8 * n / 0x1_0000_0000, 8 * n % 0x1_0000_0000);
  }

  lemma Divided(n: nat)
    ensures n == n / 0x1_0000_0000 * 0x1_0000_0000 + n % 0x1_0000_0000
  {
  }

  lemma ShiftWraps(n: nat, m: nat, a: nat, b: nat)
    requires m == 8 * n && m == a * 0x1_0000_0000 + b && b < 0x1_0000_0000
    ensures Times8(ToWord(n)) == ToWord(b)
  {
    hide ToWord, Times8;
    Eightfold(n, m, ToWord(n));
    WordWraps(m, a, b);
  }

  lemma Eightfold(n: nat, m: nat, w: Word)
    requires m == 8 * n && w == ToWord(n)
    ensures Times8(w) == ToWord(m)
  {
    hide ToWord, Digit, Times8;
    OneDigit(n, false);
    OneDigit(2 * n, false);
    OneDigit(4 * n, false);
    ThreeDigits(w);
  }

  lemma ThreeDigits(w: Word)
    ensures Digit(Digit(Digit(w, false), false), false) == Times8(w)
  {
  }

  // ---------------------------------------------------------------- the bytes of a word

  /** The bits that a byte with less than 2^k does not have. */
  function Above(k: nat): Byte
    requires k <= 8
  {
    if k == 0 then 0xFF else Above(k - 1) << 1
  }

  lemma {:induction false} ByteFits(n: nat, k: nat)
    requires k <= 8 && n < Power(k) <= 256
    ensures ByteOf(n) & Above(k) == 0
  {
    if n == 0 {
      NoBits(Above(k));
    } else {
      ByteFits(n / 2, k - 1);
      BitsMove(ByteOf(n / 2), Above(k - 1));
    }
  }

  lemma NoBits(mask: Byte)
    ensures 0 & mask == 0
  {
  }

  lemma BitsMove(b: Byte, mask: Byte)
    requires b & mask == 0
    ensures (b << 1) & (mask << 1) == 0 && ((b << 1) | 1) & (mask << 1) == 0
  {
  }

  lemma Half(n: nat)
    requires n < 128
    ensures ByteOf(n) & 0x80 == 0
  {
    assert Power(4) == 16;
    assert Power(7) == 128;
    ByteFits(n, 7);
    assert Above(4) == 0xF0;
    assert Above(7) == 0x80;
  }

  lemma Widened(b: Byte)
    requires b & 0x80 == 0
    ensures ((b << 1) | 1) as bv32 == ((b as bv32) << 1) | 1 && (b << 1) as bv32 == (b as bv32) << 1
  {
  }

  lemma {:induction false} ByteWord(n: nat)
    requires n < 256
    ensures ByteOf(n) as bv32 == ToWord(n)
  {
    if n != 0 {
      ByteWord(n / 2);
      Half(n / 2);
      Widened(ByteOf(n / 2));
    }
  }

  lemma {:induction false} ByteOfZero(n: nat)
    requires n < 256
    ensures ByteOf(n) == 0 <==> n == 0
  {
    if n != 0 {
      ByteOfZero(n / 2);
      Half(n / 2);
      NotLost(ByteOf(n / 2));
    }
  }

  lemma NotLost(b: Byte)
    requires b & 0x80 == 0
    ensures (b << 1) | 1 != 0 && (b << 1 == 0 <==> b == 0)
  {
  }

  /** The four bytes of a number make up its word. */
  lemma BytesAreWord(n: nat)
    requires n < 0x1_0000_0000
    ensures WordAt(Be32(n), 0) == ToWord(n)
  {
    hide ToWord, ByteOf, BigEndian;
    Parts(n);
    BytesJoin(n, n / 0x100, n / 0x1_0000, n / 0x100_0000, n / 0x1_0000 % 0x100, n / 0x100 % 0x100, n % 0x100);
  }

  lemma BytesJoin(n: nat, upper3: nat, upper2: nat, n3: nat, n2: nat, n1: nat, n0: nat)
    requires n3 < 256 && n2 < 256 && n1 < 256 && n0 < 256
    requires n == upper3 * 0x100 + n0 && upper3 == upper2 * 0x100 + n1 && upper2 == n3 * 0x100 + n2
    ensures BigEndian(ByteOf(n3), ByteOf(n2), ByteOf(n1), ByteOf(n0)) == ToWord(n)
  {
    hide ToWord, ByteOf, BigEndian, Or, Shl, Joined;
    OneByteMore(upper3, n0);
    OneByteMore(upper2, n1);
    OneByteMore(n3, n2);
    JoinedIs(ToWord(upper3), ByteOf(n0));
    JoinedIs(ToWord(upper2), ByteOf(n1));
    JoinedIs(ToWord(n3), ByteOf(n2));
    FourBytes(ByteOf(n3), ByteOf(n2), ByteOf(n1), ByteOf(n0));
    ByteWord(n3);
  }

  lemma Parts(n: nat)
    ensures n == n / 0x100 * 0x100 + n % 0x100
    ensures n / 0x100 == n / 0x1_0000 * 0x100 + n / 0x100 % 0x100
    ensures n / 0x1_0000 == n / 0x100_0000 * 0x100 + n / 0x1_0000 % 0x100
  {
  }

  lemma OneByteMore(a: nat, b: nat)
    requires b < 256
    ensures ToWord(a * 0x100 + b) == Or(Shl(ToWord(a), 8), ByteOf(b) as bv32)
  {
    hide ToWord, ByteOf, Or, Shl;
    Powers();
    TwoParts(a, b, 8);
    ByteWord(b);
  }

  function Joined(w: Word, b: Byte): Word { (w << 8) | (b as bv32) }

  lemma JoinedIs(w: Word, b: Byte)
    ensures Or(Shl(w, 8), b as bv32) == Joined(w, b)
  {
    Shl8(w);
  }

  lemma FourBytes(p: Byte, q: Byte, r: Byte, s: Byte)
    ensures BigEndian(p, q, r, s) == Joined(Joined(Joined(p as bv32, q), r), s)
  {
  }
}

/** The SHA-1 of the update packer. */
module Packer {
  import opened Sha1Standard
  import opened BinaryWords

  /** The first half of _shiftshiftswap. */
  method Schedule(temp: array<Word>, round: nat, ghost m: seq<Word>)
    requires temp.Length == 80 && 16 <= round < 80 && |m| == 16
    requires forall j :: 0 <= j < round ==> temp[j] == W(m, j)
    modifies temp
    ensures forall j :: 0 <= j <= round ==> temp[j] == W(m, j)
  {
    temp[round] := MixShift(temp[round - 3], temp[round - 8], temp[round - 14], temp[round - 16]);
  }

  /** The function of the round as the packer writes it. */
  function FOr(t: nat, x: Word, y: Word, z: Word): (r: Word)
    ensures r == F(t, x, y, z)
  {
    if t < 20 then ChOr(x, y, z) else if 40 <= t < 60 then MajOr(x, y, z) else Parity(x, y, z)
  }

  lemma SameSum(r: Word, r': Word, f: Word, f': Word, e: Word, k: Word, w: Word)
    requires r == r' && f == f'
    ensures Add5(r, f, e, k, w) == Add5(r', f', e, k, w)
  {
  }

  lemma ShiftIs(x: Word)
    ensures Sha1Shift(x, 5) == x.RotateLeft(5) && Sha1Shift(x, 30) == x.RotateLeft(30)
  {
  }

  lemma SumIs(v: Words, t: nat, w: Word)
    ensures Add5(v.a.RotateLeft(5), F(t, v.b, v.c, v.d), v.e, K(t), w) ==
            Add5(Sha1Shift(v.a, 5), FOr(t, v.b, v.c, v.d), v.e, K(t), w)
  {
    SameSum(Sha1Shift(v.a, 5), v.a.RotateLeft(5), FOr(t, v.b, v.c, v.d), F(t, v.b, v.c, v.d), v.e, K(t), w);
  }

  /** _shiftswap computes a round of the standard. */
  lemma RoundIs(v: Words, t: nat, w: Word)
    ensures Round(v, t, w) ==
            Words(Add5(Sha1Shift(v.a, 5), FOr(t, v.b, v.c, v.d), v.e, K(t), w), v.a, Sha1Shift(v.b, 30), v.c, v.d)
  {
    SumIs(v, t, w);
    ShiftIs(v.b);
  }

  ghost predicate Scheduled(temp: array<Word>, m: seq<Word>, n: nat)
    requires |m| == 16
    reads temp
  {
    n <= temp.Length == 80 && forall j :: 0 <= j < n ==> temp[j] == W(m, j)
  }

  // The five loops of sha1PartHash, one method each.

  method RoundsTo16(temp: array<Word>, h: Words) returns (v: Words)
    requires temp.Length == 80
    ensures v == Rounds(h, temp[..16], 16)
  {
    var a, b, c, d, e, round := h.a, h.b, h.c, h.d, h.e, 0;
    ghost var m := temp[..16];
    while round < 16
      invariant 0 <= round <= 16
      invariant Words(a, b, c, d, e) == Rounds(h, m, round)
    {
      RoundIs(Words(a, b, c, d, e), round, temp[round]);
      var t := Add5(Sha1Shift(a, 5), ChOr(b, c, d), e, 0x5a827999, temp[round]);
      a, b, c, d, e := t, a, Sha1Shift(b, 30), c, d;
      round := round + 1;
    }
    v := Words(a, b, c, d, e);
  }

  method RoundsTo20(temp: array<Word>, v0: Words, ghost h: Words, ghost m: seq<Word>) returns (v: Words)
    requires |m| == 16 && Scheduled(temp, m, 16) && v0 == Rounds(h, m, 16)
    modifies temp
    ensures Scheduled(temp, m, 20) && v == Rounds(h, m, 20)
  {
    var a, b, c, d, e, round := v0.a, v0.b, v0.c, v0.d, v0.e, 16;
    while round < 20
      invariant 16 <= round <= 20 && Scheduled(temp, m, round)
      invariant Words(a, b, c, d, e) == Rounds(h, m, round)
    {
      Schedule(temp, round, m);
      RoundIs(Words(a, b, c, d, e), round, temp[round]);
      var t := Add5(Sha1Shift(a, 5), ChOr(b, c, d), e, 0x5a827999, temp[round]);
      a, b, c, d, e := t, a, Sha1Shift(b, 30), c, d;
      round := round + 1;
    }
    v := Words(a, b, c, d, e);
  }

  method RoundsTo40(temp: array<Word>, v0: Words, ghost h: Words, ghost m: seq<Word>) returns (v: Words)
    requires |m| == 16 && Scheduled(temp, m, 20) && v0 == Rounds(h, m, 20)
    modifies temp
    ensures Scheduled(temp, m, 40) && v == Rounds(h, m, 40)
  {
    var a, b, c, d, e, round := v0.a, v0.b, v0.c, v0.d, v0.e, 20;
    while round < 40
      invariant 20 <= round <= 40 && Scheduled(temp, m, round)
      invariant Words(a, b, c, d, e) == Rounds(h, m, round)
    {
      Schedule(temp, round, m);
      RoundIs(Words(a, b, c, d, e), round, temp[round]);
      var t := Add5(Sha1Shift(a, 5), Parity(b, c, d), e, 0x6ed9eba1, temp[round]);
      a, b, c, d, e := t, a, Sha1Shift(b, 30), c, d;
      round := round + 1;
    }
    v := Words(a, b, c, d, e);
  }

  method RoundsTo60(temp: array<Word>, v0: Words, ghost h: Words, ghost m: seq<Word>) returns (v: Words)
    requires |m| == 16 && Scheduled(temp, m, 40) && v0 == Rounds(h, m, 40)
    modifies temp
    ensures Scheduled(temp, m, 60) && v == Rounds(h, m, 60)
  {
    var a, b, c, d, e, round := v0.a, v0.b, v0.c, v0.d, v0.e, 40;
    while round < 60
      invariant 40 <= round <= 60 && Scheduled(temp, m, round)
      invariant Words(a, b, c, d, e) == Rounds(h, m, round)
    {
      Schedule(temp, round, m);
      RoundIs(Words(a, b, c, d, e), round, temp[round]);
      var t := Add5(Sha1Shift(a, 5), MajOr(b, c, d), e, 0x8f1bbcdc, temp[round]);
      a, b, c, d, e := t, a, Sha1Shift(b, 30), c, d;
      round := round + 1;
    }
    v := Words(a, b, c, d, e);
  }

  method RoundsTo80(temp: array<Word>, v0: Words, ghost h: Words, ghost m: seq<Word>) returns (v: Words)
    requires |m| == 16 && Scheduled(temp, m, 60) && v0 == Rounds(h, m, 60)
    modifies temp
    ensures Scheduled(temp, m, 80) && v == Rounds(h, m, 80)
  {
    var a, b, c, d, e, round := v0.a, v0.b, v0.c, v0.d, v0.e, 60;
    while round < 80
      invariant 60 <= round <= 80 && Scheduled(temp, m, round)
      invariant Words(a, b, c, d, e) == Rounds(h, m, round)
    {
      Schedule(temp, round, m);
      RoundIs(Words(a, b, c, d, e), round, temp[round]);
      var t := Add5(Sha1Shift(a, 5), Parity(b, c, d), e, 0xca62c1d6, temp[round]);
      a, b, c, d, e := t, a, Sha1Shift(b, 30), c, d;
      round := round + 1;
    }
    v := Words(a, b, c, d, e);
  }

  method Sha1PartHash(sha: array<Word>, temp: array<Word>)
    requires sha.Length == 5 && temp.Length == 80 && sha != temp
    modifies sha, temp
    ensures Hash(sha) == Compress(old(Hash(sha)), old(temp[..16]))
  {
    var h := Words(sha[0], sha[1], sha[2], sha[3], sha[4]);
    ghost var m := temp[..16];
    var v := RoundsTo16(temp, h);
    v := RoundsTo20(temp, v, h, m);
    v := RoundsTo40(temp, v, h, m);
    v := RoundsTo60(temp, v, h, m);
    v := RoundsTo80(temp, v, h, m);
    AddWords(sha, v);
  }

  method AddWords(sha: array<Word>, v: Words)
    requires sha.Length == 5
    modifies sha
    ensures var h := old(Hash(sha));
            Hash(sha) == Words(Add(h.a, v.a), Add(h.b, v.b), Add(h.c, v.c), Add(h.d, v.d), Add(h.e, v.e))
  {
    hide Add;
    sha[0] := Add(sha[0], v.a);
    sha[1] := Add(sha[1], v.b);
    sha[2] := Add(sha[2], v.c);
    sha[3] := Add(sha[3], v.d);
    sha[4] := Add(sha[4], v.e);
  }

  ghost function Hash(sha: array<Word>): Words
    requires sha.Length == 5
    reads sha
  {
    Words(sha[0], sha[1], sha[2], sha[3], sha[4])
  }

  lemma OrForms(x: Word, y: Word, z: Word)
    ensures (x & y) | (!x & z) == Ch(x, y, z)
    ensures (x & y) | (x & z) | (y & z) == Maj(x, y, z)
  {
  }

  // The or-forms of the packer, which have no bit in common on both sides of `|` or repeat it.
  function ChOr(x: Word, y: Word, z: Word): (r: Word)
    ensures r == Ch(x, y, z)
  {
    OrForms(x, y, z);
    (x & y) | (!x & z)
  }

  function MajOr(x: Word, y: Word, z: Word): (r: Word)
    ensures r == Maj(x, y, z)
  {
    OrForms(x, y, z);
    (x & y) | (x & z) | (y & z)
  }

  function MixShift(x: Word, y: Word, z: Word, u: Word): (r: Word)
    ensures r == Mix(x, y, z, u)
  {
    Sha1Shift(x ^ y ^ z ^ u, 1)
  }

  function Sha1Shift(v: Word, shift: nat): (r: Word)
    requires 0 < shift < 32
    ensures shift == 1 ==> r == v.RotateLeft(1)
    ensures shift == 5 ==> r == v.RotateLeft(5)
    ensures shift == 30 ==> r == v.RotateLeft(30)
  {
    (v << shift) | (v >> (32 - shift))
  }

  // ---------------------------------------------------------------- the whole message

  newtype uint32 = x: int | 0 <= x < 0x1_0000_0000

  /** The padding the packer builds: the upper half of the length is zero, the lower half is the
      number of bits modulo 2^32. */
  function PackerPad(s: seq<Byte>): (p: seq<Byte>)
    ensures |p| % 64 == 0
  {
    s + [0x80] + Zeros(PadZeros(|s|)) + Be32(0) + Be32(8 * |s| % 0x1_0000_0000)
  }

  function PackerDigest(s: seq<Byte>): (d: seq<Byte>)
    ensures |d| == 20
  {
    Digest(HashBlocks(PackerPad(s), |PackerPad(s)| / 64))
  }

  lemma {:induction false} SamePrefix(s: seq<Byte>, p: seq<Byte>, n: nat)
    requires 64 * n <= |s| <= |p| && forall i :: 0 <= i < 64 * n ==> s[i] == p[i]
    ensures HashBlocks(s, n) == HashBlocks(p, n)
  {
    if n > 0 {
      SamePrefix(s, p, n - 1);
      assert Block(s, n - 1) == Block(p, n - 1);
    }
  }

  /** The last bytes of the message, cut at `last` and filled up with zeros. */
  function Tail(t: seq<Byte>, last: nat): (b: seq<Byte>)
    requires last <= |t| && last <= 64
    ensures |b| == 64
  {
    t[..last] + Zeros(64 - last)
  }

  /** The first sixteen words of temp are those of a 64-byte block. */
  ghost predicate Holds(temp: array<Word>, b: seq<Byte>)
    requires temp.Length == 80 && |b| == 64
    reads temp
  {
    forall j :: 0 <= j < 16 ==> temp[j] == WordAt(b, 4 * j)
  }

  /** `(3 - (last & 3)) << 3` for the four values of `last & 3`. */
  function ShiftOf(k: nat): Word
    requires k < 4
  {
    if k == 0 then 24 else if k == 1 then 16 else if k == 2 then 8 else 0
  }

  /** The new word when a byte is or-ed into its place. */
  function OrAt(w: Word, k: nat, b: Byte): Word
    requires k < 4
  {
    w | ((b as bv32) << ShiftOf(k))
  }

  lemma OrByte0(b: Byte)
    ensures OrAt(BigEndian(0, 0, 0, 0), 0, b) == BigEndian(b, 0, 0, 0)
  {
  }

  lemma OrByte1(p: Byte, b: Byte)
    ensures OrAt(BigEndian(p, 0, 0, 0), 1, b) == BigEndian(p, b, 0, 0)
  {
  }

  lemma OrByte2(p: Byte, q: Byte, b: Byte)
    ensures OrAt(BigEndian(p, q, 0, 0), 2, b) == BigEndian(p, q, b, 0)
  {
  }

  lemma OrByte3(p: Byte, q: Byte, r: Byte, b: Byte)
    ensures OrAt(BigEndian(p, q, r, 0), 3, b) == BigEndian(p, q, r, b)
  {
  }

  lemma OrByte(w: seq<Byte>, k: nat, b: Byte)
    requires |w| == 4 && k < 4 && forall i :: k <= i < 4 ==> w[i] == 0
    ensures OrAt(WordAt(w, 0), k, b) == WordAt(w[k := b], 0)
  {
    var v := w[k := b];
    assert WordAt(v, 0) == BigEndian(v[0], v[1], v[2], v[3]);
    if k == 0 {
      OrByte0(b);
      assert WordAt(w, 0) == BigEndian(0, 0, 0, 0);
    } else if k == 1 {
      OrByte1(w[0], b);
      assert WordAt(w, 0) == BigEndian(w[0], 0, 0, 0);
    } else if k == 2 {
      OrByte2(w[0], w[1], b);
      assert WordAt(w, 0) == BigEndian(w[0], w[1], 0, 0);
    } else {
      OrByte3(w[0], w[1], w[2], b);
      assert WordAt(w, 0) == BigEndian(w[0], w[1], w[2], 0);
    }
  }

  lemma SetByte(b: seq<Byte>, last: nat, x: Byte, j: nat)
    requires |b| == 64 && last < 64 && j < 16 && forall i :: last <= i < 64 ==> b[i] == 0
    ensures WordAt(b[last := x], 4 * j) ==
            if j == last / 4 then OrAt(WordAt(b, 4 * j), last % 4, x) else WordAt(b, 4 * j)
  {
    var v := b[last := x];
    var w := b[4 * j..4 * j + 4];
    Slice(b, 4 * j);
    Slice(v, 4 * j);
    if j == last / 4 {
      OrByte(w, last % 4, x);
      assert v[4 * j..4 * j + 4] == w[last % 4 := x];
    } else {
      assert v[4 * j..4 * j + 4] == w;
    }
  }

  lemma Slice(b: seq<Byte>, i: nat)
    requires i + 4 <= |b|
    ensures WordAt(b, i) == WordAt(b[i..i + 4], 0)
  {
  }

  lemma ZeroWord()
    ensures BigEndian(0, 0, 0, 0) == 0
  {
  }

  method ReadBlock(buf: array<Byte>, block: uint32, temp: array<Word>)
    requires temp.Length == 80 && block as int + 64 <= buf.Length && block < 0xFFFF_FFC0
    modifies temp
    ensures Holds(temp, buf[block..block + 64])
  {
    var i := 0;
    var at := block;
    while at < block + 64
      invariant 0 <= i <= 16 && at as int == block as int + 4 * i
      invariant forall j :: 0 <= j < i ==> temp[j] == WordAt(buf[block..block + 64], 4 * j)
    {
      temp[i] := BigEndian(buf[at], buf[at + 1], buf[at + 2], buf[at + 3]);
      i := i + 1;
      at := at + 4;
    }
  }

  method ClearWords(temp: array<Word>)
    requires temp.Length == 80
    modifies temp
    ensures Holds(temp, Zeros(64)) && forall j :: 0 <= j < 16 ==> temp[j] == 0
  {
    ZeroWord();
    forall i | 0 <= i < 16 {
      temp[i] := 0;
    }
  }

  method PutByte(temp: array<Word>, last: uint32, x: Byte, ghost b: seq<Byte>)
    requires temp.Length == 80 && last < 64 && |b| == 64 && Holds(temp, b)
    requires forall i :: last as int <= i < 64 ==> b[i] == 0
    modifies temp
    ensures Holds(temp, b[last := x])
  {
    forall j | 0 <= j < 16 ensures WordAt(b[last := x], 4 * j) ==
        if j == last as int / 4 then OrAt(WordAt(b, 4 * j), last as int % 4, x) else WordAt(b, 4 * j) {
      SetByte(b, last as int, x, j);
    }
    temp[last / 4] := OrAt(temp[last / 4], last as int % 4, x);
  }

  /** The words of the tail of the message followed by the 0x80 byte. */
  method ReadTail(buf: array<Byte>, block: uint32, end: uint32, temp: array<Word>)
    requires temp.Length == 80 && end < 64 && block as int + end as int == buf.Length < 0xFFFF_FFC0
    modifies temp
    ensures Holds(temp, Tail(buf[block..] + [0x80], end as int + 1))
  {
    ghost var t := buf[block..];
    ClearWords(temp);
    var last: uint32 := 0;
    assert Tail(t, 0) == Zeros(64);
    while last < end
      invariant last <= end && Holds(temp, Tail(t, last as int))
    {
      PutByte(temp, last, buf[last + block], Tail(t, last as int));
      assert Tail(t, last as int)[last := t[last]] == Tail(t, last as int + 1);
      last := last + 1;
    }
    PutByte(temp, last, 0x80, Tail(t, last as int));
    assert Tail(t, last as int)[last := 0x80] == Tail(t + [0x80], last as int + 1);
  }

  method WriteDigest(sha: array<Word>, dest: array<Byte>)
    requires sha.Length == 5 && dest.Length >= 20
    modifies dest
    ensures dest[..20] == Digest(Hash(sha)) && dest[20..] == old(dest[20..])
  {
    ghost var v := Hash(sha);
    ghost var d := Digest(v);
    var i := 19;
    while i >= 0
      invariant -1 <= i < 20
      invariant forall k :: i < k < 20 ==> dest[k] == d[k]
      invariant dest[20..] == old(dest[20..])
    {
      assert sha[i / 4] == Nth(v, i / 4);
      dest[i] := ByteAt(sha[i / 4], i % 4);
      i := i - 1;
    }
  }

  lemma PadZerosOf(n: nat, end: nat)
    requires end < 64
    ensures PadZeros(64 * n + end) == if end < 56 then 55 - end else 119 - end
  {
  }

  /** How the padded message falls into blocks: the last one or two are the tail with the 0x80 byte,
      zeros, and the length. */
  lemma LastBlocks(s: seq<Byte>, n: nat)
    requires 64 * n <= |s| < 64 * n + 64
    ensures
      var p, end := PackerPad(s), |s| - 64 * n;
      var tail := Tail(s[64 * n..] + [0x80], end + 1);
      var length := Be32(0) + Be32(8 * |s| % 0x1_0000_0000);
      && s <= p
      && (end < 56 ==> p[64 * n..] == tail[..56] + length)
      && (end >= 56 ==> p[64 * n..] == tail + (Zeros(56) + length))
  {
    var end := |s| - 64 * n;
    PadZerosOf(n, end);
    var t, length := s[64 * n..] + [0x80], Be32(0) + Be32(8 * |s| % 0x1_0000_0000);
    var z := if end < 56 then 55 - end else 119 - end;
    assert PackerPad(s)[64 * n..] == t + Zeros(z) + length;
    assert Tail(t, end + 1) == t + Zeros(63 - end);
    if end < 56 {
      assert Tail(t, end + 1)[..56] == t + Zeros(z);
    } else {
      assert Zeros(63 - end) + Zeros(56) == Zeros(z);
    }
  }

  lemma BlockOf(p: seq<Byte>, n: nat, b: seq<Byte>)
    requires |b| == 64 && 64 * n + 64 <= |p| && p[64 * n..64 * n + 64] == b
    ensures Block(p, n) == Block(b, 0)
  {
    forall i | 0 <= i < 16 ensures Block(p, n)[i] == Block(b, 0)[i] {
      assert p[64 * n..64 * n + 64][4 * i] == p[64 * n + 4 * i];
      assert p[64 * n..64 * n + 64][4 * i + 1] == p[64 * n + 4 * i + 1];
      assert p[64 * n..64 * n + 64][4 * i + 2] == p[64 * n + 4 * i + 2];
      assert p[64 * n..64 * n + 64][4 * i + 3] == p[64 * n + 4 * i + 3];
    }
  }

  function WithLength(b: seq<Byte>, len: nat): (r: seq<Byte>)
    requires |b| == 64
    ensures |r| == 64
  {
    b[..56] + Be32(0) + Be32(8 * len % 0x1_0000_0000)
  }

  /** `temp[15] = len << 3`: the low half of the length, over a block whose last eight bytes are zero. */
  method PutLength(temp: array<Word>, len: uint32, ghost b: seq<Byte>)
    requires temp.Length == 80 && |b| == 64 && Holds(temp, b) && forall i :: 56 <= i < 64 ==> b[i] == 0
    modifies temp
    ensures Holds(temp, WithLength(b, len as int))
  {
    hide ToWord, WithLength, WordAt;
    temp[15] := ToWord(len as int) << 3;
    LengthWords(b, len as int);
  }

  lemma LengthWords(b: seq<Byte>, len: nat)
    requires |b| == 64
    ensures WordAt(WithLength(b, len), 60) == ToWord(len) << 3
    ensures (forall i :: 56 <= i < 64 ==> b[i] == 0) ==>
              forall j :: 0 <= j < 15 ==> WordAt(WithLength(b, len), 4 * j) == WordAt(b, 4 * j)
  {
    var b', n := WithLength(b, len), 8 * len % 0x1_0000_0000;
    assert b'[60..64] == Be32(n);
    Slice(b', 60);
    BytesAreWord(n);
    ShiftedIs(len);
    if forall i :: 56 <= i < 64 ==> b[i] == 0 {
      ZerosStay(b, len);
    }
  }

  lemma ZerosStay(b: seq<Byte>, len: nat)
    requires |b| == 64 && forall i :: 56 <= i < 64 ==> b[i] == 0
    ensures forall i :: 0 <= i < 60 ==> WithLength(b, len)[i] == b[i]
  {
    assert Be32(0) == [0, 0, 0, 0];
  }

  /** One more block of p goes into the hash. */
  method HashBlock(sha: array<Word>, temp: array<Word>, ghost p: seq<Byte>, ghost n: nat, ghost b: seq<Byte>)
    requires sha.Length == 5 && temp.Length == 80 && sha != temp
    requires |b| == 64 && Holds(temp, b) && 64 * n + 64 <= |p| && p[64 * n..64 * n + 64] == b
    requires Hash(sha) == HashBlocks(p, n)
    modifies sha, temp
    ensures Hash(sha) == HashBlocks(p, n + 1)
  {
    BlockWords(temp, b);
    BlockOf(p, n, b);
    Sha1PartHash(sha, temp);
  }

  /** The loop over whole blocks. */
  method HashWhole(buf: array<Byte>, len: uint32, sha: array<Word>, temp: array<Word>) returns (block: uint32)
    requires buf.Length == len as int && len < 0xFFFF_FFC0
    requires sha.Length == 5 && temp.Length == 80 && sha != temp && Hash(sha) == Initial()
    modifies sha, temp
    ensures block <= len < block + 64 && block % 64 == 0
    ensures Hash(sha) == HashBlocks(buf[..], block as int / 64)
  {
    block := 0;
    ghost var n: nat := 0;
    while block + 64 <= len
      invariant block <= len && block as int == 64 * n
      invariant Hash(sha) == HashBlocks(buf[..], n)
      decreases len - block
    {
      ReadBlock(buf, block, temp);
      assert buf[..][64 * n..64 * n + 64] == buf[block..block + 64];
      HashBlock(sha, temp, buf[..], n, buf[block..block + 64]);
      n := n + 1;
      block := block + 64;
    }
  }

  /** The last one or two blocks. */
  method HashTail(buf: array<Byte>, len: uint32, block: uint32, sha: array<Word>, temp: array<Word>, ghost n: nat)
    requires buf.Length == len as int && len < 0xFFFF_FFC0 && block <= len < block + 64 && block as int == 64 * n
    requires sha.Length == 5 && temp.Length == 80 && sha != temp
    requires Hash(sha) == HashBlocks(buf[..], n)
    modifies sha, temp
    ensures Hash(sha) == HashBlocks(PackerPad(buf[..]), |PackerPad(buf[..])| / 64)
  {
    var end := len - block;
    ghost var s := buf[..];
    ghost var p, tail := PackerPad(s), Tail(s[64 * n..] + [0x80], end as int + 1);
    PadKeepsHash(s, n);
    ReadTail(buf, block, end, temp);
    assert buf[block..] == s[64 * n..];
    TailFits(s, n);
    FinishBlocks(sha, temp, len, end, p, n, tail);
  }

  method FinishBlocks(sha: array<Word>, temp: array<Word>, len: uint32, end: uint32, ghost p: seq<Byte>,
                      ghost n: nat, ghost tail: seq<Byte>)
    requires sha.Length == 5 && temp.Length == 80 && sha != temp
    requires Fits(p, n, tail, len as int, end as int) && Holds(temp, tail) && Hash(sha) == HashBlocks(p, n)
    modifies sha, temp
    ensures Hash(sha) == HashBlocks(p, |p| / 64)
  {
    hide WithLength, HashBlocks, WordAt;
    ghost var last, k := tail, n;
    if end >= 56 {
      HashBlock(sha, temp, p, n, tail);
      ClearWords(temp);
      last, k := Zeros(64), n + 1;
    }
    HashLast(sha, temp, len, p, k, last);
  }

  ghost predicate Fits(p: seq<Byte>, n: nat, tail: seq<Byte>, len: nat, end: nat) {
    && |tail| == 64 && 64 * n <= |p|
    && (end < 56 ==> FitsOne(p, n, tail, len))
    && (end >= 56 ==> FitsTwo(p, n, tail, len))
  }

  lemma TailFits(s: seq<Byte>, n: nat)
    requires 64 * n <= |s| < 64 * n + 64
    ensures
      var end := |s| - 64 * n;
      Fits(PackerPad(s), n, Tail(s[64 * n..] + [0x80], end + 1), |s|, end)
  {
    if |s| < 64 * n + 56 {
      OneBlock(s, n);
    } else {
      TwoBlocks(s, n);
    }
  }

  ghost predicate FitsOne(p: seq<Byte>, n: nat, tail: seq<Byte>, len: nat) {
    |tail| == 64 && |p| == 64 * n + 64 && p[64 * n..64 * n + 64] == WithLength(tail, len)
    && forall i :: 56 <= i < 64 ==> tail[i] == 0
  }

  ghost predicate FitsTwo(p: seq<Byte>, n: nat, tail: seq<Byte>, len: nat) {
    |tail| == 64 && |p| == 64 * n + 128 && p[64 * n..64 * n + 64] == tail
    && p[64 * (n + 1)..64 * (n + 1) + 64] == WithLength(Zeros(64), len)
  }

  lemma PadKeepsHash(s: seq<Byte>, n: nat)
    requires 64 * n <= |s|
    ensures HashBlocks(PackerPad(s), n) == HashBlocks(s, n)
  {
    SamePrefix(s, PackerPad(s), n);
  }

  method HashLast(sha: array<Word>, temp: array<Word>, len: uint32, ghost p: seq<Byte>, ghost k: nat,
                  ghost b: seq<Byte>)
    requires sha.Length == 5 && temp.Length == 80 && sha != temp
    requires |b| == 64 && Holds(temp, b) && forall i :: 56 <= i < 64 ==> b[i] == 0
    requires 64 * k + 64 <= |p| && p[64 * k..64 * k + 64] == WithLength(b, len as int)
    requires Hash(sha) == HashBlocks(p, k)
    modifies sha, temp
    ensures Hash(sha) == HashBlocks(p, k + 1)
  {
    PutLength(temp, len, b);
    HashBlock(sha, temp, p, k, WithLength(b, len as int));
  }

  lemma OneBlock(s: seq<Byte>, n: nat)
    requires 64 * n <= |s| < 64 * n + 56
    ensures
      var p, tail := PackerPad(s), Tail(s[64 * n..] + [0x80], |s| - 64 * n + 1);
      FitsOne(p, n, tail, |s|)
  {
    var p, tail := PackerPad(s), Tail(s[64 * n..] + [0x80], |s| - 64 * n + 1);
    LastBlocks(s, n);
    assert WithLength(tail, |s|) == tail[..56] + (Be32(0) + Be32(8 * |s| % 0x1_0000_0000));
    assert p[64 * n..64 * n + 64] == p[64 * n..];
  }

  lemma TwoBlocks(s: seq<Byte>, n: nat)
    requires 64 * n + 56 <= |s| < 64 * n + 64
    ensures
      var p, tail := PackerPad(s), Tail(s[64 * n..] + [0x80], |s| - 64 * n + 1);
      FitsTwo(p, n, tail, |s|)
  {
    var p, tail := PackerPad(s), Tail(s[64 * n..] + [0x80], |s| - 64 * n + 1);
    LastBlocks(s, n);
    assert WithLength(Zeros(64), |s|) == Zeros(56) + (Be32(0) + Be32(8 * |s| % 0x1_0000_0000));
    assert p[64 * n..64 * n + 64] == p[64 * n..][..64];
    assert p[64 * (n + 1)..64 * (n + 1) + 64] == p[64 * n..][64..];
  }

  /** hashSha1.  The result is the digest of the message as the packer pads it, for every length
      for which the 32-bit counter of the block loop does not wrap around. */
  method HashSha1(buf: array<Byte>, len: uint32, dest: array<Byte>)
    requires buf.Length == len as int && len < 0xFFFF_FFC0 && dest.Length >= 20
    modifies dest
    ensures dest[..20] == PackerDigest(old(buf[..])) && dest[20..] == old(dest[20..])
  {
    var temp := new Word[80](_ => 0);
    var sha := new Word[5] [0x67452301, 0xefcdab89, 0x98badcfe, 0x10325476, 0xc3d2e1f0];
    var block := HashWhole(buf, len, sha, temp);
    HashTail(buf, len, block, sha, temp, block as int / 64);
    WriteDigest(sha, dest);
  }

  lemma BlockWords(temp: array<Word>, b: seq<Byte>)
    requires temp.Length == 80 && |b| == 64 && Holds(temp, b)
    ensures temp[..16] == Block(b, 0)
  {
  }

  // ---------------------------------------------------------------- against the standard

  lemma Be32Zero(n: nat)
    requires n < 0x1_0000_0000
    ensures Be32(n) == Be32(0) <==> n == 0
  {
    ByteOfZero(0);
    ByteOfZero(n / 0x100_0000);
    ByteOfZero(n / 0x1_0000 % 0x100);
    ByteOfZero(n / 0x100 % 0x100);
    ByteOfZero(n % 0x100);
    assert Be32(0) == [0, 0, 0, 0];
  }

  /** The packer pads as the standard does if and only if the message is shorter than 2^29 bytes:
      beyond that the number of bits does not fit into the one word the packer writes. */
  lemma PadsAsStandard(s: seq<Byte>)
    requires |s| < 0x2000_0000_0000_0000
    ensures PackerPad(s) == Pad(s) <==> |s| < 0x2000_0000
  {
    var p, q := PackerPad(s), Pad(s);
    var high, low := 8 * |s| / 0x1_0000_0000, 8 * |s| % 0x1_0000_0000;
    var at := |s| + 1 + PadZeros(|s|);
    assert p[at..at + 4] == Be32(0) && q[at..at + 4] == Be32(high);
    assert p == p[..at] + Be32(0) + Be32(low) && q == p[..at] + Be32(high) + Be32(low);
    Be32Zero(high);
  }

  /** For every byte string shorter than 2^29 bytes hashSha1 writes the SHA-1 digest of FIPS 180-4. */
  lemma HashesAsStandard(s: seq<Byte>)
    requires |s| < 0x2000_0000
    ensures PackerDigest(s) == Sha1(s)
  {
    PadsAsStandard(s);
  }
}
