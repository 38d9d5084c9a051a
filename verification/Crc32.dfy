/** The checksum of the store writer, and what it detects. The operations on
    registers are small functions, so that proofs about messages need only their
    algebra and not their bits. */
module Crc32 {
  import opened Basics
  import opened Bytes8

  type Word = bv32

  const POLYNOMIAL: Word := 0xedb88320
  const ONES: Word := 0xffffffff

  function Xor(a: Word, b: Word): Word {
    a ^ b
  }

  function Wide(b: Byte): Word {
    b as bv32
  }

  /** One turn of the inner loop. */
  function Step(c: Word): Word {
    (c >> 1) ^ (POLYNOMIAL & (0 - (c & 1)))
  }

  function Steps(c: Word, n: nat): Word
    decreases n
  {
    if n == 0 then c else Steps(Step(c), n - 1)
  }

  /** The register after the bytes of data, from register c. */
  function Register(data: seq<Byte>, c: Word): Word
    decreases |data|
  {
    if data == [] then c else Register(data[1..], Steps(Xor(c, Wide(data[0])), 8))
  }

  function Crc(data: seq<Byte>): Word {
    Xor(Register(data, ONES), ONES)
  }

  method Crc32(data: seq<Byte>) returns (r: Word)
    ensures r == Crc(data)
  {
    var crc := ONES;
    var k := 0;
    while k < |data|
      invariant 0 <= k <= |data|
      invariant Register(data[k..], crc) == Register(data, ONES)
    {
      crc := ByteStep(data[k..], crc);
      k := k + 1;
    }
    r := Xor(crc, ONES);
  }

  /** The body of the outer loop: take the next byte in. */
  method ByteStep(data: seq<Byte>, crc0: Word) returns (crc: Word)
    requires data != []
    ensures crc == Steps(Xor(crc0, Wide(data[0])), 8)
    ensures Register(data[1..], crc) == Register(data, crc0)
  {
    crc := Xor(crc0, Wide(data[0]));
    ghost var mixed := crc;
    var i := 0;
    while i < 8
      invariant 0 <= i <= 8
      invariant Steps(crc, 8 - i) == Steps(mixed, 8)
    {
      StepIs(crc);
      hide Step, Xor, Wide;
      crc := (crc >> 1) ^ (0xedb88320 & (0 - (crc & 1)));
      i := i + 1;
    }
  }

  lemma StepIs(c: Word)
    ensures Step(c) == (c >> 1) ^ (0xedb88320 & (0 - (c & 1)))
  {
  }

  // ------------------------------------------------------------------
  // Facts about bits
  // ------------------------------------------------------------------

  lemma XorAssociates(a: Word, b: Word, c: Word)
    ensures Xor(Xor(a, b), c) == Xor(a, Xor(b, c))
  {
  }

  lemma XorCommutes(a: Word, b: Word)
    ensures Xor(a, b) == Xor(b, a)
  {
  }

  lemma XorZero(a: Word)
    ensures Xor(a, a) == 0 && Xor(a, 0) == a
  {
  }

  lemma XorCancels(x: Word, y: Word, b: Word)
    ensures Xor(x, b) == Xor(y, b) ==> x == y
    ensures Xor(b, x) == Xor(b, y) ==> x == y
  {
  }

  lemma FourWay(a: Word, b: Word, c: Word, d: Word)
    ensures Xor(Xor(a, b), Xor(c, d)) == Xor(Xor(a, c), Xor(b, d))
  {
    hide Xor;
    XorAssociates(a, b, Xor(c, d));
    XorAssociates(b, c, d);
    XorCommutes(b, c);
    XorAssociates(c, b, d);
    XorAssociates(a, c, Xor(b, d));
  }

  lemma StepCases(c: Word)
    ensures c & 1 == 0 ==> Step(c) == c >> 1
    ensures c & 1 == 1 ==> Step(c) == (c >> 1) ^ POLYNOMIAL
    ensures c & 1 == 0 || c & 1 == 1
  {
  }

  lemma LowBit(x: Word, y: Word)
    ensures (x ^ y) & 1 == (x & 1) ^ (y & 1)
    ensures (x ^ y) >> 1 == (x >> 1) ^ (y >> 1)
  {
  }

  lemma XorShuffle(a: Word, b: Word, p: Word)
    ensures (a ^ p) ^ b == (a ^ b) ^ p && a ^ (b ^ p) == (a ^ b) ^ p && (a ^ p) ^ (b ^ p) == a ^ b
  {
  }

  lemma StepLinear(x: Word, y: Word)
    ensures Step(Xor(x, y)) == Xor(Step(x), Step(y))
  {
    StepCases(x);
    StepCases(y);
    StepCases(x ^ y);
    LowBit(x, y);
    XorShuffle(x >> 1, y >> 1, POLYNOMIAL);
    hide Step;
  }

  lemma StepInjective(x: Word, y: Word)
    ensures Step(x) == Step(y) ==> x == y
  {
  }

  lemma WideXor(x: Byte, y: Byte)
    ensures Wide(x ^ y) == Xor(Wide(x), Wide(y))
  {
  }

  // ------------------------------------------------------------------
  // The register is linear and invertible
  // ------------------------------------------------------------------

  lemma {:induction false} StepsLinear(x: Word, y: Word, n: nat)
    ensures Steps(Xor(x, y), n) == Xor(Steps(x, n), Steps(y, n))
    decreases n
  {
    hide Step, Xor;
    if n > 0 {
      StepLinear(x, y);
      StepsLinear(Step(x), Step(y), n - 1);
    }
  }

  lemma {:induction false} StepsInjective(x: Word, y: Word, n: nat)
    ensures Steps(x, n) == Steps(y, n) ==> x == y
    decreases n
  {
    hide Step;
    if n > 0 {
      StepInjective(x, y);
      StepsInjective(Step(x), Step(y), n - 1);
    }
  }

  lemma {:induction false} StepsCompose(x: Word, m: nat, n: nat)
    ensures Steps(Steps(x, m), n) == Steps(x, m + n)
    decreases m
  {
    hide Step;
    if m > 0 { StepsCompose(Step(x), m - 1, n); }
  }

  lemma {:induction false} RegisterInjective(data: seq<Byte>, c: Word, d: Word)
    ensures Register(data, c) == Register(data, d) ==> c == d
    decreases |data|
  {
    hide Steps, Xor, Wide;
    if data != [] {
      var b := Wide(data[0]);
      RegisterInjective(data[1..], Steps(Xor(c, b), 8), Steps(Xor(d, b), 8));
      StepsInjective(Xor(c, b), Xor(d, b), 8);
      XorCancels(c, d, b);
    }
  }

  /** The step back: the top bit tells whether the polynomial was mixed in. */
  function Unstep(d: Word): Word {
    if d & 0x80000000 == 0 then d << 1 else ((d ^ POLYNOMIAL) << 1) | 1
  }

  lemma UnstepLow(d: Word)
    requires d & 0x80000000 == 0
    ensures (d << 1) & 1 == 0 && (d << 1) >> 1 == d
  {
  }

  lemma UnstepHigh(d: Word)
    requires d & 0x80000000 != 0
    ensures (((d ^ 0xedb88320) << 1) | 1) & 1 == 1
    ensures ((((d ^ 0xedb88320) << 1) | 1) >> 1) ^ 0xedb88320 == d
  {
  }

  lemma UnstepIs(d: Word)
    ensures d & 0x80000000 == 0 ==> Unstep(d) == d << 1
    ensures d & 0x80000000 != 0 ==> Unstep(d) == ((d ^ 0xedb88320) << 1) | 1
  {
  }

  lemma StepOnto(d: Word)
    ensures Step(Unstep(d)) == d
  {
    StepCases(Unstep(d));
    UnstepIs(d);
    hide Step, Unstep;
    if d & 0x80000000 == 0 { UnstepLow(d); } else { UnstepHigh(d); }
  }

  lemma {:induction false} StepsOnto(d: Word, n: nat) returns (c: Word)
    ensures Steps(c, n) == d
    decreases n
  {
    hide Step, Unstep;
    if n == 0 {
      c := d;
    } else {
      var e := StepsOnto(d, n - 1);
      c := Unstep(e);
      StepOnto(e);
    }
  }

  /** Every register value is reached from some register. */
  lemma {:induction false} RegisterOnto(data: seq<Byte>, d: Word) returns (c: Word)
    ensures Register(data, c) == d
    decreases |data|
  {
    hide Steps, Xor, Wide;
    if data == [] {
      c := d;
    } else {
      var b := Wide(data[0]);
      var e := RegisterOnto(data[1..], d);
      var f := StepsOnto(e, 8);
      c := Xor(f, b);
      XorAssociates(f, b, b);
      XorZero(b);
      XorZero(f);
    }
  }

  lemma {:induction false} RegisterConcat(a: seq<Byte>, b: seq<Byte>, c: Word)
    ensures Register(a + b, c) == Register(b, Register(a, c))
    decreases |a|
  {
    hide Steps, Xor, Wide;
    if a == [] {
      assert a + b == b;
    } else {
      assert (a + b)[1..] == a[1..] + b;
      RegisterConcat(a[1..], b, Steps(Xor(c, Wide(a[0])), 8));
    }
  }

  function XorBytes(a: seq<Byte>, b: seq<Byte>): (r: seq<Byte>)
    requires |a| == |b|
    ensures |r| == |a|
  {
    seq(|a|, i requires 0 <= i < |a| => a[i] ^ b[i])
  }

  lemma XorHead(a: seq<Byte>, b: seq<Byte>)
    requires |a| == |b| > 0
    ensures XorBytes(a, b)[1..] == XorBytes(a[1..], b[1..])
    ensures Wide(XorBytes(a, b)[0]) == Xor(Wide(a[0]), Wide(b[0]))
  {
    WideXor(a[0], b[0]);
    hide Wide, Xor;
  }

  lemma {:induction false} RegisterLinear(a: seq<Byte>, b: seq<Byte>, c: Word, d: Word)
    requires |a| == |b|
    ensures Register(XorBytes(a, b), Xor(c, d)) == Xor(Register(a, c), Register(b, d))
    decreases |a|
  {
    hide Steps, Xor, Wide, XorBytes;
    if a != [] {
      XorHead(a, b);
      var x, y := Wide(a[0]), Wide(b[0]);
      FourWay(c, d, x, y);
      StepsLinear(Xor(c, x), Xor(d, y), 8);
      RegisterLinear(a[1..], b[1..], Steps(Xor(c, x), 8), Steps(Xor(d, y), 8));
    }
  }

  lemma MaskAlgebra(x: Word, y: Word, z: Word)
    ensures Xor(Xor(ONES, ONES), ONES) == ONES
    ensures Xor(Xor(Xor(x, y), z), ONES) == Xor(Xor(Xor(x, ONES), Xor(y, ONES)), Xor(z, ONES))
  {
  }

  /** On messages of one length the checksum is affine. */
  lemma Affine(a: seq<Byte>, b: seq<Byte>, c: seq<Byte>)
    requires |a| == |b| == |c|
    ensures Crc(XorBytes(XorBytes(a, b), c)) == Xor(Xor(Crc(a), Crc(b)), Crc(c))
  {
    hide Register, XorBytes, Xor;
    MaskAlgebra(Register(a, ONES), Register(b, ONES), Register(c, ONES));
    RegisterLinear(a, b, ONES, ONES);
    RegisterLinear(XorBytes(a, b), c, Xor(ONES, ONES), ONES);
  }

  // ------------------------------------------------------------------
  // Detection
  // ------------------------------------------------------------------

  function Up8(t: Word): Word {
    t << 8
  }

  /** Up to four bytes as one little-endian word. */
  function Packed(w: seq<Byte>): Word {
    if w == [] then 0 else Xor(Wide(w[0]), Up8(Packed(w[1..])))
  }

  /** t fits n bytes. */
  predicate Fits(t: Word, n: nat) {
    if n == 0 then t == 0
    else if n == 1 then t < 0x100
    else if n == 2 then t < 0x10000
    else n >= 4 || t < 0x1000000
  }

  lemma OneByteFits(b: Byte)
    ensures Xor(Wide(b), Up8(0)) < 0x100
  {
  }

  lemma TwoBytesFit(b: Byte, t: Word)
    requires t < 0x100
    ensures Xor(Wide(b), Up8(t)) < 0x10000
  {
  }

  lemma ThreeBytesFit(b: Byte, t: Word)
    requires t < 0x10000
    ensures Xor(Wide(b), Up8(t)) < 0x1000000
  {
  }

  lemma ByteBelow(b: Byte, t: Word, n: nat)
    requires 1 <= n && Fits(t, n - 1)
    ensures Fits(Xor(Wide(b), Up8(t)), n)
  {
    hide Xor, Wide, Up8;
    if n == 1 {
      OneByteFits(b);
    } else if n == 2 {
      TwoBytesFit(b, t);
    } else if n == 3 {
      ThreeBytesFit(b, t);
    }
  }

  lemma NothingFits()
    ensures Fits(Packed([]), 0)
  {
  }

  lemma {:induction false} PackedFits(w: seq<Byte>)
    ensures Fits(Packed(w), |w|)
    decreases |w|
  {
    hide Xor, Wide, Up8, Fits;
    if w == [] {
      NothingFits();
    } else {
      PackedFits(w[1..]);
      ByteBelow(w[0], Packed(w[1..]), |w|);
    }
  }

  lemma ByteApart(a: Byte, s: Word, b: Byte, t: Word)
    requires s < 0x1000000 && t < 0x1000000
    requires Xor(Wide(a), Up8(s)) == Xor(Wide(b), Up8(t))
    ensures a == b && s == t
  {
  }

  lemma FitsThree(t: Word, n: nat)
    requires n <= 3 && Fits(t, n)
    ensures t < 0x1000000
  {
  }

  lemma {:induction false} PackedInjective(v: seq<Byte>, w: seq<Byte>)
    requires |v| == |w| <= 4 && Packed(v) == Packed(w)
    ensures v == w
    decreases |v|
  {
    hide Xor, Wide, Up8, Fits;
    if v != [] {
      PackedFits(v[1..]);
      PackedFits(w[1..]);
      FitsThree(Packed(v[1..]), |v| - 1);
      FitsThree(Packed(w[1..]), |w| - 1);
      ByteApart(v[0], Packed(v[1..]), w[0], Packed(w[1..]));
      PackedInjective(v[1..], w[1..]);
      assert v == [v[0]] + v[1..] && w == [w[0]] + w[1..];
    }
  }

  function Up(t: Word, k: Word): Word
    requires k <= 8
  {
    t << k
  }

  lemma StepOfShift(t: Word, k: Word)
    requires t < 0x1000000 && 1 <= k <= 8
    ensures Step(Up(t, k)) == Up(t, k - 1)
  {
  }

  lemma UpEnds(t: Word)
    ensures Up(t, 8) == Up8(t) && Up(t, 0) == t
  {
  }

  /** Eight steps of Step, written out. */
  lemma EightSteps(a: Word)
    ensures Steps(a, 8) == Step(Step(Step(Step(Step(Step(Step(Step(a))))))))
  {
    hide Step;
    var b := Step(Step(Step(Step(a))));
    assert Steps(a, 8) == Steps(Step(Step(a)), 6);
    assert Steps(Step(Step(a)), 6) == Steps(b, 4);
    assert Steps(b, 4) == Steps(Step(Step(b)), 2);
  }

  /** Eight steps bring a shifted word down without touching it. */
  lemma StepsDown(t: Word)
    requires t < 0x1000000
    ensures Steps(Up8(t), 8) == t
  {
    hide Steps, Step, Up, Up8;
    UpEnds(t);
    EightSteps(Up8(t));
    StepOfShift(t, 8); StepOfShift(t, 7); StepOfShift(t, 6); StepOfShift(t, 5);
    StepOfShift(t, 4); StepOfShift(t, 3); StepOfShift(t, 2); StepOfShift(t, 1);
  }

  /** The register after up to four bytes, as steps of one word. */
  lemma {:induction false} RegisterOfWord(w: seq<Byte>, c: Word)
    requires |w| <= 4
    ensures Register(w, c) == Steps(Xor(c, Packed(w)), 8 * |w|)
    decreases |w|
  {
    hide Step, Xor, Wide, Up8, Fits;
    if w == [] {
      XorZero(c);
    } else {
      var b, t := Wide(w[0]), Packed(w[1..]);
      PackedFits(w[1..]);
      FitsThree(t, |w| - 1);
      hide Steps;
      RegisterOfWord(w[1..], Steps(Xor(c, b), 8));
      StepsDown(t);
      StepsLinear(Xor(c, b), Up8(t), 8);
      XorAssociates(c, b, Up8(t));
      StepsCompose(Xor(c, Packed(w)), 8, 8 * |w[1..]|);
      assert 8 + 8 * |w[1..]| == 8 * |w|;
    }
  }

  lemma WordsTellApart(v: seq<Byte>, w: seq<Byte>, c: Word)
    requires |v| == |w| <= 4 && Register(v, c) == Register(w, c)
    ensures v == w
  {
    hide Register, Steps, Packed, Xor;
    RegisterOfWord(v, c);
    RegisterOfWord(w, c);
    StepsInjective(Xor(c, Packed(v)), Xor(c, Packed(w)), 8 * |v|);
    XorCancels(Packed(v), Packed(w), c);
    PackedInjective(v, w);
  }

  /** Equal checksums come from equal registers behind the bytes that may differ. */
  lemma SameRegister(a: seq<Byte>, b: seq<Byte>, lo: nat, hi: nat) returns (c: Word)
    requires |a| == |b| && lo <= hi <= |a| && a[..lo] == b[..lo] && a[hi..] == b[hi..]
    requires Crc(a) == Crc(b)
    ensures Register(a[lo..hi], c) == Register(b[lo..hi], c)
  {
    hide Register, Xor;
    assert a == a[..lo] + a[lo..hi] + a[hi..] && b == b[..lo] + b[lo..hi] + b[hi..];
    c := Register(a[..lo], ONES);
    RegisterConcat(a[..lo] + a[lo..hi], a[hi..], ONES);
    RegisterConcat(a[..lo], a[lo..hi], ONES);
    RegisterConcat(b[..lo] + b[lo..hi], b[hi..], ONES);
    RegisterConcat(b[..lo], b[lo..hi], ONES);
    XorCancels(Register(a, ONES), Register(b, ONES), ONES);
    RegisterInjective(a[hi..], Register(a[lo..hi], c), Register(b[lo..hi], c));
  }

  lemma Around(a: seq<Byte>, b: seq<Byte>, lo: nat, hi: nat)
    requires |a| == |b| && lo <= hi <= |a|
    requires a[..lo] == b[..lo] && a[lo..hi] == b[lo..hi] && a[hi..] == b[hi..]
    ensures a == b
  {
    assert a == a[..lo] + a[lo..hi] + a[hi..] && b == b[..lo] + b[lo..hi] + b[hi..];
  }

  /** Any change confined to four consecutive bytes changes the checksum. */
  lemma BytesDetected(a: seq<Byte>, b: seq<Byte>, lo: nat, hi: nat)
    requires |a| == |b| && lo <= hi <= |a| && hi - lo <= 4
    requires a[..lo] == b[..lo] && a[hi..] == b[hi..] && a != b
    ensures Crc(a) != Crc(b)
  {
    hide Crc, Register;
    if Crc(a) == Crc(b) {
      var c := SameRegister(a, b, lo, hi);
      WordsTellApart(a[lo..hi], b[lo..hi], c);
      Around(a, b, lo, hi);
    }
  }

  /** In particular any change of a single byte. */
  lemma ByteChangeDetected(a: seq<Byte>, i: nat, x: Byte)
    requires i < |a| && a[i] != x
    ensures Crc(a[i := x]) != Crc(a)
  {
    hide Crc;
    BytesDetected(a, a[i := x], i, i + 1);
  }

  // ------------------------------------------------------------------
  // Bursts that start at any bit
  // ------------------------------------------------------------------

  /** Bit j of a byte, the lowest first: the order in which bits enter the register. */
  predicate BitOf(b: Byte, j: nat)
    requires j < 8
  {
    var mask: Byte := if j == 0 then 1 else if j == 1 then 2 else if j == 2 then 4 else if j == 3 then 8
                      else if j == 4 then 16 else if j == 5 then 32 else if j == 6 then 64 else 128;
    b & mask != 0
  }

  predicate BitAt(data: seq<Byte>, p: nat)
    requires p < 8 * |data|
  {
    BitOf(data[p / 8], p % 8)
  }

  /** Messages of one length that agree outside the width bits from bit start on. */
  predicate AgreeOutside(a: seq<Byte>, b: seq<Byte>, start: nat, width: nat) {
    && |a| == |b|
    && forall p: nat | p < 8 * |a| && !(start <= p < start + width) :: BitAt(a, p) == BitAt(b, p)
  }

  /** Byte i agrees in bit j, which lies outside. */
  lemma BitOutside(a: seq<Byte>, b: seq<Byte>, start: nat, i: nat, j: nat)
    requires AgreeOutside(a, b, start, 32) && i < |a| && j < 8 && !(start <= 8 * i + j < start + 32)
    ensures BitOf(a[i], j) == BitOf(b[i], j)
  {
    hide BitOf;
    var p := 8 * i + j;
    assert p / 8 == i && p % 8 == j;
    assert BitAt(a, p) == BitAt(b, p);
  }

  lemma AllBits(x: Byte, y: Byte)
    requires forall j: nat | j < 8 :: BitOf(x, j) == BitOf(y, j)
    ensures x == y
  {
    assert BitOf(x, 0) == BitOf(y, 0) && BitOf(x, 1) == BitOf(y, 1) && BitOf(x, 2) == BitOf(y, 2) && BitOf(x, 3) == BitOf(y, 3);
    assert BitOf(x, 4) == BitOf(y, 4) && BitOf(x, 5) == BitOf(y, 5) && BitOf(x, 6) == BitOf(y, 6) && BitOf(x, 7) == BitOf(y, 7);
  }

  lemma BytesOutside(a: seq<Byte>, b: seq<Byte>, start: nat, i: nat)
    requires AgreeOutside(a, b, start, 32) && i < |a| && (8 * i + 8 <= start || start + 32 <= 8 * i)
    ensures a[i] == b[i]
  {
    hide BitOf, AgreeOutside;
    assert |a| == |b| by { SameLength(a, b, start); }
    forall j: nat | j < 8 ensures BitOf(a[i], j) == BitOf(b[i], j) { BitOutside(a, b, start, i, j); }
    AllBits(a[i], b[i]);
  }

  lemma SameLength(a: seq<Byte>, b: seq<Byte>, start: nat)
    requires AgreeOutside(a, b, start, 32)
    ensures |a| == |b|
  {
  }

  /** The shift amounts below are words; s is the same number. */
  predicate Amount(s: nat, k: Word) {
    match s
    case 0 => k == 0
    case 1 => k == 1
    case 2 => k == 2
    case 3 => k == 3
    case 4 => k == 4
    case 5 => k == 5
    case 6 => k == 6
    case 7 => k == 7
    case _ => false
  }

  lemma TheAmount(s: nat) returns (k: Word)
    requires 1 <= s <= 7
    ensures Amount(s, k) && Amount(8 - s, 8 - k) && 1 <= k <= 7
  {
    k := match s case 1 => 1 case 2 => 2 case 3 => 3 case 4 => 4 case 5 => 5 case 6 => 6 case _ => 7;
  }

  lemma Less(s: nat, k: Word)
    requires Amount(s, k) && s > 0
    ensures Amount(s - 1, k - 1) && 1 <= k <= 7
  {
  }

  function Down(t: Word, k: Word): Word
    requires k <= 8
  {
    t >> k
  }

  lemma StepOfUp(t: Word, k: Word)
    requires 1 <= k <= 7 && Down(Up(t, k), k) == t
    ensures Step(Up(t, k)) == Up(t, k - 1) && Down(Up(t, k - 1), k - 1) == t
  {
  }

  /** s steps bring a word down that was shifted by s. */
  lemma {:induction false} StepsDownBy(t: Word, s: nat, k: Word)
    requires Amount(s, k) && k <= 8 && Down(Up(t, k), k) == t
    ensures Steps(Up(t, k), s) == t
    decreases s
  {
    hide Step, Up, Down;
    if s == 0 {
      UpEnds(t);
    } else {
      Less(s, k);
      StepOfUp(t, k);
      hide Amount;
      StepsDownBy(t, s - 1, k - 1);
    }
  }

  function LowBits(s: nat): Byte {
    match s
    case 0 => 0
    case 1 => 1
    case 2 => 3
    case 3 => 7
    case 4 => 15
    case 5 => 31
    case 6 => 63
    case _ => 127
  }

  /** Bytes that agree in their low s bits, and bytes that agree in the others. */
  lemma LowAgree(x: Byte, y: Byte, s: nat)
    requires 1 <= s <= 7 && forall j: nat | j < s :: BitOf(x, j) == BitOf(y, j)
    ensures (x ^ y) & LowBits(s) == 0
  {
    assert BitOf(x, 0) == BitOf(y, 0);
    assert s > 1 ==> BitOf(x, 1) == BitOf(y, 1);
    assert s > 2 ==> BitOf(x, 2) == BitOf(y, 2);
    assert s > 3 ==> BitOf(x, 3) == BitOf(y, 3);
    assert s > 4 ==> BitOf(x, 4) == BitOf(y, 4);
    assert s > 5 ==> BitOf(x, 5) == BitOf(y, 5);
    assert s > 6 ==> BitOf(x, 6) == BitOf(y, 6);
  }

  lemma HighAgree(x: Byte, y: Byte, s: nat)
    requires 1 <= s <= 7 && forall j: nat | s <= j < 8 :: BitOf(x, j) == BitOf(y, j)
    ensures (x ^ y) <= LowBits(s)
  {
    assert BitOf(x, 7) == BitOf(y, 7);
    assert s <= 6 ==> BitOf(x, 6) == BitOf(y, 6);
    assert s <= 5 ==> BitOf(x, 5) == BitOf(y, 5);
    assert s <= 4 ==> BitOf(x, 4) == BitOf(y, 4);
    assert s <= 3 ==> BitOf(x, 3) == BitOf(y, 3);
    assert s <= 2 ==> BitOf(x, 2) == BitOf(y, 2);
    assert s <= 1 ==> BitOf(x, 1) == BitOf(y, 1);
  }

  /** The s low bits of e are zero. */
  predicate Clear(e: Word, s: nat) {
    e & Wide(LowBits(s)) == 0
  }

  lemma ByteClear(d: Byte, s: nat)
    requires d & LowBits(s) == 0
    ensures Clear(Wide(d), s)
  {
  }

  lemma Up8Clear(t: Word, s: nat)
    ensures Clear(Up8(t), s)
  {
  }

  lemma XorClear(e: Word, f: Word, s: nat)
    requires Clear(e, s) && Clear(f, s)
    ensures Clear(Xor(e, f), s)
  {
    hide LowBits, Wide;
  }

  lemma ClearUp1(e: Word)
    requires e & 1 == 0
    ensures Up(Down(e, 1), 1) == e
  {
  }

  lemma ClearUp2(e: Word)
    requires e & 3 == 0
    ensures Up(Down(e, 2), 2) == e
  {
  }

  lemma ClearUp3(e: Word)
    requires e & 7 == 0
    ensures Up(Down(e, 3), 3) == e
  {
  }

  lemma ClearUp4(e: Word)
    requires e & 15 == 0
    ensures Up(Down(e, 4), 4) == e
  {
  }

  lemma ClearUp5(e: Word)
    requires e & 31 == 0
    ensures Up(Down(e, 5), 5) == e
  {
  }

  lemma ClearUp6(e: Word)
    requires e & 63 == 0
    ensures Up(Down(e, 6), 6) == e
  {
  }

  lemma ClearUp7(e: Word)
    requires e & 127 == 0
    ensures Up(Down(e, 7), 7) == e
  {
  }

  lemma ClearUp(e: Word, s: nat, k: Word)
    requires Clear(e, s) && 1 <= s <= 7 && Amount(s, k)
    ensures k <= 7 && Up(Down(e, k), k) == e
  {
    hide Up, Down;
    match s
    case 1 => ClearUp1(e);
    case 2 => ClearUp2(e);
    case 3 => ClearUp3(e);
    case 4 => ClearUp4(e);
    case 5 => ClearUp5(e);
    case 6 => ClearUp6(e);
    case 7 => ClearUp7(e);
  }

  lemma HighClear(d: Byte, s: nat, k: Word)
    requires 1 <= s <= 7 && Amount(s, k) && d <= LowBits(s)
    ensures k <= 7 && Down(Wide(d), k) == 0
  {
  }

  lemma LowEqual(x: Byte, y: Byte, s: nat)
    requires 1 <= s <= 7 && forall j: nat | j < s :: BitOf(x, j) == BitOf(y, j)
    ensures Clear(Xor(Wide(x), Wide(y)), s)
  {
    hide Xor, Wide, BitOf, LowBits, Clear;
    LowAgree(x, y, s);
    ByteClear(x ^ y, s);
    WideXor(x, y);
  }

  lemma HighEqual(x: Byte, y: Byte, s: nat, k: Word)
    requires 1 <= s <= 7 && Amount(s, k) && forall j: nat | s <= j < 8 :: BitOf(x, j) == BitOf(y, j)
    ensures k <= 7 && Down(Xor(Wide(x), Wide(y)), k) == 0
  {
    hide Up, Down, Xor, Wide, BitOf, Amount, LowBits;
    HighAgree(x, y, s);
    HighClear(x ^ y, s, k);
    WideXor(x, y);
  }

  lemma Up8Xor(r: Word, q: Word)
    ensures Xor(Up8(r), Up8(q)) == Up8(Xor(r, q))
  {
  }

  lemma ByteUp(h: Word, k: Word)
    requires 1 <= k <= 7 && Down(h, k) == 0
    ensures Up(h, 8 - k) < 0x100 && Down(Up(h, 8 - k), 8 - k) == h
  {
  }

  lemma Up8Fits(u: Word)
    requires u < 0x100
    ensures Up8(u) < 0x10000 && Up8(Up8(u)) < 0x1000000
  {
  }

  lemma Apart(d: Word, h: Word, k: Word)
    requires 1 <= k <= 7 && Up(Down(d, k), k) == d && Down(h, k) == 0
    requires Down(d, k) == Up8(Up8(Up8(Up(h, 8 - k))))
    ensures d == 0 && h == 0
  {
  }

  /** 32 - s steps bring an s-bit word down from the top. */
  lemma StepsFromTop(h: Word, s: nat, k: Word)
    requires 1 <= s <= 7 && Amount(8 - s, 8 - k) && 1 <= k <= 7 && Down(h, k) == 0
    ensures Steps(Up8(Up8(Up8(Up(h, 8 - k)))), 32 - s) == h
  {
    hide Steps, Up, Up8, Down, Amount;
    var u := Up(h, 8 - k);
    ByteUp(h, k);
    Up8Fits(u);
    StepsDown(u);
    StepsDown(Up8(u));
    StepsDown(Up8(Up8(u)));
    StepsDownBy(h, 8 - s, 8 - k);
    StepsCompose(Up8(Up8(Up8(u))), 8, 24 - s);
    StepsCompose(Up8(Up8(u)), 8, 16 - s);
    StepsCompose(Up8(u), 8, 8 - s);
  }

  /** A difference whose s low bits are clear does not step down to s bits, unless
      there is none. */
  lemma BurstLeavesTrace(d: Word, h: Word, s: nat, k: Word)
    requires 1 <= s <= 7 && Amount(s, k) && Amount(8 - s, 8 - k) && 1 <= k <= 7
    requires Up(Down(d, k), k) == d && Down(h, k) == 0 && Steps(d, 32) == h
    ensures d == 0 && h == 0
  {
    hide Steps, Up, Up8, Down, Amount;
    var t := Down(d, k);
    StepsDownBy(t, s, k);
    StepsCompose(d, s, 32 - s);
    StepsFromTop(h, s, k);
    StepsInjective(t, Up8(Up8(Up8(Up(h, 8 - k)))), 32 - s);
    Apart(d, h, k);
  }

  lemma XorNothing(x: Word, y: Word)
    requires Xor(x, y) == 0
    ensures x == y
  {
    hide Xor;
    XorAssociates(x, y, y);
    XorZero(x);
    XorZero(y);
    XorCommutes(0, y);
  }

  lemma XorMoves(c: Word, p: Word, q: Word, x: Word, y: Word)
    requires Xor(Xor(c, p), x) == Xor(Xor(c, q), y)
    ensures Xor(p, q) == Xor(x, y)
  {
    hide Xor;
    XorAssociates(c, p, x);
    XorAssociates(c, q, y);
    XorCancels(Xor(p, x), Xor(q, y), c);
    FourWay(p, x, q, y);
    XorZero(Xor(p, x));
    XorNothing(Xor(p, q), Xor(x, y));
  }

  lemma WideApart(x: Byte, y: Byte)
    requires Wide(x) == Wide(y)
    ensures x == y
  {
  }

  lemma RegisterOfByte(x: Byte, c: Word)
    ensures Register([x], c) == Steps(Xor(c, Wide(x)), 8)
  {
    hide Steps, Xor, Wide;
    assert [x][1..] == [];
    assert Register([], Steps(Xor(c, Wide(x)), 8)) == Steps(Xor(c, Wide(x)), 8);
  }

  lemma RegisterOfFive(v: seq<Byte>, c: Word)
    requires |v| == 5
    ensures Register(v, c) == Steps(Xor(Xor(Steps(c, 32), Steps(Packed(v[..4]), 32)), Wide(v[4])), 8)
  {
    hide Steps, Xor, Wide, Register, Packed;
    assert v == v[..4] + [v[4]];
    RegisterConcat(v[..4], [v[4]], c);
    RegisterOfWord(v[..4], c);
    StepsLinear(c, Packed(v[..4]), 32);
    RegisterOfByte(v[4], Register(v[..4], c));
  }

  lemma PackedClear(v: seq<Byte>, w: seq<Byte>, s: nat)
    requires |v| == |w| == 4 && Clear(Xor(Wide(v[0]), Wide(w[0])), s)
    ensures Clear(Xor(Packed(v), Packed(w)), s)
  {
    hide Xor, Wide, Up8, Clear;
    var (r, q) := (Packed(v[1..]), Packed(w[1..]));
    FourWay(Wide(v[0]), Up8(r), Wide(w[0]), Up8(q));
    Up8Xor(r, q);
    Up8Clear(Xor(r, q), s);
    XorClear(Xor(Wide(v[0]), Wide(w[0])), Up8(Xor(r, q)), s);
  }

  lemma FiveTellApart(v: seq<Byte>, w: seq<Byte>, c: Word, s: nat)
    requires |v| == |w| == 5 && 1 <= s <= 7 && Register(v, c) == Register(w, c)
    requires forall j: nat | j < s :: BitOf(v[0], j) == BitOf(w[0], j)
    requires forall j: nat | s <= j < 8 :: BitOf(v[4], j) == BitOf(w[4], j)
    ensures v == w
  {
    hide Register, Steps, Packed, Xor, Wide, Up, Down, BitOf, Amount, LowBits, Clear;
    var k := TheAmount(s);
    LowEqual(v[0], w[0], s);
    PackedClear(v[..4], w[..4], s);
    HighEqual(v[4], w[4], s, k);
    ClearUp(Xor(Packed(v[..4]), Packed(w[..4])), s, k);
    FiveStep(v, w, c);
    var (p, q) := (Packed(v[..4]), Packed(w[..4]));
    BurstLeavesTrace(Xor(p, q), Xor(Wide(v[4]), Wide(w[4])), s, k);
    XorNothing(p, q);
    XorNothing(Wide(v[4]), Wide(w[4]));
    WideApart(v[4], w[4]);
    PackedInjective(v[..4], w[..4]);
    assert v == v[..4] + [v[4]] && w == w[..4] + [w[4]];
  }

  lemma FiveStep(v: seq<Byte>, w: seq<Byte>, c: Word)
    requires |v| == |w| == 5 && Register(v, c) == Register(w, c)
    ensures Steps(Xor(Packed(v[..4]), Packed(w[..4])), 32) == Xor(Wide(v[4]), Wide(w[4]))
  {
    hide Register, Steps, Packed, Xor, Wide;
    RegisterOfFive(v, c);
    RegisterOfFive(w, c);
    var (p, q, r) := (Packed(v[..4]), Packed(w[..4]), Steps(c, 32));
    StepsInjective(Xor(Xor(r, Steps(p, 32)), Wide(v[4])), Xor(Xor(r, Steps(q, 32)), Wide(w[4])), 8);
    XorMoves(r, Steps(p, 32), Steps(q, 32), Wide(v[4]), Wide(w[4]));
    StepsLinear(p, q, 32);
  }

  /** Any change confined to 32 consecutive bits changes the checksum. */
  lemma BurstDetected(a: seq<Byte>, b: seq<Byte>, start: nat)
    requires AgreeOutside(a, b, start, 32) && a != b
    ensures Crc(a) != Crc(b)
  {
    hide Crc, Register, BitOf, AgreeOutside;
    SameLength(a, b, start);
    var s := start % 8;
    var lo, hi := Min(start / 8, |a|), Min(start / 8 + if s == 0 then 4 else 5, |a|);
    forall i | 0 <= i < |a| && !(lo <= i < hi) ensures a[i] == b[i] { BytesOutside(a, b, start, i); }
    assert a[..lo] == b[..lo] && a[hi..] == b[hi..];
    if hi - lo <= 4 {
      BytesDetected(a, b, lo, hi);
    } else if Crc(a) == Crc(b) {
      var c := SameRegister(a, b, lo, hi);
      forall j: nat | j < s ensures BitOf(a[lo..hi][0], j) == BitOf(b[lo..hi][0], j) { BitOutside(a, b, start, lo, j); }
      forall j: nat | s <= j < 8 ensures BitOf(a[lo..hi][4], j) == BitOf(b[lo..hi][4], j) { BitOutside(a, b, start, lo + 4, j); }
      FiveTellApart(a[lo..hi], b[lo..hi], c, s);
      Around(a, b, lo, hi);
    }
  }

  const ZEROS: seq<Byte> := [0, 0, 0, 0, 0]
  const GENERATOR: seq<Byte> := [0x41, 0x06, 0x71, 0xdb, 0x01]

  /** One bit more is too many: the 33 bits of the generator itself go unseen. */
  lemma LongerBurstUnseen()
    ensures ZEROS != GENERATOR && AgreeOutside(ZEROS, GENERATOR, 0, 33) && Crc(ZEROS) == Crc(GENERATOR)
  {
  }
}
