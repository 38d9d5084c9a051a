/** The 32-bit frame check sequence of ISO 3309, by polynomial division over bits,
    and the proof that the checksum of the store writer is this sequence (APPNOTE.TXT
    section 4.4.7). */
module FrameCheck {
  import opened Bytes8
  import opened Crc32

  /** Coefficients, the highest power first. */
  type Bits = seq<bool>

  function Zeros(n: nat): Bits {
    seq(n, _ => false)
  }

  /** x^32 + x^26 + x^23 + x^22 + x^16 + x^12 + x^11 + x^10 + x^8 + x^7 + x^5 + x^4 + x^2 + x + 1 */
  function Generator(): (g: Bits)
    ensures |g| == 33
  {
    seq(33, i requires 0 <= i < 33 => 32 - i in [32, 26, 23, 22, 16, 12, 11, 10, 8, 7, 5, 4, 2, 1, 0])
  }

  function XorPrefix(bits: Bits, first: Bits): (r: Bits)
    requires |first| <= |bits|
    ensures |r| == |bits|
  {
    seq(|bits|, i requires 0 <= i < |bits| => if i < |first| then bits[i] != first[i] else bits[i])
  }

  /** The remainder on division by the generator. */
  function Remainder(bits: Bits): (r: Bits)
    ensures |bits| >= 32 ==> |r| == 32
    decreases |bits|
  {
    if |bits| <= 32 then bits
    else if bits[0] then Remainder(XorPrefix(bits, Generator())[1..])
    else Remainder(bits[1..])
  }

  /** Bits are transmitted from the lowest of each byte on. */
  function ByteBits(b: Byte): (r: Bits)
    ensures |r| == 8
  {
    [b & 1 != 0, b & 2 != 0, b & 4 != 0, b & 8 != 0, b & 16 != 0, b & 32 != 0, b & 64 != 0, b & 128 != 0]
  }

  function MessageBits(data: seq<Byte>): Bits {
    if data == [] then [] else ByteBits(data[0]) + MessageBits(data[1..])
  }

  /** The number that these bits are, the lowest first. */
  function BitsNumber(bits: Bits): nat {
    if bits == [] then 0 else (if bits[0] then 1 else 0) + 2 * BitsNumber(bits[1..])
  }

  /** The complement of the remainder of the message, its first 32 bits complemented and
      32 zeros behind it; transmitted, too, with the highest power first. */
  function Sequence(data: seq<Byte>): Bits {
    var dividend := MessageBits(data) + Zeros(32);
    var r := Remainder(XorPrefix(dividend, seq(32, _ => true)));
    seq(32, i requires 0 <= i < 32 => !r[i])
  }

  function Number(data: seq<Byte>): nat {
    BitsNumber(Sequence(data))
  }

  // ------------------------------------------------------------------
  // Words as bits
  // ------------------------------------------------------------------

  /** The word whose only bit is bit i. */
  function Mask(i: nat): Word
    requires i < 32
  {
    match i
    case 0 => 0x1
    case 1 => 0x2
    case 2 => 0x4
    case 3 => 0x8
    case 4 => 0x10
    case 5 => 0x20
    case 6 => 0x40
    case 7 => 0x80
    case 8 => 0x100
    case 9 => 0x200
    case 10 => 0x400
    case 11 => 0x800
    case 12 => 0x1000
    case 13 => 0x2000
    case 14 => 0x4000
    case 15 => 0x8000
    case 16 => 0x10000
    case 17 => 0x20000
    case 18 => 0x40000
    case 19 => 0x80000
    case 20 => 0x100000
    case 21 => 0x200000
    case 22 => 0x400000
    case 23 => 0x800000
    case 24 => 0x1000000
    case 25 => 0x2000000
    case 26 => 0x4000000
    case 27 => 0x8000000
    case 28 => 0x10000000
    case 29 => 0x20000000
    case 30 => 0x40000000
    case _ => 0x80000000
  }

  predicate Has(c: Word, mask: Word) {
    c & mask != 0
  }

  predicate BitAt(c: Word, i: nat)
    requires i < 32
  {
    Has(c, Mask(i))
  }

  /** The bits of a word, the lowest first. */
  function WordBits(c: Word): (r: Bits)
    ensures |r| == 32
  {
    seq(32, i requires 0 <= i < 32 => BitAt(c, i))
  }

  function Shr(c: Word): Word {
    c >> 1
  }

  function And(a: Word, b: Word): Word {
    a & b
  }

  lemma AndMaskLow(c: Word, i: nat)
    requires i < 16
    ensures And(c, Mask(i)) == 0 || And(c, Mask(i)) == Mask(i)
  {
  }

  lemma AndMaskHigh(c: Word, i: nat)
    requires 16 <= i < 32
    ensures And(c, Mask(i)) == 0 || And(c, Mask(i)) == Mask(i)
  {
  }

  lemma AndXor(a: Word, b: Word, mask: Word)
    ensures And(Xor(a, b), mask) == Xor(And(a, mask), And(b, mask))
  {
  }

  lemma HasIs(c: Word, mask: Word)
    ensures Has(c, mask) == (And(c, mask) != 0)
  {
  }

  lemma XorNonzero(a: Word, b: Word)
    ensures Xor(a, b) == 0 <==> a == b
  {
    hide Xor;
    if Xor(a, b) == 0 { XorNothing(a, b); }
    XorZero(a);
  }

  lemma BitXor(a: Word, b: Word, i: nat)
    requires i < 32
    ensures BitAt(Xor(a, b), i) == (BitAt(a, i) != BitAt(b, i))
  {
    hide Xor, Has, Mask, And;
    if i < 16 {
      AndMaskLow(a, i);
      AndMaskLow(b, i);
    } else {
      AndMaskHigh(a, i);
      AndMaskHigh(b, i);
    }
    AndXor(a, b, Mask(i));
    HasIs(a, Mask(i));
    HasIs(b, Mask(i));
    HasIs(Xor(a, b), Mask(i));
    XorNonzero(And(a, Mask(i)), And(b, Mask(i)));
  }

  lemma BitsXor(a: Word, b: Word)
    ensures WordBits(Xor(a, b)) == XorPrefix(WordBits(a), WordBits(b))
  {
    hide Xor, BitAt;
    forall i | 0 <= i < 32 ensures BitAt(Xor(a, b), i) == (BitAt(a, i) != BitAt(b, i)) { BitXor(a, b, i); }
  }

  lemma MaskDoublesLow(i: nat)
    requires i < 16
    ensures Mask(i) < 0x80000000 && Mask(i + 1) == Twice(Mask(i))
  {
  }

  lemma MaskDoublesHigh(i: nat)
    requires 16 <= i < 31
    ensures Mask(i) < 0x80000000 && Mask(i + 1) == Twice(Mask(i))
  {
  }

  function Twice(c: Word): Word {
    c << 1
  }

  lemma HasShr(c: Word, mask: Word)
    requires mask < 0x80000000
    ensures Has(Shr(c), mask) == Has(c, Twice(mask))
  {
  }

  lemma TopGone(c: Word)
    ensures !Has(Shr(c), 0x80000000)
  {
  }

  lemma TopMask()
    ensures Mask(31) == 0x80000000
  {
  }

  /** A word shifted down has its bits one place lower, and a zero at the top. */
  lemma ShiftedBit(c: Word, i: nat)
    requires i < 32
    ensures BitAt(Shr(c), i) == (i < 31 && BitAt(c, i + 1))
  {
    hide Has, Shr, Twice, Mask;
    if i < 31 {
      if i < 16 { MaskDoublesLow(i); } else { MaskDoublesHigh(i); }
      HasShr(c, Mask(i));
    } else {
      TopGone(c);
      TopMask();
    }
  }

  // ------------------------------------------------------------------
  // The register is the front of the dividend
  // ------------------------------------------------------------------

  lemma GeneratorIs()
    ensures Generator()[0] && forall i | 0 <= i < 32 :: Generator()[i + 1] == BitAt(POLYNOMIAL, i)
  {
    forall i | 0 <= i < 32 ensures Generator()[i + 1] == BitAt(POLYNOMIAL, i) { GeneratorBit(i); }
  }

  lemma GeneratorBit(i: nat)
    requires i < 32
    ensures Generator()[i + 1] == BitAt(POLYNOMIAL, i)
  {
  }

  lemma OnesBit(i: nat)
    requires i < 32
    ensures BitAt(ONES, i)
  {
  }

  lemma AllOnes()
    ensures WordBits(ONES) == seq(32, _ => true)
  {
    hide BitAt;
    forall i | 0 <= i < 32 ensures BitAt(ONES, i) { OnesBit(i); }
  }

  lemma StepSplits(c: Word)
    ensures Step(c) == if BitAt(c, 0) then Xor(Shr(c), POLYNOMIAL) else Shr(c)
  {
    LowestBit(c);
    StepCases(c);
    hide Step, BitAt;
  }

  lemma LowestBit(c: Word)
    ensures BitAt(c, 0) <==> c & 1 != 0
  {
  }

  lemma SplitFirst(rest: Bits, c: Word)
    requires |rest| >= 32
    ensures var d := XorPrefix([false] + rest, WordBits(c));
            |d| == 1 + |rest| && d[0] == BitAt(c, 0) && d[1..] == XorPrefix(rest, WordBits(Shr(c)))
  {
    hide BitAt, Shr;
    forall i | 0 <= i < 32 ensures BitAt(Shr(c), i) == (i < 31 && BitAt(c, i + 1)) { ShiftedBit(c, i); }
  }

  lemma XorTwice(bits: Bits, a: Bits, b: Bits)
    requires |a| == |b| <= |bits|
    ensures XorPrefix(XorPrefix(bits, a), b) == XorPrefix(bits, XorPrefix(a, b))
  {
  }

  lemma XorGenerator(d: Bits)
    requires |d| >= 33
    ensures XorPrefix(d, Generator())[1..] == XorPrefix(d[1..], WordBits(POLYNOMIAL))
  {
    GeneratorIs();
    hide Generator, BitAt;
  }

  /** One step of the division is one step of the register. */
  lemma DivisionStep(c: Word, rest: Bits)
    requires |rest| >= 32
    ensures Remainder(XorPrefix([false] + rest, WordBits(c))) == Remainder(XorPrefix(rest, WordBits(Step(c))))
  {
    var d := XorPrefix([false] + rest, WordBits(c));
    SplitFirst(rest, c);
    StepSplits(c);
    hide Step, BitAt, Shr, Xor, Generator, WordBits, XorPrefix;
    if BitAt(c, 0) {
      XorGenerator(d);
      XorTwice(rest, WordBits(Shr(c)), WordBits(POLYNOMIAL));
      BitsXor(Shr(c), POLYNOMIAL);
    }
  }

  lemma {:induction false} ZerosThrough(c: Word, n: nat, rest: Bits)
    requires |rest| >= 32
    ensures Remainder(XorPrefix(Zeros(n) + rest, WordBits(c))) == Remainder(XorPrefix(rest, WordBits(Steps(c, n))))
    decreases n
  {
    hide Remainder, Step, WordBits, XorPrefix;
    if n == 0 {
      assert Zeros(0) + rest == rest;
    } else {
      assert Zeros(n) + rest == [false] + (Zeros(n - 1) + rest);
      DivisionStep(c, Zeros(n - 1) + rest);
      ZerosThrough(Step(c), n - 1, rest);
    }
  }

  lemma LowBit8(b: Byte, i: nat)
    requires i < 8
    ensures BitAt(Wide(b), i) == ByteBits(b)[i]
  {
  }

  lemma HighMask(i: nat)
    requires 8 <= i < 32
    ensures Mask(i) & 0xff == 0
  {
  }

  lemma NothingHigh(b: Byte, mask: Word)
    requires mask & 0xff == 0
    ensures !Has(Wide(b), mask)
  {
  }

  lemma WideBits(b: Byte)
    ensures WordBits(Wide(b)) == ByteBits(b) + Zeros(24)
  {
    forall i | 0 <= i < 32 ensures BitAt(Wide(b), i) == (i < 8 && ByteBits(b)[i]) {
      if i < 8 {
        LowBit8(b, i);
      } else {
        HighMask(i);
        NothingHigh(b, Mask(i));
      }
    }
    hide BitAt, Wide, ByteBits;
  }

  /** A byte is taken in at the front, and eight steps bring it through. */
  lemma ByteThrough(c: Word, b: Byte, rest: Bits)
    requires |rest| >= 32
    ensures Remainder(XorPrefix(ByteBits(b) + rest, WordBits(c)))
         == Remainder(XorPrefix(rest, WordBits(Steps(Xor(c, Wide(b)), 8))))
  {
    hide Remainder, WordBits, ByteBits, Wide, Xor, Steps;
    ZerosThrough(Xor(c, Wide(b)), 8, rest);
    BitsXor(c, Wide(b));
    WideBits(b);
    TakeIn(ByteBits(b), rest, WordBits(c));
  }

  lemma TakeIn(head: Bits, rest: Bits, c: Bits)
    requires |head| == 8 && |rest| >= 32 == |c|
    ensures XorPrefix(head + rest, c) == XorPrefix(Zeros(8) + rest, XorPrefix(c, head + Zeros(24)))
  {
  }

  lemma {:induction false} RegisterDivides(data: seq<Byte>, c: Word)
    ensures Remainder(XorPrefix(MessageBits(data) + Zeros(32), WordBits(c))) == WordBits(Register(data, c))
    decreases |data|
  {
    hide WordBits, ByteBits, Wide, Xor, Steps;
    if data == [] {
      assert MessageBits(data) + Zeros(32) == Zeros(32);
      assert XorPrefix(Zeros(32), WordBits(c)) == WordBits(c);
    } else {
      hide Remainder, XorPrefix;
      var rest := MessageBits(data[1..]) + Zeros(32);
      assert MessageBits(data) + Zeros(32) == ByteBits(data[0]) + rest;
      ByteThrough(c, data[0], rest);
      RegisterDivides(data[1..], Steps(Xor(c, Wide(data[0])), 8));
    }
  }

  /** The writer's checksum is the frame check sequence. */
  lemma ChecksumIsFrameCheck(data: seq<Byte>)
    ensures WordBits(Crc(data)) == Sequence(data)
  {
    hide WordBits, Register, Remainder, Xor, MessageBits;
    RegisterDivides(data, ONES);
    AllOnes();
    BitsXor(Register(data, ONES), ONES);
  }

  // ------------------------------------------------------------------
  // Numbers
  // ------------------------------------------------------------------

  function WordNumber(c: Word): nat {
    BitsNumber(WordBits(c))
  }

  function Power(n: nat): (p: nat) {
    if n == 0 then 1 else 2 * Power(n - 1)
  }

  lemma {:induction false} BitsNumberFits(bits: Bits)
    ensures BitsNumber(bits) < Power(|bits|)
    decreases |bits|
  {
    if bits != [] { BitsNumberFits(bits[1..]); }
  }

  lemma Power32()
    ensures Power(32) == 0x1_0000_0000
  {
    assert Power(2) == 0x4;
    assert Power(4) == 0x10;
    assert Power(6) == 0x40;
    assert Power(8) == 0x100;
    assert Power(10) == 0x400;
    assert Power(12) == 0x1000;
    assert Power(14) == 0x4000;
    assert Power(16) == 0x10000;
    assert Power(18) == 0x40000;
    assert Power(20) == 0x100000;
    assert Power(22) == 0x400000;
    assert Power(24) == 0x1000000;
    assert Power(26) == 0x4000000;
    assert Power(28) == 0x10000000;
    assert Power(30) == 0x40000000;
  }

  lemma WordNumberFits(c: Word)
    ensures WordNumber(c) < 0x1_0000_0000
  {
    hide WordBits;
    BitsNumberFits(WordBits(c));
    Power32();
  }

  lemma {:induction false} BitsNumberInjective(a: Bits, b: Bits)
    requires |a| == |b| && BitsNumber(a) == BitsNumber(b)
    ensures a == b
    decreases |a|
  {
    if a != [] {
      BitsNumberInjective(a[1..], b[1..]);
      assert a == [a[0]] + a[1..] && b == [b[0]] + b[1..];
    }
  }

  lemma NoBits(c: Word)
    requires forall i | 0 <= i < 32 :: !BitAt(c, i)
    ensures c == 0
  {
    hide BitAt;
    LowHalf(c);
    HighHalf(c);
    HalvesGone(c);
  }

  lemma LowHalf(c: Word)
    requires forall i | 0 <= i < 32 :: !BitAt(c, i)
    ensures c & 0xffff == 0
  {
    assert !BitAt(c, 0) && !BitAt(c, 1) && !BitAt(c, 2) && !BitAt(c, 3) && !BitAt(c, 4) && !BitAt(c, 5) && !BitAt(c, 6) && !BitAt(c, 7);
    assert !BitAt(c, 8) && !BitAt(c, 9) && !BitAt(c, 10) && !BitAt(c, 11);
    assert !BitAt(c, 12) && !BitAt(c, 13) && !BitAt(c, 14) && !BitAt(c, 15);
  }

  lemma HighHalf(c: Word)
    requires forall i | 0 <= i < 32 :: !BitAt(c, i)
    ensures c & 0xffff0000 == 0
  {
    assert !BitAt(c, 16) && !BitAt(c, 17) && !BitAt(c, 18) && !BitAt(c, 19) && !BitAt(c, 20) && !BitAt(c, 21);
    assert !BitAt(c, 22) && !BitAt(c, 23) && !BitAt(c, 24) && !BitAt(c, 25) && !BitAt(c, 26) && !BitAt(c, 27);
    assert !BitAt(c, 28) && !BitAt(c, 29) && !BitAt(c, 30) && !BitAt(c, 31);
  }

  lemma HalvesGone(c: Word)
    requires c & 0xffff == 0 && c & 0xffff0000 == 0
    ensures c == 0
  {
  }

  lemma WordNumberInjective(a: Word, b: Word)
    requires WordNumber(a) == WordNumber(b)
    ensures a == b
  {
    hide BitAt, Xor;
    BitsNumberInjective(WordBits(a), WordBits(b));
    forall i | 0 <= i < 32 ensures !BitAt(Xor(a, b), i) {
      BitXor(a, b, i);
      assert WordBits(a)[i] == WordBits(b)[i];
    }
    NoBits(Xor(a, b));
    XorNonzero(a, b);
  }

  /** And so the same number. */
  lemma NumberIsChecksum(data: seq<Byte>)
    ensures WordNumber(Crc(data)) == Number(data)
  {
    hide WordBits, Sequence, Crc;
    ChecksumIsFrameCheck(data);
  }
}
