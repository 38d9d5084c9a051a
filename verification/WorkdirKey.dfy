/** The hash of a working directory: FNV-1a on 64 bits, in sixteen hexadecimal
    digits. The hash is a natural number below 2^64; the exclusive or with a
    byte touches its low byte only. */
module Fnv1a {
  import opened Bytes8

  const MODULUS: nat := 0x1_0000_0000_0000_0000
  const OFFSET_BASIS: nat := 0xcbf29ce484222325

  type Word = x: nat | x < MODULUS

  function XorByte(b: Byte, c: Byte): Byte {
    b ^ c
  }

  lemma Within(hash: Word, low: nat)
    requires low < 256
    ensures 0 <= hash - hash % 256 + low < MODULUS
  {
  }

  /** hash ^= c */
  function Xor(hash: Word, c: Byte): Word {
    var low := XorByte(Narrow(hash % 256), c);
    ValueBound(low);
    Within(hash, Value(low));
    hash - hash % 256 + Value(low)
  }

  /** hash *= prime, modulo 2^64 */
  function Times(hash: Word): Word {
    (hash * 0x100000001b3) % MODULUS
  }

  function Mix(hash: Word, c: Byte): Word {
    Times(Xor(hash, c))
  }

  function Hash(data: seq<Byte>, hash: Word): Word
    decreases |data|
  {
    if data == [] then hash else Hash(data[1..], Mix(hash, data[0]))
  }

  method Fnv1a64(data: seq<Byte>) returns (hash: Word)
    ensures hash == Hash(data, 0xcbf29ce484222325)
  {
    hide Xor, Times;
    hash := OFFSET_BASIS;
    assert data[0..] == data;
    for i := 0 to |data|
      invariant Hash(data[i..], hash) == Hash(data, OFFSET_BASIS)
    {
      assert data[i..][1..] == data[i + 1..];
      hash := Xor(hash, data[i]);
      hash := Times(hash);
    }
  }

  /** The 64-bit FNV-1a hashes of the empty text, of "a" and of "ab". */
  lemma KnownHashes()
    ensures Hash([], OFFSET_BASIS) == 0xcbf29ce484222325
    ensures Hash([0x61], OFFSET_BASIS) == 0xaf63dc4c8601ec8c
    ensures Hash([0x61, 0x62], OFFSET_BASIS) == 0x089c4407b545986a
  {
    var a: seq<Byte> := [0x61];
    var ab: seq<Byte> := [0x61, 0x62];
    assert a[1..] == [] && ab[1..] == [0x62] && ab[1..][1..] == [];
    MixA();
    MixB();
    hide Mix;
  }

  lemma LowBytes()
    ensures Narrow(0x25) == 0x25 && Narrow(0x8c) == 0x8c
  {
    assert Half(2) == 2 && Half(5) == 5 && Half(8) == 8 && Half(12) == 12;
    hide Half;
  }

  lemma Crossed()
    ensures XorByte(0x25, 0x61) == 0x44 && XorByte(0x8c, 0x62) == 0xee
  {
  }

  lemma Values()
    ensures Value(0x44) == 0x44 && Value(0xee) == 0xee
  {
    assert (0x44 as Byte) >> 4 == 4 && (0x44 as Byte) & 15 == 4 && (0xee as Byte) >> 4 == 14 && (0xee as Byte) & 15 == 14;
    assert HalfValue(4) == 4 && HalfValue(14) == 14;
    hide HalfValue;
  }

  lemma Remainder(x: nat, q: nat, r: nat)
    requires x == q * MODULUS + r && r < MODULUS
    ensures x % MODULUS == r
  {
  }

  lemma MixA()
    ensures Mix(0xcbf29ce484222325, 0x61) == 0xaf63dc4c8601ec8c
  {
    hide Value, Narrow, XorByte;
    LowBytes();
    Crossed();
    Values();
    assert 0xcbf29ce484222325 % 256 == 0x25;
    assert Xor(0xcbf29ce484222325, 0x61) == 0xcbf29ce484222344;
    Remainder(0xcbf29ce484222344 * 0x100000001b3, 0xcbf29ce5de, 0xaf63dc4c8601ec8c);
  }

  lemma MixB()
    ensures Mix(0xaf63dc4c8601ec8c, 0x62) == 0x089c4407b545986a
  {
    hide Value, Narrow, XorByte;
    LowBytes();
    Crossed();
    Values();
    assert 0xaf63dc4c8601ec8c % 256 == 0x8c;
    assert Xor(0xaf63dc4c8601ec8c, 0x62) == 0xaf63dc4c8601ecee;
    Remainder(0xaf63dc4c8601ecee * 0x100000001b3, 0xaf63dc4db0, 0x89c4407b545986a);
  }

  // ------------------------------------------------------------------
  // Every step is injective
  // ------------------------------------------------------------------

  lemma XorBytes(m: Byte, n: Byte, c: Byte, d: Byte)
    ensures XorByte(m, c) == XorByte(n, c) ==> m == n
    ensures XorByte(m, c) == XorByte(m, d) ==> c == d
  {
  }

  /** Equal words have equal high parts and equal low bytes. */
  lemma SplitLow(x: nat, y: nat, a: nat, b: nat)
    requires a < 256 && b < 256 && x - x % 256 + a == y - y % 256 + b
    ensures x / 256 == y / 256 && a == b
  {
  }

  lemma XorInjective(g: Word, h: Word, c: Byte, d: Byte)
    ensures Xor(g, c) == Xor(h, c) ==> g == h
    ensures Xor(h, c) == Xor(h, d) ==> c == d
  {
    hide Value, Narrow, XorByte;
    var (m, n) := (Narrow(g % 256), Narrow(h % 256));
    XorBytes(m, n, c, d);
    XorBytes(n, n, c, d);
    if Xor(g, c) == Xor(h, c) {
      ValueBound(XorByte(m, c));
      ValueBound(XorByte(n, c));
      SplitLow(g, h, Value(XorByte(m, c)), Value(XorByte(n, c)));
      SameValue(XorByte(m, c), XorByte(n, c));
      NarrowKeeps(g % 256);
      NarrowKeeps(h % 256);
    }
    if Xor(h, c) == Xor(h, d) {
      SameValue(XorByte(n, c), XorByte(n, d));
    }
  }

  lemma SameRemainder(a: nat, b: nat)
    requires a % MODULUS == b % MODULUS
    ensures a - b == (a / MODULUS - b / MODULUS) * MODULUS
  {
  }

  lemma SmallMultiple(d: int, k: int)
    requires d == k * MODULUS && d < MODULUS && 0 - d < MODULUS
    ensures d == 0
  {
  }

  /** The prime times its inverse is 1 modulo 2^64. */
  lemma Inverse(d: int, m: int)
    requires d * 0x100000001b3 == m * MODULUS
    ensures d == (m * 0xce965057aff6957b - d * 0xce9650590f) * MODULUS
  {
  }

  lemma TimesInjective(x: Word, y: Word)
    requires Times(x) == Times(y)
    ensures x == y
  {
    var (a, b) := (x * 0x100000001b3, y * 0x100000001b3);
    SameRemainder(a, b);
    var m := a / MODULUS - b / MODULUS;
    Inverse(x - y, m);
    SmallMultiple(x - y, m * 0xce965057aff6957b - (x - y) * 0xce9650590f);
  }

  /** A mixing step forgets neither the hash nor the byte. */
  lemma MixInjective(g: Word, h: Word, c: Byte, d: Byte)
    ensures Mix(g, c) == Mix(h, c) ==> g == h
    ensures Mix(h, c) == Mix(h, d) ==> c == d
  {
    hide Times, Xor;
    if Mix(g, c) == Mix(h, c) { TimesInjective(Xor(g, c), Xor(h, c)); }
    if Mix(h, c) == Mix(h, d) { TimesInjective(Xor(h, c), Xor(h, d)); }
    XorInjective(g, h, c, d);
  }

  lemma {:induction false} HashInjective(data: seq<Byte>, g: Word, h: Word)
    ensures Hash(data, g) == Hash(data, h) ==> g == h
    decreases |data|
  {
    hide Mix;
    if data != [] {
      MixInjective(g, h, data[0], data[0]);
      HashInjective(data[1..], Mix(g, data[0]), Mix(h, data[0]));
    }
  }

  lemma {:induction false} HashConcat(a: seq<Byte>, b: seq<Byte>, h: Word)
    ensures Hash(a + b, h) == Hash(b, Hash(a, h))
    decreases |a|
  {
    hide Mix;
    if a == [] {
      assert a + b == b;
    } else {
      assert (a + b)[1..] == a[1..] + b;
      HashConcat(a[1..], b, Mix(h, a[0]));
    }
  }

  lemma HashStep(c: Byte, rest: seq<Byte>, h: Word)
    ensures Hash([c] + rest, h) == Hash(rest, Mix(h, c))
  {
    hide Mix;
    assert ([c] + rest)[1..] == rest;
  }

  /** Texts of one length that differ in one byte have different hashes. */
  lemma OneByteApart(a: seq<Byte>, i: nat, x: Byte)
    requires i < |a| && a[i] != x
    ensures Hash(a[i := x], OFFSET_BASIS) != Hash(a, OFFSET_BASIS)
  {
    hide Mix, Hash;
    var b := a[i := x];
    var (pre, post) := (a[..i], a[i + 1..]);
    assert a == pre + ([a[i]] + post) && b == pre + ([x] + post);
    var h := Hash(pre, OFFSET_BASIS);
    HashConcat(pre, [a[i]] + post, OFFSET_BASIS);
    HashConcat(pre, [x] + post, OFFSET_BASIS);
    HashStep(a[i], post, h);
    HashStep(x, post, h);
    HashInjective(post, Mix(h, a[i]), Mix(h, x));
    MixInjective(h, h, a[i], x);
  }

  // ------------------------------------------------------------------
  // Hexadecimal digits
  // ------------------------------------------------------------------

  function HexDigit(n: nat): Byte
    requires n < 16
  {
    Narrow(if n < 10 then 0x30 + n else 0x57 + n)
  }

  /** The last n hexadecimal digits of h. */
  function Hex(h: nat, n: nat): (r: seq<Byte>)
    ensures |r| == n
    decreases n
  {
    if n == 0 then [] else Hex(h / 16, n - 1) + [HexDigit(h % 16)]
  }

  function Power16(n: nat): nat {
    if n == 0 then 1 else 16 * Power16(n - 1)
  }

  lemma HexDigitInjective(m: nat, n: nat)
    requires m < 16 && n < 16 && HexDigit(m) == HexDigit(n)
    ensures m == n
  {
    hide Narrow, Value;
    NarrowKeeps(if m < 10 then 0x30 + m else 0x57 + m);
    NarrowKeeps(if n < 10 then 0x30 + n else 0x57 + n);
  }

  lemma {:induction false} HexInjective(g: nat, h: nat, n: nat)
    requires g < Power16(n) && h < Power16(n) && Hex(g, n) == Hex(h, n)
    ensures g == h
    decreases n
  {
    hide HexDigit;
    if n > 0 {
      var (x, y) := (Hex(g, n), Hex(h, n));
      assert x[..n - 1] == Hex(g / 16, n - 1) && y[..n - 1] == Hex(h / 16, n - 1);
      assert x[n - 1] == HexDigit(g % 16) && y[n - 1] == HexDigit(h % 16);
      HexInjective(g / 16, h / 16, n - 1);
      HexDigitInjective(g % 16, h % 16);
    }
  }

  /** The number that hexadecimal digits stand for. */
  function NumberOf(digits: string): nat
    requires forall c | c in digits :: c in "0123456789abcdef"
  {
    if digits == "" then 0
    else 16 * NumberOf(digits[..|digits| - 1]) + DigitOf(digits[|digits| - 1])
  }

  function DigitOf(c: char): nat
    requires c in "0123456789abcdef"
  {
    if c <= '9' then c as nat - '0' as nat else c as nat - 'a' as nat + 10
  }

  function Chars(s: seq<Byte>): (r: string)
    ensures |r| == |s|
  {
    seq(|s|, i requires 0 <= i < |s| => CharOf(s[i]))
  }

  function CharOf(b: Byte): char {
    ValueBound(b);
    Value(b) as char
  }

  lemma HexDigitReads(n: nat)
    requires n < 16
    ensures CharOf(HexDigit(n)) in "0123456789abcdef" && DigitOf(CharOf(HexDigit(n))) == n
  {
    hide Value, Narrow;
    NarrowKeeps(if n < 10 then 0x30 + n else 0x57 + n);
    var all := "0123456789abcdef";
    assert all[n] as int == if n < 10 then 0x30 + n else 0x57 + n;
  }

  /** The digits are hexadecimal, and read as the number modulo 16^n. */
  lemma {:induction false} HexReads(h: nat, n: nat)
    requires h < Power16(n)
    ensures (forall c | c in Chars(Hex(h, n)) :: c in "0123456789abcdef") && NumberOf(Chars(Hex(h, n))) == h
    decreases n
  {
    hide HexDigit, CharOf, DigitOf;
    if n > 0 {
      HexReads(h / 16, n - 1);
      HexDigitReads(h % 16);
      var (front, all) := (Chars(Hex(h / 16, n - 1)), Chars(Hex(h, n)));
      assert all == front + [CharOf(HexDigit(h % 16))];
      assert all[..|all| - 1] == front;
    }
  }

  lemma SixteenDigits()
    ensures Power16(16) == MODULUS
  {
    assert Power16(4) == 0x1_0000;
    assert Power16(8) == 0x1_0000_0000;
    assert Power16(12) == 0x1_0000_0000_0000;
  }

  function Fnv1a64Hex(data: seq<Byte>): (r: seq<Byte>)
    ensures |r| == 16
  {
    Hex(Hash(data, OFFSET_BASIS), 16)
  }

  lemma HexTellsHash(a: seq<Byte>, b: seq<Byte>)
    requires Fnv1a64Hex(a) == Fnv1a64Hex(b)
    ensures Hash(a, OFFSET_BASIS) == Hash(b, OFFSET_BASIS)
  {
    hide Hash, Hex, Power16;
    SixteenDigits();
    HexInjective(Hash(a, OFFSET_BASIS), Hash(b, OFFSET_BASIS), 16);
  }
}

/** The directory name of a session: the readable part and the hash. */
module WorkdirKey {
  import opened Bytes8
  import opened Fnv1a

  const UNDERSCORE: Byte := 0x5f
  const HYPHEN: Byte := 0x2d

  /** Path separators, the characters file systems reserve, NUL and blanks. */
  predicate IsIllegalPathChar(c: Byte) {
    c in [0x2f, 0x5c, 0x3a, 0x2a, 0x3f, 0x22, 0x3c, 0x3e, 0x7c, 0x00, 0x20, 0x09]
  }

  /** The illegal ones as characters. */
  lemma IllegalAre(c: Byte)
    ensures IsIllegalPathChar(c) <==> CharOf(c) == '\0' || CharOf(c) in "/\\:*?\"<>| \t"
  {
    IllegalBytes(c);
    IllegalCodes(CharOf(c));
    ValueBound(c);
    hide Value, IsIllegalPathChar;
    assert CharOf(c) as int == Value(c);
    assert CharOf(c) == '\0' <==> CharOf(c) as int == 0;
  }

  lemma IllegalBytes(c: Byte)
    ensures IsIllegalPathChar(c)
        <==> Value(c) in [0x2f, 0x5c, 0x3a, 0x2a, 0x3f, 0x22, 0x3c, 0x3e, 0x7c, 0x20, 0x09] || Value(c) == 0
  {
    var bytes: seq<Byte> := [0x2f, 0x5c, 0x3a, 0x2a, 0x3f, 0x22, 0x3c, 0x3e, 0x7c, 0x00, 0x20, 0x09];
    var codes: seq<nat> := [0x2f, 0x5c, 0x3a, 0x2a, 0x3f, 0x22, 0x3c, 0x3e, 0x7c, 0x00, 0x20, 0x09];
    IllegalValues();
    hide Value, Narrow;
    assert forall i | 0 <= i < 12 :: Value(bytes[i]) == codes[i];
    if c in bytes {
      var i :| 0 <= i < 12 && bytes[i] == c;
    }
    if Value(c) in codes {
      var i :| 0 <= i < 12 && codes[i] == Value(c);
      SameValue(c, bytes[i]);
    }
  }

  lemma IllegalCodes(c: char)
    ensures c in "/\\:*?\"<>| \t"
        <==> c as int in [0x2f, 0x5c, 0x3a, 0x2a, 0x3f, 0x22, 0x3c, 0x3e, 0x7c, 0x20, 0x09]
  {
    var (s, codes) := ("/\\:*?\"<>| \t", [0x2f, 0x5c, 0x3a, 0x2a, 0x3f, 0x22, 0x3c, 0x3e, 0x7c, 0x20, 0x09]);
    assert forall i | 0 <= i < 11 :: s[i] as int == codes[i];
    if c as int in codes {
      var i :| 0 <= i < 11 && codes[i] == c as int;
      assert s[i] == c;
    }
  }

  lemma IllegalValues()
    ensures Value(0x2f) == 0x2f && Value(0x5c) == 0x5c && Value(0x3a) == 0x3a && Value(0x2a) == 0x2a
    ensures Value(0x3f) == 0x3f && Value(0x22) == 0x22 && Value(0x3c) == 0x3c && Value(0x3e) == 0x3e
    ensures Value(0x7c) == 0x7c && Value(0x00) == 0x00 && Value(0x20) == 0x20 && Value(0x09) == 0x09
  {
  }

  /** One more byte of the path. */
  function Extend(out: seq<Byte>, c: Byte): seq<Byte> {
    if !IsIllegalPathChar(c) then out + [c]
    else if out != [] && out[|out| - 1] != UNDERSCORE then out + [UNDERSCORE]
    else out
  }

  function Collapse(path: seq<Byte>): seq<Byte>
    decreases |path|
  {
    if path == [] then [] else Extend(Collapse(path[..|path| - 1]), path[|path| - 1])
  }

  function TrimBack(s: seq<Byte>): (r: seq<Byte>)
    ensures r <= s && (r != [] ==> r[|r| - 1] != UNDERSCORE)
    decreases |s|
  {
    if s != [] && s[|s| - 1] == UNDERSCORE then TrimBack(s[..|s| - 1]) else s
  }

  function TrimFront(s: seq<Byte>): (r: seq<Byte>)
    ensures r != [] ==> r[0] != UNDERSCORE
    ensures |r| <= |s| && r == s[|s| - |r|..]
    decreases |s|
  {
    if s != [] && s[0] == UNDERSCORE then TrimFront(s[1..]) else s
  }

  function Sanitized(path: seq<Byte>): seq<Byte> {
    TrimFront(TrimBack(Collapse(path)))
  }

  method Sanitize(path: seq<Byte>) returns (out: seq<Byte>)
    ensures out == Sanitized(path)
  {
    hide IsIllegalPathChar;
    out := [];
    for i := 0 to |path|
      invariant out == Collapse(path[..i])
    {
      assert path[..i + 1][..i] == path[..i];
      if IsIllegalPathChar(path[i]) {
        if out != [] && out[|out| - 1] != UNDERSCORE { out := out + [UNDERSCORE]; }
      } else {
        out := out + [path[i]];
      }
    }
    assert path[..|path|] == path;
    while out != [] && out[|out| - 1] == UNDERSCORE
      invariant TrimBack(out) == TrimBack(Collapse(path))
      decreases |out|
    {
      out := out[..|out| - 1];
    }
    while out != [] && out[0] == UNDERSCORE
      invariant TrimFront(out) == Sanitized(path)
      decreases |out|
    {
      out := out[1..];
    }
  }

  function Key(path: seq<Byte>): seq<Byte> {
    var sanitized := Sanitized(path);
    if sanitized == [] then Fnv1a64Hex(path) else sanitized + [HYPHEN] + Fnv1a64Hex(path)
  }

  method EncodeWorkdirKey(path: seq<Byte>) returns (key: seq<Byte>)
    ensures key == Key(path)
  {
    hide Sanitized, Hex, Hash;
    var sanitized := Sanitize(path);
    var hash := Fnv1a64(path);
    if sanitized == [] { return Hex(hash, 16); }
    key := sanitized + [HYPHEN] + Hex(hash, 16);
  }

  // ------------------------------------------------------------------
  // The readable part
  // ------------------------------------------------------------------

  predicate Legal(s: seq<Byte>) {
    forall i | 0 <= i < |s| :: !IsIllegalPathChar(s[i])
  }

  /** Without illegal characters, and without underscores at either end. */
  predicate Tidy(s: seq<Byte>) {
    Legal(s) && (s != [] ==> s[0] != UNDERSCORE && s[|s| - 1] != UNDERSCORE)
  }

  lemma {:induction false} CollapseLegal(path: seq<Byte>)
    ensures Legal(Collapse(path))
    decreases |path|
  {
    UnderscoreLegal();
    hide IsIllegalPathChar;
    if path != [] { CollapseLegal(path[..|path| - 1]); }
  }

  lemma CollapseSnoc(path: seq<Byte>, c: Byte)
    ensures Collapse(path + [c]) == Extend(Collapse(path), c)
  {
    hide IsIllegalPathChar, Extend;
    assert (path + [c])[..|path|] == path;
  }

  /** What stands for illegal bytes behind s: one underscore, unless s is empty or ends
      in one already. */
  function Gap(s: seq<Byte>): seq<Byte> {
    if s == [] || s[|s| - 1] == 0x5f then [] else [0x5f]
  }

  /** A run of illegal bytes, however long, becomes one gap. */
  lemma {:induction false} RunBecomesGap(path: seq<Byte>, run: seq<Byte>)
    requires run != [] && forall c | c in run :: IsIllegalPathChar(c)
    ensures Collapse(path + run) == Collapse(path) + Gap(Collapse(path))
    decreases |run|
  {
    hide IsIllegalPathChar, Collapse;
    var n := |run| - 1;
    assert path + run == (path + run[..n]) + [run[n]];
    assert run[n] in run;
    CollapseSnoc(path + run[..n], run[n]);
    if n == 0 {
      assert path + run[..n] == path;
    } else {
      RunBecomesGap(path, run[..n]);
    }
    assert Collapse(path) + [] == Collapse(path);
  }

  /** Legal bytes stay as they are. */
  lemma {:induction false} WordStays(path: seq<Byte>, word: seq<Byte>)
    requires Legal(word)
    ensures Collapse(path + word) == Collapse(path) + word
    decreases |word|
  {
    hide IsIllegalPathChar, Collapse;
    if word == [] {
      assert path + word == path && Collapse(path) + word == Collapse(path);
    } else {
      var n := |word| - 1;
      assert forall i | 0 <= i < n :: word[..n][i] == word[i];
      WordStays(path, word[..n]);
      assert path + word == (path + word[..n]) + [word[n]];
      CollapseSnoc(path + word[..n], word[n]);
      assert Collapse(path) + word == (Collapse(path) + word[..n]) + [word[n]];
    }
  }

  /** Between two legal parts a run of illegal bytes becomes one gap. */
  lemma CollapseIs(path: seq<Byte>, run: seq<Byte>, word: seq<Byte>)
    requires run != [] && (forall c | c in run :: IsIllegalPathChar(c)) && Legal(word)
    ensures Collapse([]) == [] && Collapse(word) == word
    ensures Collapse(path + run + word) == Collapse(path) + Gap(Collapse(path)) + word
  {
    LegalKept(word);
    assert Collapse([]) == [];
    hide IsIllegalPathChar, Collapse, Gap;
    RunBecomesGap(path, run);
    WordStays(path + run, word);
  }

  /** Trimming takes underscores only, and all of them, off both ends. */
  lemma TrimmedIs(path: seq<Byte>) returns (a: nat, b: nat)
    ensures a <= b <= |Collapse(path)| && Sanitized(path) == Collapse(path)[a..b]
    ensures forall i | 0 <= i < a || b <= i < |Collapse(path)| :: Collapse(path)[i] == 0x5f
    ensures a < b ==> Collapse(path)[a] != 0x5f && Collapse(path)[b - 1] != 0x5f
  {
    hide IsIllegalPathChar, Collapse, TrimBack, TrimFront;
    var s := Collapse(path);
    BackTrimmed(s);
    var t := TrimBack(s);
    FrontTrimmed(t);
    b := |t|;
    a := |t| - |TrimFront(t)|;
  }

  lemma {:induction false} BackTrimmed(s: seq<Byte>)
    ensures forall i | |TrimBack(s)| <= i < |s| :: s[i] == 0x5f
    decreases |s|
  {
    if s != [] && s[|s| - 1] == UNDERSCORE { BackTrimmed(s[..|s| - 1]); }
  }

  lemma {:induction false} FrontTrimmed(s: seq<Byte>)
    ensures forall i | 0 <= i < |s| - |TrimFront(s)| :: s[i] == 0x5f
    decreases |s|
  {
    if s != [] && s[0] == UNDERSCORE {
      FrontTrimmed(s[1..]);
      forall i | 0 <= i < |s| - |TrimFront(s)| ensures s[i] == 0x5f { assert i > 0 ==> s[i] == s[1..][i - 1]; }
    }
  }

  lemma UnderscoreLegal()
    ensures !IsIllegalPathChar(UNDERSCORE)
  {
  }

  lemma PartLegal(s: seq<Byte>, lo: nat, hi: nat)
    requires lo <= hi <= |s| && Legal(s)
    ensures Legal(s[lo..hi])
  {
    hide IsIllegalPathChar;
  }

  lemma SanitizedTidy(path: seq<Byte>)
    ensures Tidy(Sanitized(path))
  {
    CollapseLegal(path);
    hide Legal, Collapse, TrimBack, TrimFront;
    var s := Collapse(path);
    var t := TrimBack(s);
    PartLegal(s, 0, |t|);
    assert s[0..|t|] == t;
    var u := TrimFront(t);
    PartLegal(t, |t| - |u|, |t|);
    assert t[|t| - |u|..|t|] == u;
    assert u != [] ==> u[|u| - 1] == t[|t| - 1];
  }

  lemma {:induction false} LegalKept(path: seq<Byte>)
    requires Legal(path)
    ensures Collapse(path) == path
    decreases |path|
  {
    hide IsIllegalPathChar;
    if path != [] {
      var n := |path| - 1;
      assert forall i | 0 <= i < n :: path[..n][i] == path[i];
      LegalKept(path[..n]);
      assert path[..n] + [path[n]] == path;
    }
  }

  /** Sanitizing changes exactly the paths that are not tidy. */
  lemma SanitizedFixedIff(path: seq<Byte>)
    ensures Sanitized(path) == path <==> Tidy(path)
  {
    hide IsIllegalPathChar, Collapse, Legal, TrimBack, TrimFront;
    SanitizedTidy(path);
    if Tidy(path) {
      LegalKept(path);
      NothingToTrim(path);
    }
  }

  lemma NothingToTrim(s: seq<Byte>)
    requires s != [] ==> s[0] != UNDERSCORE && s[|s| - 1] != UNDERSCORE
    ensures TrimBack(s) == s && TrimFront(s) == s
  {
  }

  lemma SanitizeIdempotent(path: seq<Byte>)
    ensures Sanitized(Sanitized(path)) == Sanitized(path)
  {
    hide Sanitized, Tidy;
    SanitizedTidy(path);
    SanitizedFixedIff(Sanitized(path));
  }

  /** The legal characters other than underscores. */
  function Letters(s: seq<Byte>): seq<Byte>
    decreases |s|
  {
    if s == [] then []
    else
      var c := s[|s| - 1];
      Letters(s[..|s| - 1]) + if IsIllegalPathChar(c) || c == UNDERSCORE then [] else [c]
  }

  lemma LettersSnoc(s: seq<Byte>, c: Byte)
    ensures Letters(s + [c]) == Letters(s) + if IsIllegalPathChar(c) || c == UNDERSCORE then [] else [c]
  {
    hide IsIllegalPathChar;
    assert (s + [c])[..|s|] == s;
  }

  lemma {:induction false} CollapseKeepsLetters(path: seq<Byte>)
    ensures Letters(Collapse(path)) == Letters(path)
    decreases |path|
  {
    hide IsIllegalPathChar;
    if path != [] {
      var (front, c) := (path[..|path| - 1], path[|path| - 1]);
      CollapseKeepsLetters(front);
      assert front + [c] == path;
      LettersSnoc(front, c);
      LettersSnoc(Collapse(front), c);
      LettersSnoc(Collapse(front), UNDERSCORE);
      hide Letters;
      assert Letters(front) + [] == Letters(front);
    }
  }

  lemma {:induction false} TrimBackKeepsLetters(s: seq<Byte>)
    ensures Letters(TrimBack(s)) == Letters(s)
    decreases |s|
  {
    hide IsIllegalPathChar;
    if s != [] && s[|s| - 1] == UNDERSCORE {
      TrimBackKeepsLetters(s[..|s| - 1]);
      assert Letters(s[..|s| - 1]) + [] == Letters(s[..|s| - 1]);
    }
  }

  lemma {:induction false} LettersCons(c: Byte, s: seq<Byte>)
    ensures Letters([c] + s) == Letters([c]) + Letters(s)
    decreases |s|
  {
    hide IsIllegalPathChar;
    if s == [] {
      assert [c] + s == [c];
    } else {
      var n := |s| - 1;
      assert ([c] + s)[..n + 1] == [c] + s[..n];
      LettersCons(c, s[..n]);
    }
  }

  lemma {:induction false} TrimFrontKeepsLetters(s: seq<Byte>)
    ensures Letters(TrimFront(s)) == Letters(s)
    decreases |s|
  {
    hide IsIllegalPathChar;
    if s != [] && s[0] == UNDERSCORE {
      TrimFrontKeepsLetters(s[1..]);
      assert s == [UNDERSCORE] + s[1..];
      LettersCons(UNDERSCORE, s[1..]);
      assert [UNDERSCORE][..0] == [];
      assert Letters([UNDERSCORE]) == [];
    }
  }

  /** Nothing readable is lost, added or moved. */
  lemma SanitizeKeepsLetters(path: seq<Byte>)
    ensures Letters(Sanitized(path)) == Letters(path)
  {
    hide Letters, Collapse, TrimBack, TrimFront;
    CollapseKeepsLetters(path);
    TrimBackKeepsLetters(Collapse(path));
    TrimFrontKeepsLetters(TrimBack(Collapse(path)));
  }

  // ------------------------------------------------------------------
  // The key
  // ------------------------------------------------------------------

  lemma KeyEndsInHash(path: seq<Byte>)
    ensures |Key(path)| >= 16 && Key(path)[|Key(path)| - 16..] == Fnv1a64Hex(path)
  {
    hide Sanitized, Fnv1a64Hex;
  }

  /** A key is sixteen hexadecimal digits of the path's hash behind the readable part
      and a hyphen, or the digits alone if there is no readable part. */
  lemma KeyIs(path: seq<Byte>) returns (digits: seq<Byte>)
    ensures |digits| == 16 && (forall c | c in Chars(digits) :: c in "0123456789abcdef")
    ensures NumberOf(Chars(digits)) == Hash(path, 0xcbf29ce484222325)
    ensures Key(path) == if Sanitized(path) == [] then digits else Sanitized(path) + [0x2d] + digits
  {
    hide Sanitized, Hash, Hex, Power16, Chars, NumberOf;
    SixteenDigits();
    HexReads(Hash(path, OFFSET_BASIS), 16);
    digits := Fnv1a64Hex(path);
  }

  /** Working directories of one length that differ in one byte have different
      keys. */
  lemma OneByteApartKeys(a: seq<Byte>, i: nat, x: Byte)
    requires i < |a| && a[i] != x
    ensures Key(a[i := x]) != Key(a)
  {
    hide Key, Fnv1a64Hex, Hash;
    KeyEndsInHash(a);
    KeyEndsInHash(a[i := x]);
    OneByteApart(a, i, x);
    if Key(a[i := x]) == Key(a) { HexTellsHash(a[i := x], a); }
  }
}
