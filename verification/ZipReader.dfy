/** A reader of archives after APPNOTE.TXT: the end record is found by
    scanning back (4.3.16), the directory gives names and offsets (4.3.12),
    and every entry is taken from its local header (4.3.7) and checked against
    the directory and its checksum, which is computed by polynomial division
    (4.4.7). The reader takes plain stored entries only. */
module ZipReader {
  import opened Basics
  import opened Bytes8
  import opened Crc32
  import opened ZipSpec
  import FrameCheck

  /** A little-endian number. */
  function Number(bytes: Bytes): nat
    decreases |bytes|
  {
    if bytes == [] then 0 else Value(bytes[0]) + 256 * Number(bytes[1..])
  }

  datatype LocalFields = LocalFields(version: nat, flags: nat, compression: nat, time: nat, date: nat, crc: nat,
                                     packed: nat, size: nat, nameLength: nat, extraLength: nat)

  datatype CentralFields = CentralFields(madeBy: nat, version: nat, flags: nat, compression: nat, time: nat, date: nat,
                                         crc: nat, packed: nat, size: nat, nameLength: nat, extraLength: nat,
                                         commentLength: nat, disk: nat, internal: nat, external: nat, offset: nat)

  datatype EndFields = EndFields(disk: nat, startDisk: nat, countHere: nat, count: nat, size: nat, offset: nat,
                                 commentLength: nat)

  datatype Listed = Listed(name: Bytes, fields: CentralFields)

  function ParseLocal(h: Bytes): Option<LocalFields>
    requires |h| == 30
  {
    if h[0..4] != [0x50, 0x4b, 0x03, 0x04] then None
    else Some(LocalFields(Number(h[4..6]), Number(h[6..8]), Number(h[8..10]), Number(h[10..12]), Number(h[12..14]),
                          Number(h[14..18]), Number(h[18..22]), Number(h[22..26]), Number(h[26..28]), Number(h[28..30])))
  }

  function ParseCentral(h: Bytes): Option<CentralFields>
    requires |h| == 46
  {
    if h[0..4] != [0x50, 0x4b, 0x01, 0x02] then None
    else Some(CentralFields(Number(h[4..6]), Number(h[6..8]), Number(h[8..10]), Number(h[10..12]), Number(h[12..14]),
                            Number(h[14..16]), Number(h[16..20]), Number(h[20..24]), Number(h[24..28]), Number(h[28..30]),
                            Number(h[30..32]), Number(h[32..34]), Number(h[34..36]), Number(h[36..38]), Number(h[38..42]),
                            Number(h[42..46])))
  }

  function ParseEnd(h: Bytes): Option<EndFields>
    requires |h| == 22
  {
    if h[0..4] != [0x50, 0x4b, 0x05, 0x06] then None
    else Some(EndFields(Number(h[4..6]), Number(h[6..8]), Number(h[8..10]), Number(h[10..12]), Number(h[12..16]),
                        Number(h[16..20]), Number(h[20..22])))
  }

  /** The last position at or before p where an end record with its comment
      closes the archive. */
  function FindEnd(z: Bytes, p: nat): Option<EndFields>
    requires p + 22 <= |z|
    decreases p
  {
    var e := ParseEnd(z[p..p + 22]);
    if e.Some? && p + 22 + e.value.commentLength == |z| then e
    else if p == 0 then None
    else FindEnd(z, p - 1)
  }

  /** The next n directory records from position pos, and where they end. */
  function ReadDirectory(z: Bytes, pos: nat, n: nat): Option<(seq<Listed>, nat)>
    decreases n
  {
    if n == 0 then Some(([], pos))
    else if pos + 46 > |z| then None
    else
      var c := ParseCentral(z[pos..pos + 46]);
      if c.None? || pos + 46 + c.value.nameLength > |z| then None
      else
        var name := z[pos + 46..pos + 46 + c.value.nameLength];
        var rest := ReadDirectory(z, pos + 46 + c.value.nameLength + c.value.extraLength + c.value.commentLength, n - 1);
        if rest.None? then None else Some(([Listed(name, c.value)] + rest.value.0, rest.value.1))
  }

  /** Readable by version 2.0, without any flag and not compressed. */
  predicate Plain(h: LocalFields) {
    h.version <= 20 && h.flags == 0 && h.compression == 0
  }

  /** The entry a directory record points at. */
  function ReadEntry(z: Bytes, l: Listed): Option<Entry> {
    var c := l.fields;
    if c.offset + 30 > |z| then None
    else
      var local := ParseLocal(z[c.offset..c.offset + 30]);
      if local.None? then None
      else
        var h := local.value;
        var nameAt := c.offset + 30;
        var dataAt := nameAt + h.nameLength + h.extraLength;
        if !Plain(h) || c.disk != 0
           || h != LocalFields(c.version, c.flags, c.compression, c.time, c.date, c.crc, c.packed, c.size, c.nameLength,
                               h.extraLength)
           || h.packed != h.size || dataAt + h.packed > |z| || z[nameAt..nameAt + h.nameLength] != l.name
        then None
        else
          var data := z[dataAt..dataAt + h.packed];
          if FrameCheck.Number(data) != h.crc then None else Some(Entry(l.name, data))
  }

  function ReadEntries(z: Bytes, ls: seq<Listed>): Option<seq<Entry>>
    decreases |ls|
  {
    if ls == [] then Some([])
    else
      var first := ReadEntry(z, ls[0]);
      var rest := ReadEntries(z, ls[1..]);
      if first.None? || rest.None? then None else Some([first.value] + rest.value)
  }

  function Unzip(z: Bytes): Option<seq<Entry>> {
    if |z| < 22 then None
    else
      var e := FindEnd(z, |z| - 22);
      if e.None? || e.value.disk != 0 || e.value.startDisk != 0 || e.value.countHere != e.value.count then None
      else
        var listed := ReadDirectory(z, e.value.offset, e.value.count);
        if listed.None? || listed.value.1 != e.value.offset + e.value.size then None
        else ReadEntries(z, listed.value.0)
  }

  // ------------------------------------------------------------------
  // Numbers and headers read back
  // ------------------------------------------------------------------

  lemma LowIs(v: nat)
    ensures Value(Low(v)) == v % 256
  {
    hide Value, Narrow;
    NarrowKeeps(v % 256);
  }

  lemma NumberOfTwo(n: Bytes)
    requires |n| >= 2
    ensures Number(n) == Value(n[0]) + 256 * Value(n[1]) + LIMIT16 * Number(n[2..])
  {
    hide Value;
    assert n[1..][1..] == n[2..];
  }

  lemma TwoDigits(v: nat)
    ensures v % LIMIT16 == v % 256 + 256 * (v / 256 % 256)
  {
  }

  lemma Number16(v: nat)
    ensures Number(Le16(v)) == v % LIMIT16
  {
    hide Low, Value, Number;
    LowIs(v);
    LowIs(v / 256);
    NumberOfTwo(Le16(v));
    assert Le16(v)[2..] == [];
    NumberOfNone();
    TwoDigits(v);
  }

  lemma NumberOfPair(a: Bytes, b: Bytes)
    requires |a| == 2
    ensures Number(a + b) == Number(a) + LIMIT16 * Number(b)
  {
    hide Number, Value;
    NumberOfTwo(a);
    NumberOfTwo(a + b);
    assert (a + b)[2..] == b && a[2..] == [];
    NumberOfNone();
  }

  lemma Halves(v: nat)
    ensures v % LIMIT32 == v % LIMIT16 + LIMIT16 * (v / LIMIT16 % LIMIT16)
  {
  }

  lemma Number32(v: nat)
    ensures Number(Le32(v)) == v % LIMIT32
  {
    hide Le16, Le32, Number;
    Le32Halves(v);
    var low, high := v % LIMIT16, v / LIMIT16 % LIMIT16;
    Number16(low);
    Number16(high);
    NumberOfPair(Le16(low), Le16(high));
    Halves(v);
  }

  lemma NumberOfNone()
    ensures Number([]) == 0
  {
  }

  lemma ChecksumFits(data: Bytes)
    ensures Checksum(data) < LIMIT32
  {
    hide Crc, FrameCheck.WordNumber;
    FrameCheck.WordNumberFits(Crc(data));
  }

  /** Every part begins with its signature, byte by byte. */
  lemma Signatures()
    ensures Le32(LOCAL_SIGNATURE) == [0x50, 0x4b, 0x03, 0x04]
    ensures Le32(CENTRAL_SIGNATURE) == [0x50, 0x4b, 0x01, 0x02]
    ensures Le32(END_SIGNATURE) == [0x50, 0x4b, 0x05, 0x06]
  {
    hide Low, Value;
    SmallValues();
    LowIsByte(LOCAL_SIGNATURE, 0x50); LowIsByte(CENTRAL_SIGNATURE, 0x50); LowIsByte(END_SIGNATURE, 0x50);
    LowIsByte(LOCAL_SIGNATURE / 256, 0x4b); LowIsByte(CENTRAL_SIGNATURE / 256, 0x4b); LowIsByte(END_SIGNATURE / 256, 0x4b);
    LowIsByte(LOCAL_SIGNATURE / 65536, 3); LowIsByte(CENTRAL_SIGNATURE / 65536, 1); LowIsByte(END_SIGNATURE / 65536, 5);
    LowIsByte(LOCAL_SIGNATURE / 16777216, 4); LowIsByte(CENTRAL_SIGNATURE / 16777216, 2); LowIsByte(END_SIGNATURE / 16777216, 6);
  }

  lemma SmallValues()
    ensures Value(0x50) == 0x50 && Value(0x4b) == 0x4b && Value(1) == 1 && Value(2) == 2 && Value(3) == 3
    ensures Value(4) == 4 && Value(5) == 5 && Value(6) == 6
  {
  }

  lemma LowIsByte(v: nat, b: Byte)
    requires v % 256 == Value(b)
    ensures Low(v) == b
  {
    hide Value, Narrow;
    ValueKeeps(b);
  }

  lemma LocalReadsBack(e: Entry)
    ensures ParseLocal(LocalHeader(e))
         == Some(LocalFields(20, 0, 0, 0, 0, Checksum(e.data), |e.data| % LIMIT32, |e.data| % LIMIT32, |e.name| % LIMIT16, 0))
  {
    hide Number, Le16, Le32, Checksum;
    var h := LocalHeader(e);
    assert h[0..4] == Le32(LOCAL_SIGNATURE) && h[4..6] == Le16(20);
    assert h[6..8] == h[8..10] == h[10..12] == h[12..14] == Le16(0);
    assert h[14..18] == Le32(Checksum(e.data));
    assert h[18..22] == h[22..26] == Le32(|e.data|);
    assert h[26..28] == Le16(|e.name|);
    assert h[28..30] == h[28..] == Le16(0);
    Signatures();
    Number16(20);
    Number16(0);
    Number32(Checksum(e.data));
    ChecksumFits(e.data);
    Number32(|e.data|);
    Number16(|e.name|);
  }

  lemma CentralReadsBack(r: Record)
    requires r.crc < LIMIT32 && r.size < LIMIT32 && r.offset < LIMIT32
    ensures ParseCentral(CentralHeader(r))
         == Some(CentralFields(20, 20, 0, 0, 0, 0, r.crc, r.size, r.size, |r.name| % LIMIT16, 0, 0, 0, 0, 0, r.offset))
  {
    hide Number, Le16, Le32;
    var h := CentralHeader(r);
    assert h[0..4] == Le32(CENTRAL_SIGNATURE) && h[4..6] == h[6..8] == Le16(20);
    assert h[8..10] == h[10..12] == h[12..14] == h[14..16] == Le16(0);
    assert h[30..32] == h[32..34] == h[34..36] == h[36..38] == Le16(0) && h[38..42] == Le32(0);
    assert h[16..20] == Le32(r.crc) && h[20..24] == h[24..28] == Le32(r.size);
    assert h[28..30] == Le16(|r.name|) && h[42..46] == Le32(r.offset);
    Signatures();
    Number16(20);
    Number16(0);
    Number32(0);
    Number32(r.crc);
    Number32(r.size);
    Number16(|r.name|);
    Number32(r.offset);
  }

  lemma EndReadsBack(count: nat, size: nat, offset: nat)
    requires size < LIMIT32 && offset < LIMIT32
    ensures ParseEnd(End(count, size, offset))
         == Some(EndFields(0, 0, count % LIMIT16, count % LIMIT16, size, offset, 0))
  {
    hide Number, Le16, Le32;
    var h := End(count, size, offset);
    assert h[0..4] == Le32(END_SIGNATURE) && h[4..6] == h[6..8] == Le16(0);
    assert h[8..10] == h[10..12] == Le16(count);
    assert h[12..16] == Le32(size) && h[16..20] == Le32(offset) && h[20..22] == Le16(0);
    Signatures();
    Number16(0);
    Number16(count);
    Number32(size);
    Number32(offset);
  }
}
