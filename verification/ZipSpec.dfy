/** The archive as a value: what each part of a stored archive consists of
    (APPNOTE.TXT sections 4.3.7, 4.3.12 and 4.3.16), with the fixed-width
    fields truncating as the casts of the writer do. */
module ZipSpec {
  import opened Bytes8
  import FrameCheck
  import opened Crc32

  type Bytes = seq<Byte>

  datatype Entry = Entry(name: Bytes, data: Bytes)

  /** What the writer remembers about an entry for the directory. */
  datatype Record = Record(name: Bytes, crc: nat, size: nat, offset: nat)

  const LOCAL_SIGNATURE := 0x04034b50
  const CENTRAL_SIGNATURE := 0x02014b50
  const END_SIGNATURE := 0x06054b50
  const LIMIT16 := 0x1_0000
  const LIMIT32 := 0x1_0000_0000

  function Low(v: nat): Byte {
    Narrow(v % 256)
  }

  function Le16(v: nat): (r: Bytes)
    ensures |r| == 2
  {
    [Low(v), Low(v / 256)]
  }

  function Le32(v: nat): (r: Bytes)
    ensures |r| == 4
  {
    [Low(v), Low(v / 256), Low(v / 65536), Low(v / 16777216)]
  }

  function Checksum(data: Bytes): nat {
    FrameCheck.WordNumber(Crc(data))
  }

  function LocalHeader(e: Entry): (r: Bytes)
    ensures |r| == 30
  {
    Le32(LOCAL_SIGNATURE) + Le16(20) + Le16(0) + Le16(0) + Le16(0) + Le16(0)
    + Le32(Checksum(e.data)) + Le32(|e.data|) + Le32(|e.data|) + Le16(|e.name|) + Le16(0)
  }

  function CentralHeader(r: Record): (h: Bytes)
    ensures |h| == 46
  {
    Le32(CENTRAL_SIGNATURE) + Le16(20) + Le16(20) + Le16(0) + Le16(0) + Le16(0) + Le16(0)
    + Le32(r.crc) + Le32(r.size) + Le32(r.size) + Le16(|r.name|)
    + Le16(0) + Le16(0) + Le16(0) + Le16(0) + Le32(0) + Le32(r.offset)
  }

  function End(count: nat, size: nat, offset: nat): (h: Bytes)
    ensures |h| == 22
  {
    Le32(END_SIGNATURE) + Le16(0) + Le16(0) + Le16(count) + Le16(count)
    + Le32(size) + Le32(offset) + Le16(0)
  }

  function Local(e: Entry): Bytes {
    LocalHeader(e) + e.name + e.data
  }

  function Locals(es: seq<Entry>): Bytes
    decreases |es|
  {
    if es == [] then [] else Locals(es[..|es| - 1]) + Local(es[|es| - 1])
  }

  function RecordOf(es: seq<Entry>, i: nat): Record
    requires i < |es|
  {
    Record(es[i].name, Checksum(es[i].data), |es[i].data| % LIMIT32, |Locals(es[..i])| % LIMIT32)
  }

  function Records(es: seq<Entry>): (r: seq<Record>)
    ensures |r| == |es|
  {
    seq(|es|, i requires 0 <= i < |es| => RecordOf(es, i))
  }

  function Centrals(rs: seq<Record>): Bytes
    decreases |rs|
  {
    if rs == [] then []
    else Centrals(rs[..|rs| - 1]) + (CentralHeader(rs[|rs| - 1]) + rs[|rs| - 1].name)
  }

  /** The whole archive. */
  function Archive(es: seq<Entry>): Bytes {
    Locals(es) + Centrals(Records(es))
    + End(|es|, |Centrals(Records(es))| % LIMIT32, |Locals(es)| % LIMIT32)
  }

  lemma RecordOfPrefix(es: seq<Entry>, k: nat, i: nat)
    requires i < k <= |es|
    ensures RecordOf(es[..k], i) == RecordOf(es, i)
  {
    hide Checksum, Locals;
    assert es[..k][..i] == es[..i];
  }

  lemma RecordsSnoc(es: seq<Entry>, k: nat)
    requires k < |es|
    ensures Records(es[..k + 1]) == Records(es[..k]) + [RecordOf(es, k)]
  {
    hide RecordOf;
    forall i: nat | i < k + 1
      ensures Records(es[..k + 1])[i] == (Records(es[..k]) + [RecordOf(es, k)])[i]
    {
      RecordOfPrefix(es, k + 1, i);
      if i < k { RecordOfPrefix(es, k, i); }
    }
  }

  lemma LocalsSnoc(es: seq<Entry>, k: nat)
    requires k < |es|
    ensures Locals(es[..k + 1]) == Locals(es[..k]) + Local(es[k])
  {
    hide Local;
    assert es[..k + 1][..k] == es[..k];
  }

  lemma CentralsSnoc(rs: seq<Record>, k: nat)
    requires k < |rs|
    ensures Centrals(rs[..k + 1]) == Centrals(rs[..k]) + (CentralHeader(rs[k]) + rs[k].name)
  {
    hide CentralHeader;
    assert rs[..k + 1][..k] == rs[..k];
  }

  lemma LowDigit(v: nat, w: nat)
    requires v % 256 == w % 256
    ensures Low(v) == Low(w)
  {
  }

  lemma Digits16(v: nat)
    ensures (v % LIMIT16) % 256 == v % 256 && (v % LIMIT16) / 256 % 256 == v / 256 % 256
  {
    var q, w := v / LIMIT16, v % LIMIT16;
    assert v == LIMIT16 * q + w;
    assert v / 256 == 256 * q + w / 256;
  }

  lemma Digits32(v: nat)
    ensures (v % LIMIT32) % LIMIT16 == v % LIMIT16
    ensures (v % LIMIT32) / LIMIT16 % LIMIT16 == v / LIMIT16 % LIMIT16
  {
    var q, w := v / LIMIT32, v % LIMIT32;
    assert v == LIMIT32 * q + w;
    assert v / LIMIT16 == LIMIT16 * q + w / LIMIT16;
  }

  /** Truncating a value before writing it changes nothing. */
  lemma Truncated16(v: nat)
    ensures Le16(v % LIMIT16) == Le16(v)
  {
    hide Low;
    Digits16(v);
    LowDigit(v % LIMIT16, v);
    LowDigit((v % LIMIT16) / 256, v / 256);
  }

  lemma Le32Halves(v: nat)
    ensures Le32(v) == Le16(v % LIMIT16) + Le16(v / LIMIT16 % LIMIT16)
  {
    hide Low;
    var high := v / LIMIT16;
    Digits16(v);
    Digits16(high);
    LowDigit(v % LIMIT16, v);
    LowDigit((v % LIMIT16) / 256, v / 256);
    LowDigit(high % LIMIT16, high);
    LowDigit((high % LIMIT16) / 256, high / 256);
    assert v / 16777216 == high / 256;
  }

  lemma Truncated32(v: nat)
    ensures Le32(v % LIMIT32) == Le32(v)
  {
    hide Le16, Le32;
    Digits32(v);
    Le32Halves(v);
    Le32Halves(v % LIMIT32);
  }
}

/** The writer itself: every field is appended to the growing output. */
module ZipWriter {
  import FrameCheck
  import opened Crc32
  import opened ZipSpec

  method AppendLe16(out: Bytes, value: nat) returns (r: Bytes)
    requires value < LIMIT16
    ensures r == out + Le16(value)
  {
    r := out + [Low(value)];
    r := r + [Low(value / 256)];
  }

  method AppendLe32(out: Bytes, value: nat) returns (r: Bytes)
    requires value < LIMIT32
    ensures r == out + Le32(value)
  {
    hide Low;
    r := out + [Low(value)];
    r := r + [Low(value / 256)];
    r := r + [Low(value / 65536)];
    r := r + [Low(value / 16777216)];
  }

  lemma Glue(a: Bytes, b: Bytes, c: Bytes)
    ensures (a + b) + c == a + (b + c)
  {
  }

  /** The local header and contents of one entry. */
  method AppendLocal(out0: Bytes, e: Entry) returns (out: Bytes, crc: nat, size: nat)
    ensures out == out0 + Local(e) && crc == Checksum(e.data) && size == |e.data| % LIMIT32
  {
    hide Low, Le16, Le32, Crc, FrameCheck.WordNumber;
    FrameCheck.WordNumberFits(Crc(e.data));
    var word := Crc32.Crc32(e.data);
    crc, size := FrameCheck.WordNumber(word), |e.data| % LIMIT32;
    ghost var h: Bytes := [];
    out := AppendLe32(out0, 0x04034b50);   h := Le32(LOCAL_SIGNATURE);
    out := AppendLe16(out, 20);            Glue(out0, h, Le16(20)); h := h + Le16(20);
    out := AppendLe16(out, 0);             Glue(out0, h, Le16(0)); h := h + Le16(0);
    out := AppendLe16(out, 0);             Glue(out0, h, Le16(0)); h := h + Le16(0);
    out := AppendLe16(out, 0);             Glue(out0, h, Le16(0)); h := h + Le16(0);
    out := AppendLe16(out, 0);             Glue(out0, h, Le16(0)); h := h + Le16(0);
    out := AppendLe32(out, crc);           Glue(out0, h, Le32(crc)); h := h + Le32(crc);
    out := AppendLe32(out, size);          Glue(out0, h, Le32(size)); h := h + Le32(size);
    out := AppendLe32(out, size);          Glue(out0, h, Le32(size)); h := h + Le32(size);
    var length := |e.name| % LIMIT16;
    out := AppendLe16(out, length);        Glue(out0, h, Le16(length)); h := h + Le16(length);
    out := AppendLe16(out, 0);             Glue(out0, h, Le16(0)); h := h + Le16(0);
    Truncated16(|e.name|);
    Truncated32(|e.data|);
    assert h == LocalHeader(e);
    out := out + e.name;                   Glue(out0, h, e.name);
    out := out + e.data;                   Glue(out0, h + e.name, e.data);
  }

  /** The directory record of one entry. */
  method AppendCentral(out0: Bytes, r: Record) returns (out: Bytes)
    requires r.crc < LIMIT32 && r.size < LIMIT32 && r.offset < LIMIT32
    ensures out == out0 + (CentralHeader(r) + r.name)
  {
    hide Low, Le16, Le32;
    ghost var h: Bytes := [];
    out := AppendLe32(out0, 0x02014b50);   h := Le32(CENTRAL_SIGNATURE);
    out := AppendLe16(out, 20);            Glue(out0, h, Le16(20)); h := h + Le16(20);
    out := AppendLe16(out, 20);            Glue(out0, h, Le16(20)); h := h + Le16(20);
    out := AppendLe16(out, 0);             Glue(out0, h, Le16(0)); h := h + Le16(0);
    out := AppendLe16(out, 0);             Glue(out0, h, Le16(0)); h := h + Le16(0);
    out := AppendLe16(out, 0);             Glue(out0, h, Le16(0)); h := h + Le16(0);
    out := AppendLe16(out, 0);             Glue(out0, h, Le16(0)); h := h + Le16(0);
    out := AppendLe32(out, r.crc);         Glue(out0, h, Le32(r.crc)); h := h + Le32(r.crc);
    out := AppendLe32(out, r.size);        Glue(out0, h, Le32(r.size)); h := h + Le32(r.size);
    out := AppendLe32(out, r.size);        Glue(out0, h, Le32(r.size)); h := h + Le32(r.size);
    var length := |r.name| % LIMIT16;
    out := AppendLe16(out, length);        Glue(out0, h, Le16(length)); h := h + Le16(length);
    out := AppendLe16(out, 0);             Glue(out0, h, Le16(0)); h := h + Le16(0);
    out := AppendLe16(out, 0);             Glue(out0, h, Le16(0)); h := h + Le16(0);
    out := AppendLe16(out, 0);             Glue(out0, h, Le16(0)); h := h + Le16(0);
    out := AppendLe16(out, 0);             Glue(out0, h, Le16(0)); h := h + Le16(0);
    out := AppendLe32(out, 0);             Glue(out0, h, Le32(0)); h := h + Le32(0);
    out := AppendLe32(out, r.offset);      Glue(out0, h, Le32(r.offset)); h := h + Le32(r.offset);
    Truncated16(|r.name|);
    assert h == CentralHeader(r);
    out := out + r.name;                   Glue(out0, h, r.name);
  }

  method AppendEnd(out0: Bytes, count: nat, size: nat, offset: nat) returns (out: Bytes)
    requires size < LIMIT32 && offset < LIMIT32
    ensures out == out0 + End(count, size, offset)
  {
    hide Low, Le16, Le32;
    var n := count % LIMIT16;
    ghost var h: Bytes := [];
    out := AppendLe32(out0, 0x06054b50);   h := Le32(END_SIGNATURE);
    out := AppendLe16(out, 0);             Glue(out0, h, Le16(0)); h := h + Le16(0);
    out := AppendLe16(out, 0);             Glue(out0, h, Le16(0)); h := h + Le16(0);
    out := AppendLe16(out, n);             Glue(out0, h, Le16(n)); h := h + Le16(n);
    out := AppendLe16(out, n);             Glue(out0, h, Le16(n)); h := h + Le16(n);
    out := AppendLe32(out, size);          Glue(out0, h, Le32(size)); h := h + Le32(size);
    out := AppendLe32(out, offset);        Glue(out0, h, Le32(offset)); h := h + Le32(offset);
    out := AppendLe16(out, 0);             Glue(out0, h, Le16(0)); h := h + Le16(0);
    Truncated16(count);
    assert h == End(count, size, offset);
  }

  lemma RecordFits(es: seq<Entry>, i: nat)
    requires i < |es|
    ensures RecordOf(es, i).crc < LIMIT32 && RecordOf(es, i).size < LIMIT32 && RecordOf(es, i).offset < LIMIT32
  {
    hide Crc, FrameCheck.WordNumber;
    FrameCheck.WordNumberFits(Crc(es[i].data));
  }

  lemma Remainder(x: int, q: int, r: nat)
    requires x == LIMIT32 * q + r && r < LIMIT32
    ensures x % LIMIT32 == r
  {
  }

  /** Subtraction of 32-bit unsigned lengths. */
  lemma Difference(whole: nat, first: nat, second: nat)
    requires whole == first + second
    ensures (whole % LIMIT32 - first % LIMIT32) % LIMIT32 == second % LIMIT32
  {
    var f, s := first % LIMIT32, second % LIMIT32;
    var q := first / LIMIT32 + second / LIMIT32;
    if f + s < LIMIT32 {
      Remainder(whole, q, f + s);
      Remainder(s, 0, s);
    } else {
      Remainder(whole, q + 1, f + s - LIMIT32);
      Remainder(s - LIMIT32, -1, s);
    }
  }

  method BuildStoreZip(entries: seq<Entry>) returns (out: Bytes)
    ensures out == Archive(entries)
  {
    hide Local, RecordOf, CentralHeader, End;
    out := [];
    var central: seq<Record> := [];
    var k := 0;
    while k < |entries|
      invariant 0 <= k <= |entries|
      invariant out == Locals(entries[..k]) && central == Records(entries[..k])
    {
      out, central := AddEntry(entries, k, out, central);
      k := k + 1;
    }
    assert entries[..k] == entries;
    var centralOffset := |out| % LIMIT32;
    ghost var locals := out;
    k := 0;
    while k < |central|
      invariant 0 <= k <= |central|
      invariant out == locals + Centrals(central[..k])
    {
      out := AddRecord(entries, k, locals, out, central);
      k := k + 1;
    }
    assert central[..k] == central;
    var centralSize := (|out| % LIMIT32 - centralOffset) % LIMIT32;
    Difference(|out|, |locals|, |Centrals(central)|);
    out := AppendEnd(out, |central|, centralSize, centralOffset);
  }

  /** One turn of the first loop. */
  method AddEntry(entries: seq<Entry>, k: nat, out0: Bytes, central0: seq<Record>)
    returns (out: Bytes, central: seq<Record>)
    requires k < |entries| && out0 == Locals(entries[..k]) && central0 == Records(entries[..k])
    ensures out == Locals(entries[..k + 1]) && central == Records(entries[..k + 1])
  {
    hide Local, Records, Locals, Checksum;
    var offset := |out0| % LIMIT32;
    var crc, size;
    out, crc, size := AppendLocal(out0, entries[k]);
    central := central0 + [Record(entries[k].name, crc, size, offset)];
    LocalsSnoc(entries, k);
    RecordsSnoc(entries, k);
  }

  /** One turn of the second loop. */
  method AddRecord(ghost entries: seq<Entry>, k: nat, ghost locals: Bytes, out0: Bytes, central: seq<Record>)
    returns (out: Bytes)
    requires central == Records(entries) && k < |central| && out0 == locals + Centrals(central[..k])
    ensures out == locals + Centrals(central[..k + 1])
  {
    hide RecordOf, CentralHeader, Centrals;
    RecordFits(entries, k);
    out := AppendCentral(out0, central[k]);
    CentralsSnoc(central, k);
    Glue(locals, Centrals(central[..k]), CentralHeader(central[k]) + central[k].name);
  }
}
