/** The reader undoes the writer, exactly when names and entry count fit their
    fields, and sees damage to an entry's contents. */
module ZipRoundTrip {
  import opened Basics
  import opened Bytes8
  import opened Crc32
  import opened ZipSpec
  import opened ZipReader
  import FrameCheck

  /** Names and entry count fit 16 bits. */
  predicate Countable(es: seq<Entry>) {
    |es| < LIMIT16 && forall e | e in es :: |e.name| < LIMIT16
  }

  /** Local section and directory fit 32 bits each. */
  predicate Addressable(es: seq<Entry>) {
    |Locals(es)| < LIMIT32 && |Centrals(Records(es))| < LIMIT32
  }

  predicate Writable(r: Record) {
    r.crc < LIMIT32 && r.size < LIMIT32 && r.offset < LIMIT32 && |r.name| < LIMIT16
  }

  function ListedAs(r: Record): Listed {
    Listed(r.name, CentralFields(20, 20, 0, 0, 0, 0, r.crc, r.size, r.size, |r.name|, 0, 0, 0, 0, 0, r.offset))
  }

  function Listing(rs: seq<Record>): (ls: seq<Listed>)
    ensures |ls| == |rs|
    decreases |rs|
  {
    if rs == [] then [] else [ListedAs(rs[0])] + Listing(rs[1..])
  }

  lemma {:induction false} ListingAt(rs: seq<Record>, i: nat)
    requires i < |rs|
    ensures Listing(rs)[i] == ListedAs(rs[i])
    decreases |rs|
  {
    hide ListedAs;
    if i > 0 { ListingAt(rs[1..], i - 1); }
  }

  // ------------------------------------------------------------------
  // One local entry, one directory record
  // ------------------------------------------------------------------

  lemma Pieces(pre: Bytes, h: Bytes, name: Bytes, data: Bytes, rest: Bytes, z: Bytes)
    requires z == pre + (h + name + data + rest) && |h| == 30
    ensures var o := |pre|;
            && z[o..o + 30] == h && z[o + 30..o + 30 + |name|] == name
            && z[o + 30 + |name|..o + 30 + |name| + |data|] == data
  {
  }

  /** Reading a local entry whose header belongs to e and whose contents may
      not: the checksum decides. */
  lemma ReadsLocal(pre: Bytes, e: Entry, data: Bytes, rest: Bytes, z: Bytes)
    requires z == pre + (LocalHeader(e) + e.name + data + rest)
    requires |data| == |e.data| < LIMIT32 && |e.name| < LIMIT16 && |pre| < LIMIT32
    ensures var l := ListedAs(Record(e.name, Checksum(e.data), |e.data|, |pre|));
            ReadEntry(z, l) == if Checksum(data) == Checksum(e.data) then Some(Entry(e.name, data)) else None
  {
    hide ParseLocal, LocalHeader, Crc, FrameCheck.WordNumber, FrameCheck.Number;
    FrameCheck.NumberIsChecksum(data);
    Pieces(pre, LocalHeader(e), e.name, data, rest, z);
    LocalReadsBack(e);
  }

  lemma ReadsRecord(pre: Bytes, r: Record, rest: Bytes, z: Bytes, n: nat)
    requires z == pre + (CentralHeader(r) + r.name + rest) && Writable(r)
    ensures var tail := ReadDirectory(z, |pre| + 46 + |r.name|, n);
            ReadDirectory(z, |pre|, n + 1)
            == if tail.None? then None else Some(([ListedAs(r)] + tail.value.0, tail.value.1))
  {
    hide ParseCentral, CentralHeader;
    CentralReadsBack(r);
    var o := |pre|;
    assert z[o..o + 46] == CentralHeader(r);
    assert z[o + 46..o + 46 + |r.name|] == r.name;
  }

  // ------------------------------------------------------------------
  // The directory
  // ------------------------------------------------------------------

  /** What follows the first i records. */
  lemma {:induction false} CentralAt(rs: seq<Record>, i: nat) returns (rest: Bytes)
    requires i < |rs|
    ensures Centrals(rs) == Centrals(rs[..i]) + (CentralHeader(rs[i]) + rs[i].name + rest)
    ensures |Centrals(rs[..i + 1])| == |Centrals(rs[..i])| + 46 + |rs[i].name|
    decreases |rs|
  {
    hide CentralHeader, Centrals;
    var n := |rs| - 1;
    CentralsSnoc(rs, i);
    assert rs[..n + 1] == rs;
    CentralsSnoc(rs, n);
    if i == n {
      rest := [];
      assert CentralHeader(rs[i]) + rs[i].name + rest == CentralHeader(rs[i]) + rs[i].name;
    } else {
      var inner := CentralAt(rs[..n], i);
      assert rs[..n][..i] == rs[..i];
      rest := inner + (CentralHeader(rs[n]) + rs[n].name);
      Regroup(Centrals(rs[..i]), CentralHeader(rs[i]) + rs[i].name, inner, CentralHeader(rs[n]) + rs[n].name);
    }
  }

  lemma Regroup(a: Bytes, b: Bytes, c: Bytes, d: Bytes)
    ensures (a + (b + c)) + d == a + (b + (c + d))
  {
  }

  lemma ReadsRecordAt(pre: Bytes, rs: seq<Record>, post: Bytes, z: Bytes, i: nat)
    requires z == pre + Centrals(rs) + post && i < |rs| && Writable(rs[i])
    ensures var at := |pre| + |Centrals(rs[..i])|;
            var tail := ReadDirectory(z, |pre| + |Centrals(rs[..i + 1])|, |rs| - i - 1);
            ReadDirectory(z, at, |rs| - i)
            == if tail.None? then None else Some(([ListedAs(rs[i])] + tail.value.0, tail.value.1))
  {
    hide CentralHeader, Centrals, ReadDirectory, Writable, ListedAs;
    var rest := CentralAt(rs, i);
    var before := pre + Centrals(rs[..i]);
    var own := CentralHeader(rs[i]) + rs[i].name;
    assert z == before + (own + (rest + post)) by {
      assert z == pre + (Centrals(rs[..i]) + (own + rest)) + post;
    }
    ReadsRecord(before, rs[i], rest + post, z, |rs| - i - 1);
  }

  lemma {:induction false} ReadsDirectory(pre: Bytes, rs: seq<Record>, post: Bytes, z: Bytes, i: nat)
    requires z == pre + Centrals(rs) + post && i <= |rs|
    requires forall r | r in rs :: Writable(r)
    ensures ReadDirectory(z, |pre| + |Centrals(rs[..i])|, |rs| - i)
         == Some((Listing(rs[i..]), |pre| + |Centrals(rs)|))
    decreases |rs| - i
  {
    hide Centrals, Writable, ListedAs, ReadDirectory, Listing;
    if i == |rs| {
      assert rs[..i] == rs && rs[i..] == [];
      NothingListed(z, |pre| + |Centrals(rs)|);
    } else {
      assert rs[i] in rs;
      ReadsDirectory(pre, rs, post, z, i + 1);
      ReadsRecordAt(pre, rs, post, z, i);
      ListingStep(rs, i);
    }
  }

  lemma NothingListed(z: Bytes, pos: nat)
    ensures ReadDirectory(z, pos, 0) == Some((Listing([]), pos))
  {
  }

  lemma ListingStep(rs: seq<Record>, i: nat)
    requires i < |rs|
    ensures Listing(rs[i..]) == [ListedAs(rs[i])] + Listing(rs[i + 1..])
  {
    hide ListedAs;
    assert rs[i..][1..] == rs[i + 1..] && rs[i..][0] == rs[i];
  }

  // ------------------------------------------------------------------
  // The entries
  // ------------------------------------------------------------------

  lemma {:induction false} LocalAt(es: seq<Entry>, i: nat) returns (rest: Bytes)
    requires i < |es|
    ensures Locals(es) == Locals(es[..i]) + (Local(es[i]) + rest)
    decreases |es|
  {
    hide Local, Locals;
    var n := |es| - 1;
    assert es[..n + 1] == es;
    LocalsSnoc(es, n);
    if i == n {
      rest := [];
      assert Local(es[i]) + rest == Local(es[i]);
    } else {
      var inner := LocalAt(es[..n], i);
      assert es[..n][..i] == es[..i];
      rest := inner + Local(es[n]);
      Regroup(Locals(es[..i]), Local(es[i]), inner, Local(es[n]));
    }
  }

  /** Every record of the directory points at its own local header. */
  lemma OffsetsPoint(es: seq<Entry>, i: nat)
    requires i < |es| && |Locals(es)| < LIMIT32
    ensures var r := Records(es)[i];
            && r.offset == |Locals(es[..i])| && r.size == |es[i].data| && r.name == es[i].name
            && r.offset + |Local(es[i])| <= |Locals(es)|
            && Locals(es)[r.offset..r.offset + |Local(es[i])|] == Local(es[i])
            && r.offset + |Local(es[i])| <= |Archive(es)|
            && Archive(es)[r.offset..r.offset + |Local(es[i])|] == Local(es[i])
  {
    hide Locals, Local, Checksum, Centrals, End;
    var rest := LocalAt(es, i);
    LocalSize(es[i]);
    Within(Locals(es[..i]), Local(es[i]), rest, Locals(es));
    assert Locals(es) <= Archive(es);
    hide Archive;
    var o := |Locals(es[..i])|;
    assert Archive(es)[o..o + |Local(es[i])|] == Locals(es)[o..o + |Local(es[i])|];
  }

  lemma LocalSize(e: Entry)
    ensures |Local(e)| == 30 + |e.name| + |e.data|
  {
    hide LocalHeader;
  }

  lemma Within(pre: Bytes, mid: Bytes, rest: Bytes, whole: Bytes)
    requires whole == pre + (mid + rest)
    ensures |pre| + |mid| <= |whole| && whole[|pre|..|pre| + |mid|] == mid
  {
  }

  lemma RecordsWritable(es: seq<Entry>)
    requires Countable(es)
    ensures forall r | r in Records(es) :: Writable(r)
  {
    hide Checksum, Locals;
    forall i: nat | i < |es| ensures Writable(Records(es)[i]) {
      assert es[i] in es;
      ChecksumFits(es[i].data);
    }
  }

  /** Whatever the local section holds, an archive is read through the
      directory the writer wrote for es. */
  lemma ReadsThroughDirectory(body: Bytes, es: seq<Entry>, z: Bytes)
    requires Countable(es) && Addressable(es) && |body| == |Locals(es)|
    requires z == body + Centrals(Records(es)) + End(|es|, |Centrals(Records(es))|, |Locals(es)|)
    ensures Unzip(z) == ReadEntries(z, Listing(Records(es)))
  {
    hide Records, Centrals, Locals, End, ParseEnd, ReadDirectory, ReadEntries, Listing, Writable;
    var rs := Records(es);
    var end := End(|es|, |Centrals(rs)|, |Locals(es)|);
    EndReadsBack(|es|, |Centrals(rs)|, |Locals(es)|);
    var p := |z| - 22;
    assert z[p..p + 22] == end;
    RecordsWritable(es);
    ReadsDirectory(body, rs, end, z, 0);
    NoRecords(rs);
    assert rs[0..] == rs;
  }

  lemma NoRecords(rs: seq<Record>)
    ensures Centrals(rs[..0]) == []
  {
  }

  lemma Regrouped(z: Bytes, pre: Bytes, h: Bytes, name: Bytes, data: Bytes, rest: Bytes, tail: Bytes)
    requires z == pre + ((h + name + data) + rest) + tail
    ensures z == pre + (h + name + data + (rest + tail))
  {
  }

  lemma EntryReadsBack(es: seq<Entry>, tail: Bytes, z: Bytes, i: nat)
    requires Countable(es) && |Locals(es)| < LIMIT32 && z == Locals(es) + tail && i < |es|
    ensures ReadEntry(z, ListedAs(Records(es)[i])) == Some(es[i])
  {
    hide Locals, Checksum, ReadEntry, ListedAs, LocalHeader, Archive;
    var rest := LocalAt(es, i);
    OffsetsPoint(es, i);
    var e := es[i];
    Regrouped(z, Locals(es[..i]), LocalHeader(e), e.name, e.data, rest, tail);
    assert e in es;
    hide Local;
    ReadsLocal(Locals(es[..i]), e, e.data, rest + tail, z);
  }

  lemma {:induction false} EntriesReadBack(es: seq<Entry>, tail: Bytes, z: Bytes, i: nat)
    requires Countable(es) && |Locals(es)| < LIMIT32 && z == Locals(es) + tail && i <= |es|
    ensures ReadEntries(z, Listing(Records(es)[i..])) == Some(es[i..])
    decreases |es| - i
  {
    hide Locals, Records, ReadEntry, ListedAs, Countable;
    var rs := Records(es);
    if i == |es| {
      assert rs[i..] == [] && es[i..] == [];
    } else {
      EntriesReadBack(es, tail, z, i + 1);
      EntryReadsBack(es, tail, z, i);
      assert es[i..] == [es[i]] + es[i + 1..];
      ListingStep(rs, i);
      hide Listing;
      var ls := Listing(rs[i..]);
      assert ls[0] == ListedAs(rs[i]) && ls[1..] == Listing(rs[i + 1..]);
    }
  }

  // ------------------------------------------------------------------
  // What no reader of the format can give back
  // ------------------------------------------------------------------

  lemma {:induction false} NumberBound(bytes: Bytes)
    ensures |bytes| == 2 ==> Number(bytes) < LIMIT16
    decreases |bytes|
  {
    hide Value;
    if |bytes| == 2 {
      NumberOfTwo(bytes);
      ValueBound(bytes[0]);
      ValueBound(bytes[1]);
      assert bytes[2..] == [];
    }
  }

  lemma {:induction false} DirectoryLimits(z: Bytes, pos: nat, n: nat)
    requires ReadDirectory(z, pos, n).Some?
    ensures |ReadDirectory(z, pos, n).value.0| == n
    ensures forall l | l in ReadDirectory(z, pos, n).value.0 :: |l.name| < LIMIT16
    decreases n
  {
    hide Number;
    if n > 0 {
      var c := ParseCentral(z[pos..pos + 46]).value;
      NumberBound(z[pos..pos + 46][28..30]);
      DirectoryLimits(z, pos + 46 + c.nameLength + c.extraLength + c.commentLength, n - 1);
    }
  }

  lemma {:induction false} EntriesLimits(z: Bytes, ls: seq<Listed>)
    requires ReadEntries(z, ls).Some?
    requires forall l | l in ls :: |l.name| < LIMIT16
    ensures |ReadEntries(z, ls).value| == |ls|
    ensures forall e | e in ReadEntries(z, ls).value :: |e.name| < LIMIT16
    decreases |ls|
  {
    hide ParseLocal, FrameCheck.Number;
    if ls != [] {
      EntriesLimits(z, ls[1..]);
      assert ls[0] in ls;
    }
  }

  lemma {:induction false} EndLimits(z: Bytes, p: nat)
    requires p + 22 <= |z| && FindEnd(z, p).Some?
    ensures FindEnd(z, p).value.count < LIMIT16
    decreases p
  {
    hide Number;
    NumberBound(z[p..p + 22][10..12]);
    if p > 0 && FindEnd(z, p) == FindEnd(z, p - 1) {
      EndLimits(z, p - 1);
    }
  }

  lemma ReaderLimits(z: Bytes)
    requires Unzip(z).Some?
    ensures Countable(Unzip(z).value)
  {
    hide FindEnd, ReadDirectory, ReadEntries;
    EndLimits(z, |z| - 22);
    var e := FindEnd(z, |z| - 22).value;
    DirectoryLimits(z, e.offset, e.count);
    EntriesLimits(z, ReadDirectory(z, e.offset, e.count).value.0);
  }

  // ------------------------------------------------------------------
  // Main results
  // ------------------------------------------------------------------

  lemma ArchiveParts(es: seq<Entry>)
    requires Addressable(es)
    ensures Archive(es) == Locals(es) + Centrals(Records(es)) + End(|es|, |Centrals(Records(es))|, |Locals(es)|)
  {
    hide Locals, Centrals, Records, End;
  }

  /** While sections fit 32 bits, the archive gives back exactly the entries
      written if and only if names and entry count fit 16 bits. */
  lemma RoundTripIff(es: seq<Entry>)
    requires Addressable(es)
    ensures Unzip(Archive(es)) == Some(es) <==> Countable(es)
  {
    if Unzip(Archive(es)) == Some(es) {
      hide Unzip, Archive, Countable;
      ReaderLimits(Archive(es));
    }
    if Countable(es) {
      hide Unzip, Countable, Locals, Centrals, Records, End, Archive;
      RoundTrip(es);
    }
  }

  lemma RoundTrip(es: seq<Entry>)
    requires Addressable(es) && Countable(es)
    ensures Unzip(Archive(es)) == Some(es)
  {
    hide Unzip, Countable, Locals, Centrals, Records, End, Archive, ReadEntries, Listing;
    var z := Archive(es);
    var rs := Records(es);
    ArchiveParts(es);
    ReadsThroughDirectory(Locals(es), es, z);
    var end := End(|es|, |Centrals(rs)|, |Locals(es)|);
    assert z == Locals(es) + (Centrals(rs) + end);
    EntriesReadBack(es, Centrals(rs) + end, z, 0);
    assert rs[0..] == rs && es[0..] == es;
  }

  // ------------------------------------------------------------------
  // Damage
  // ------------------------------------------------------------------

  lemma {:induction false} OneUnreadable(z: Bytes, ls: seq<Listed>, i: nat)
    requires i < |ls| && ReadEntry(z, ls[i]).None?
    ensures ReadEntries(z, ls).None?
    decreases |ls|
  {
    hide ReadEntry;
    if i > 0 { OneUnreadable(z, ls[1..], i - 1); }
  }

  lemma LocalFitsArchive(es: seq<Entry>, i: nat)
    requires i < |es|
    ensures |Locals(es[..i])| + 30 + |es[i].name| + |es[i].data| <= |Archive(es)|
  {
    hide Locals, Centrals, End;
    var rest := LocalAt(es, i);
    hide LocalHeader;
  }

  /** The archive of es with the contents of entry i overwritten by data. */
  function Damaged(es: seq<Entry>, i: nat, data: Bytes): Bytes
    requires i < |es| && |data| == |es[i].data|
  {
    LocalFitsArchive(es, i);
    var at := |Locals(es[..i])| + 30 + |es[i].name|;
    Archive(es)[..at] + data + Archive(es)[at + |data|..]
  }

  lemma Overwritten(a: Bytes, h: Bytes, old_: Bytes, data: Bytes, rest: Bytes, tail: Bytes)
    requires |data| == |old_|
    ensures var z := a + (h + old_ + rest) + tail;
            z[..|a| + |h|] + data + z[|a| + |h| + |data|..] == a + (h + data + (rest + tail))
  {
  }

  lemma ChecksumsDiffer(a: Bytes, b: Bytes, start: nat)
    requires AgreeOutside(a, b, start, 32) && a != b
    ensures Checksum(a) != Checksum(b)
  {
    hide Crc, AgreeOutside, FrameCheck.WordNumber;
    BurstDetected(a, b, start);
    if Checksum(a) == Checksum(b) { FrameCheck.WordNumberInjective(Crc(a), Crc(b)); }
  }

  /** Overwriting an entry's contents within 32 consecutive bits makes the
      archive unreadable rather than wrong. */
  lemma DamageDetected(es: seq<Entry>, i: nat, data: Bytes, start: nat)
    requires Addressable(es) && Countable(es) && i < |es| && |data| == |es[i].data|
    requires AgreeOutside(es[i].data, data, start, 32) && data != es[i].data
    ensures Unzip(Damaged(es, i, data)).None?
  {
    hide Countable, Locals, Centrals, Records, End, ReadEntries, Unzip, Listing, ReadEntry, LocalHeader, Checksum, AgreeOutside;
    var e := es[i];
    ChecksumsDiffer(e.data, data, start);
    var rs := Records(es);
    var z := Damaged(es, i, data);
    var rest, tail := DamagedParts(es, i, data);
    hide Archive, Damaged;
    var body := Locals(es[..i]) + (LocalHeader(e) + e.name + data + rest);
    ReadsThroughDirectory(body, es, z);
    DamagedEntry(es, i, data, rest + tail, z);
    OneUnreadable(z, Listing(rs), i);
  }

  lemma DamagedParts(es: seq<Entry>, i: nat, data: Bytes) returns (rest: Bytes, tail: Bytes)
    requires Addressable(es) && i < |es| && |data| == |es[i].data|
    ensures var (e, pre) := (es[i], Locals(es[..i]));
            var z := Damaged(es, i, data);
            && |pre + (LocalHeader(e) + e.name + data + rest)| == |Locals(es)|
            && z == pre + (LocalHeader(e) + e.name + data + rest)
                    + Centrals(Records(es)) + End(|es|, |Centrals(Records(es))|, |Locals(es)|)
            && z == pre + (LocalHeader(e) + e.name + data + (rest + tail))
  {
    hide Locals, Centrals, Records, End, LocalHeader;
    ArchiveParts(es);
    LocalFitsArchive(es, i);
    hide Archive;
    var e := es[i];
    var pre := Locals(es[..i]);
    rest := LocalAt(es, i);
    var end := End(|es|, |Centrals(Records(es))|, |Locals(es)|);
    tail := Centrals(Records(es)) + end;
    var h := LocalHeader(e) + e.name;
    assert Archive(es) == pre + (h + e.data + rest) + tail;
    Overwritten(pre, h, e.data, data, rest, tail);
    Reassociated(pre, h + data, rest, Centrals(Records(es)), end);
  }

  lemma Reassociated(a: Bytes, b: Bytes, c: Bytes, d: Bytes, e: Bytes)
    ensures a + (b + (c + (d + e))) == a + (b + c) + d + e
  {
  }

  lemma DamagedEntry(es: seq<Entry>, i: nat, data: Bytes, rest: Bytes, z: Bytes)
    requires Countable(es) && |Locals(es)| < LIMIT32 && i < |es|
    requires |data| == |es[i].data| && Checksum(data) != Checksum(es[i].data)
    requires z == Locals(es[..i]) + (LocalHeader(es[i]) + es[i].name + data + rest)
    ensures ReadEntry(z, Listing(Records(es))[i]).None?
  {
    hide Locals, ReadEntry, Listing, ListedAs, LocalHeader, Checksum;
    ListingAt(Records(es), i);
    OffsetsPoint(es, i);
    assert es[i] in es;
    ReadsLocal(Locals(es[..i]), es[i], data, rest, z);
  }
}
