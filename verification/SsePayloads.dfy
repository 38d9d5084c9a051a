/** Payloads written as data: lines, and read back. */
module SsePayloads {
  import opened Basics
  import opened SseSpec
  import opened SseChunks
  import opened Text

  /** The three line terminators of section 9.2.5. */
  predicate Eol(eol: string) {
    eol == "\n" || eol == "\r" || eol == "\r\n"
  }

  /** A value may stand behind one space or directly behind the colon. */
  predicate Sep(sep: string) {
    sep == "" || sep == " "
  }

  /** One data line for each line of the payload, then a blank line. */
  function Encode(payload: string, sep: string, eol: string): string
    decreases |payload|
  {
    var i := LfAt(payload);
    "data:" + sep + payload[..i] + eol + (if i < |payload| then Encode(payload[i + 1..], sep, eol) else eol)
  }

  function EncodeAll(payloads: seq<string>, sep: string, eol: string): string {
    if payloads == [] then "" else Encode(payloads[0], sep, eol) + EncodeAll(payloads[1..], sep, eol)
  }

  /** What comes of a line: directly behind the colon it loses one leading space. */
  function ReceivedLine(line: string, sep: string): string {
    if sep == "" && line != "" && line[0] == ' ' then line[1..] else line
  }

  function Received(payload: string, sep: string): string
    decreases |payload|
  {
    var i := LfAt(payload);
    ReceivedLine(payload[..i], sep) + if i < |payload| then "\n" + Received(payload[i + 1..], sep) else ""
  }

  /** No line of the payload begins with a space. */
  predicate NoLineIndented(payload: string)
    decreases |payload|
  {
    var i := LfAt(payload);
    (i == 0 || payload[0] != ' ') && (i < |payload| ==> NoLineIndented(payload[i + 1..]))
  }

  /** A lone CR must not be followed by an LF that would complete a pair. */
  predicate Apart(eol: string, rest: string) {
    Eol(eol) && (eol == "\r" ==> !StartsWithLf(rest))
  }

  /** The event being collected once text has been added to it as data lines. */
  function Collect(p: Parser, text: string): string {
    (if p.hasData then p.data + "\n" else p.data) + text
  }

  lemma ExtractAt(line: string, eol: string, rest: string)
    requires (forall c | c in line :: !IsTerminator(c)) && Apart(eol, rest)
    ensures ExtractLine(line + eol + rest) == Some((line, rest))
  {
    var b := line + eol + rest;
    var n := |line|;
    assert forall j | 0 <= j < n :: b[j] == line[j] && line[j] in line;
    assert b[n] == eol[0];
    EndAt(b, n);
    hide LineEnd;
    assert b[..n] == line && b[n + |eol|..] == rest;
    if |eol| == 1 {
      assert rest != "" ==> b[n + 1] == rest[0];
    } else {
      assert b[n + 1] == '\n';
    }
  }

  // ------------------------------------------------------------------
  // What each complete line does to what is read
  // ------------------------------------------------------------------

  /** A data line adds its value, less one space in front of it. */
  lemma ReadsDataLine(p: Parser, head: string, sep: string, eol: string, more: string)
    requires !p.done && Sep(sep) && (forall c | c in head :: !IsTerminator(c)) && Apart(eol, more)
    requires p.buffer == "data:" + sep + head + eol + more
    ensures Drain(p) == Drain(p.(buffer := more, data := Collect(p, ReceivedLine(head, sep)), hasData := true))
  {
    hide Drain, ExtractLine, OnLine, LineEnd, Apart, ReceivedLine;
    var line := "data:" + sep + head;
    assert forall c | c in line :: !IsTerminator(c);
    ExtractAt(line, eol, more);
    DrainLine(p, line, more);
    ValueOfLine(p.(buffer := more), head, sep);
    var q := p.(buffer := more, data := Collect(p, ReceivedLine(head, sep)), hasData := true);
    assert EventList(None) + Drain(q).0 == Drain(q).0;
  }

  lemma ValueOfLine(p: Parser, head: string, sep: string)
    requires Sep(sep)
    ensures OnLine(p, "data:" + sep + head) == (None, p.(data := Collect(p, ReceivedLine(head, sep)), hasData := true))
  {
    var line := "data:" + sep + head;
    assert line[..5] == "data:" && line[5..] == sep + head;
    assert sep == " " ==> (sep + head)[1..] == head;
    assert sep == "" ==> sep + head == head;
  }

  /** Lines with other fields and comments do nothing. */
  lemma ReadsOtherLine(p: Parser, line: string, eol: string, more: string)
    requires !p.done && line != "" && (forall c | c in line :: !IsTerminator(c)) && !("data:" <= line) && Apart(eol, more)
    requires p.buffer == line + eol + more
    ensures Drain(p) == Drain(p.(buffer := more))
  {
    hide Drain, ExtractLine, LineEnd, Apart;
    ExtractAt(line, eol, more);
    DrainLine(p, line, more);
    assert OnLine(p.(buffer := more), line) == (None, p.(buffer := more));
    assert EventList(None) + Drain(p.(buffer := more)).0 == Drain(p.(buffer := more)).0;
  }

  /** A blank line with no data collected does nothing. */
  lemma ReadsIdleBlankLine(p: Parser, eol: string, more: string)
    requires !p.done && !p.hasData && p.buffer == eol + more && Apart(eol, more)
    ensures Drain(p) == Drain(p.(buffer := more))
  {
    hide Drain, ExtractLine, LineEnd, Apart;
    assert p.buffer == "" + eol + more;
    ExtractAt("", eol, more);
    DrainLine(p, "", more);
    assert OnLine(p.(buffer := more), "") == (None, p.(buffer := more));
    assert EventList(None) + Drain(p.(buffer := more)).0 == Drain(p.(buffer := more)).0;
  }

  /** The blank line that completes an event. */
  lemma ReadsBlankLine(q: Parser, eol: string, rest: string)
    requires !q.done && q.hasData && q.data != "[DONE]" && q.buffer == eol + rest && Apart(eol, rest)
    ensures var (es, r) := Drain(q.(buffer := rest, data := "", hasData := false));
            Drain(q) == ([q.data] + es, r)
  {
    hide Drain, ExtractLine, OnLine, LineEnd, Apart;
    assert q.buffer == "" + eol + rest;
    ExtractAt("", eol, rest);
    BlankLine(q.(buffer := rest));
    DrainLine(q, "", rest);
  }

  /** The blank line behind the end marker ends the stream: nothing that follows is read. */
  lemma ReadsEndMarker(q: Parser, eol: string, rest: string)
    requires !q.done && q.hasData && q.data == "[DONE]" && q.buffer == eol + rest && Apart(eol, rest)
    ensures Drain(q) == ([], Parser(rest, "", false, true))
  {
    hide Drain, ExtractLine, LineEnd, Apart;
    assert q.buffer == "" + eol + rest;
    ExtractAt("", eol, rest);
    var r := Parser(rest, "", false, true);
    assert OnLine(q.(buffer := rest), "") == (None, r);
    DrainLine(q, "", rest);
    DrainNothing(r);
    assert EventList(None) + [] == [];
  }

  /** A line that is not terminated waits. */
  lemma ReadsNoPartialLine(p: Parser)
    requires forall c | c in p.buffer :: !IsTerminator(c)
    ensures Drain(p) == ([], p)
  {
    forall j | 0 <= j < |p.buffer| ensures !IsTerminator(p.buffer[j]) { assert p.buffer[j] in p.buffer; }
  }

  // ------------------------------------------------------------------
  // Whole payloads
  // ------------------------------------------------------------------

  /** What follows the first line of an encoded payload. */
  function Behind(payload: string, sep: string, eol: string, rest: string): string {
    var i := LfAt(payload);
    (if i < |payload| then Encode(payload[i + 1..], sep, eol) else eol) + rest
  }

  lemma EncodeSplit(payload: string, sep: string, eol: string, rest: string)
    ensures Encode(payload, sep, eol) + rest
         == "data:" + sep + payload[..LfAt(payload)] + eol + Behind(payload, sep, eol, rest)
  {
    hide LfAt;
    var (a, b) := ("data:" + sep + payload[..LfAt(payload)], Behind(payload, sep, eol, ""));
    assert b + "" == b;
    assert (a + eol + b) + rest == a + eol + (b + rest);
    assert b + rest == Behind(payload, sep, eol, rest);
  }

  lemma StartsWithData(payload: string, sep: string, eol: string)
    ensures Encode(payload, sep, eol) != "" && Encode(payload, sep, eol)[0] == 'd'
  {
  }

  lemma BehindIsApart(payload: string, sep: string, eol: string, rest: string)
    requires Eol(eol)
    ensures Apart(eol, Behind(payload, sep, eol, rest))
  {
    var i := LfAt(payload);
    if i < |payload| { StartsWithData(payload[i + 1..], sep, eol); }
    hide Encode;
  }

  lemma LineIsClean(payload: string)
    requires '\r' !in payload
    ensures forall c | c in payload[..LfAt(payload)] :: !IsTerminator(c)
  {
    assert forall c | c in payload[..LfAt(payload)] :: c in payload;
  }

  /** The data lines of a payload collect what is received of it. */
  lemma {:induction false} Collects(p: Parser, payload: string, sep: string, eol: string, rest: string)
    requires !p.done && Sep(sep) && p.buffer == Encode(payload, sep, eol) + rest && Apart(eol, rest) && '\r' !in payload
    ensures Drain(p) == Drain(p.(buffer := eol + rest, data := Collect(p, Received(payload, sep)), hasData := true))
    decreases |payload|
  {
    hide Drain, Encode, Collect, ReceivedLine, Received, Behind, LfAt;
    var i := LfAt(payload);
    EncodeSplit(payload, sep, eol, rest);
    BehindIsApart(payload, sep, eol, rest);
    LineIsClean(payload);
    var more := Behind(payload, sep, eol, rest);
    ReadsDataLine(p, payload[..i], sep, eol, more);
    var q := p.(buffer := more, data := Collect(p, ReceivedLine(payload[..i], sep)), hasData := true);
    BehindIs(payload, sep, eol, rest);
    ReceivedIs(payload, sep);
    if i < |payload| {
      CollectMore(p, q, ReceivedLine(payload[..i], sep), Received(payload[i + 1..], sep));
      Collects(q, payload[i + 1..], sep, eol, rest);
    }
  }

  lemma BehindIs(payload: string, sep: string, eol: string, rest: string)
    ensures var i := LfAt(payload);
            Behind(payload, sep, eol, rest) == if i < |payload| then Encode(payload[i + 1..], sep, eol) + rest else eol + rest
  {
    hide LfAt, Encode;
  }

  lemma ReceivedIs(payload: string, sep: string)
    ensures var i := LfAt(payload);
            Received(payload, sep) == ReceivedLine(payload[..i], sep) + if i < |payload| then "\n" + Received(payload[i + 1..], sep) else ""
    ensures LfAt(payload) == |payload| ==> Received(payload, sep) == ReceivedLine(payload[..LfAt(payload)], sep)
  {
    hide LfAt, ReceivedLine;
    var line := ReceivedLine(payload[..LfAt(payload)], sep);
    assert line + "" == line;
  }

  lemma CollectMore(p: Parser, q: Parser, first: string, more: string)
    requires q.hasData && q.data == Collect(p, first)
    ensures Collect(q, more) == Collect(p, first + ("\n" + more))
  {
  }

  lemma BlankLine(p: Parser)
    requires p.hasData && p.data != "[DONE]"
    ensures OnLine(p, "") == (Some(p.data), p.(data := "", hasData := false))
  {
  }

  lemma LineBehindSpace(line: string)
    ensures ReceivedLine(line, " ") == line
  {
  }

  lemma {:induction false} BehindSpace(payload: string)
    ensures Received(payload, " ") == payload
    decreases |payload|
  {
    hide LfAt, Received, ReceivedLine;
    var i := LfAt(payload);
    ReceivedIs(payload, " ");
    LineBehindSpace(payload[..i]);
    if i < |payload| {
      BehindSpace(payload[i + 1..]);
      assert payload == payload[..i] + ("\n" + payload[i + 1..]);
    } else {
      assert payload[..i] == payload;
    }
  }

  lemma LineBehindColon(line: string)
    ensures |ReceivedLine(line, "")| <= |line|
    ensures ReceivedLine(line, "") == line <==> line == "" || line[0] != ' '
  {
  }

  lemma Glued(line: string, a: string, rest: string, b: string)
    requires |a| <= |line| && |b| <= |rest|
    ensures a + ("\n" + b) == line + ("\n" + rest) <==> a == line && b == rest
  {
    var (x, y) := (a + ("\n" + b), line + ("\n" + rest));
    if x == y {
      assert |a| == |line| && |b| == |rest|;
      assert a == x[..|a|] && line == y[..|line|] && b == x[|a| + 1..] && rest == y[|line| + 1..];
    }
  }

  lemma IndentIs(payload: string)
    ensures var i := LfAt(payload);
            NoLineIndented(payload)
            <==> (payload[..i] == "" || payload[..i][0] != ' ') && (i < |payload| ==> NoLineIndented(payload[i + 1..]))
  {
    hide LfAt;
  }

  /** Directly behind the colon a payload is received unchanged exactly when none of its
      lines begins with a space; otherwise it gets shorter. */
  lemma {:induction false} BehindColon(payload: string)
    ensures |Received(payload, "")| <= |payload|
    ensures Received(payload, "") == payload <==> NoLineIndented(payload)
    decreases |payload|
  {
    hide LfAt, Received, ReceivedLine, NoLineIndented;
    var i := LfAt(payload);
    ReceivedIs(payload, "");
    IndentIs(payload);
    LineBehindColon(payload[..i]);
    if i < |payload| {
      BehindColon(payload[i + 1..]);
      assert payload == payload[..i] + ("\n" + payload[i + 1..]);
      Glued(payload[..i], ReceivedLine(payload[..i], ""), payload[i + 1..], Received(payload[i + 1..], ""));
    } else {
      assert payload[..i] == payload;
    }
  }

  lemma AllApart(payloads: seq<string>, sep: string, eol: string)
    requires Eol(eol)
    ensures Apart(eol, EncodeAll(payloads, sep, eol))
  {
    if payloads != [] { StartsWithData(payloads[0], sep, eol); }
    hide Encode;
  }

  /** The events of a list of payloads, and whether the end marker was among them. */
  function Expected(payloads: seq<string>, sep: string): (seq<string>, bool) {
    if payloads == [] then ([], false)
    else if Received(payloads[0], sep) == "[DONE]" then ([], true)
    else
      var (es, ended) := Expected(payloads[1..], sep);
      ([Received(payloads[0], sep)] + es, ended)
  }

  lemma FirstPayload(payload: string, sep: string, eol: string, rest: string)
    requires Sep(sep) && Apart(eol, rest) && '\r' !in payload
    ensures var text := Received(payload, sep);
            Drain(Fed(FRESH, Encode(payload, sep, eol) + rest))
            == if text == "[DONE]" then ([], Parser(rest, "", false, true))
               else ([text] + Drain(Fed(FRESH, rest)).0, Drain(Fed(FRESH, rest)).1)
  {
    hide Drain, Encode, Received;
    var p := Fed(FRESH, Encode(payload, sep, eol) + rest);
    assert p.buffer == Encode(payload, sep, eol) + rest;
    Collects(p, payload, sep, eol, rest);
    var text := Received(payload, sep);
    assert "" + text == text && "" + rest == rest;
    var q := p.(buffer := eol + rest, data := text, hasData := true);
    if text == "[DONE]" {
      ReadsEndMarker(q, eol, rest);
    } else {
      ReadsBlankLine(q, eol, rest);
      assert q.(buffer := rest, data := "", hasData := false) == Fed(FRESH, rest);
    }
  }

  /** A stream of payloads without CR is read payload by payload up to the end marker. */
  lemma {:induction false} StreamReads(payloads: seq<string>, sep: string, eol: string)
    requires Sep(sep) && Eol(eol) && forall x | x in payloads :: '\r' !in x
    ensures var (es, ended) := Expected(payloads, sep);
            var (read, q) := Drain(Fed(FRESH, EncodeAll(payloads, sep, eol)));
            read == es && q.done == ended && (!ended ==> q == FRESH)
    decreases |payloads|
  {
    hide Drain, Encode, Received;
    if payloads == [] {
      assert Fed(FRESH, "") == FRESH;
      DrainEmpty(FRESH);
    } else {
      AllApart(payloads[1..], sep, eol);
      FirstPayload(payloads[0], sep, eol, EncodeAll(payloads[1..], sep, eol));
      StreamReads(payloads[1..], sep, eol);
    }
  }

  /** The payloads that can be carried. */
  predicate Carried(payload: string, sep: string) {
    '\r' !in payload && payload != "[DONE]" && (sep == "" ==> NoLineIndented(payload))
  }

  lemma ReceivedUnchanged(payload: string, sep: string)
    requires Sep(sep)
    ensures Received(payload, sep) == payload <==> sep == " " || NoLineIndented(payload)
  {
    hide Received, NoLineIndented;
    if sep == " " { BehindSpace(payload); } else { BehindColon(payload); }
  }

  lemma {:induction false} ExpectedUnchanged(payloads: seq<string>, sep: string)
    requires Sep(sep)
    ensures Expected(payloads, sep).0 == payloads
        <==> forall x | x in payloads :: x != "[DONE]" && (sep == "" ==> NoLineIndented(x))
    ensures Expected(payloads, sep).0 == payloads ==> !Expected(payloads, sep).1
    decreases |payloads|
  {
    hide Received, NoLineIndented;
    if payloads != [] {
      var (x, rest) := (payloads[0], payloads[1..]);
      ReceivedUnchanged(x, sep);
      ExpectedUnchanged(rest, sep);
      HeadAndTail(payloads, Received(x, sep), Expected(rest, sep).0);
      AllOf(payloads, y => y != "[DONE]" && (sep == "" ==> NoLineIndented(y)));
    }
  }

  lemma HeadAndTail(payloads: seq<string>, x: string, rest: seq<string>)
    requires payloads != []
    ensures [x] + rest == payloads <==> x == payloads[0] && rest == payloads[1..]
  {
    assert payloads == [payloads[0]] + payloads[1..];
    assert ([x] + rest)[1..] == rest;
  }

  lemma AllOf(payloads: seq<string>, good: string -> bool)
    requires payloads != []
    ensures (forall x | x in payloads :: good(x)) <==> good(payloads[0]) && forall x | x in payloads[1..] :: good(x)
  {
    assert forall x | x in payloads :: x == payloads[0] || x in payloads[1..];
    assert forall x | x in payloads[1..] :: x in payloads;
  }

  /** Round trip of a whole stream of payloads, with any of the terminators and with
      or without a space behind the colon. */
  lemma StreamRoundTrip(payloads: seq<string>, sep: string, eol: string)
    requires Sep(sep) && Eol(eol) && forall x | x in payloads :: Carried(x, sep)
    ensures Drain(Fed(FRESH, EncodeAll(payloads, sep, eol))) == (payloads, FRESH)
  {
    hide Drain, EncodeAll, Expected, NoLineIndented;
    StreamReads(payloads, sep, eol);
    ExpectedUnchanged(payloads, sep);
  }

  /** The same, fed in chunks: any chunks that cut no CR LF pair, and so any chunks
      at all when lines end in a single character. */
  lemma ChunkedRoundTrip(payloads: seq<string>, sep: string, eol: string, chunks: seq<string>)
    requires Sep(sep) && Eol(eol) && forall x | x in payloads :: Carried(x, sep)
    requires Joined(chunks) == EncodeAll(payloads, sep, eol)
    requires eol == "\r\n" ==> NoPairSplit(FRESH, chunks)
    ensures DrainChunks(FRESH, chunks).0 == payloads && !DrainChunks(FRESH, chunks).1.done
  {
    hide Drain, DrainChunks, EncodeAll, Encode, SplitHurts, NoLineIndented;
    StreamRoundTrip(payloads, sep, eol);
    if eol != "\r\n" { SingleTerminators(payloads, sep, eol, chunks); }
    hide NoPairSplit;
    WholePairsAreHarmless(FRESH, chunks);
    DrainEmpty(FRESH);
    ChunkingIgnored(FRESH, chunks);
  }

  /** Text without CR, or without LF, holds no pair to cut. */
  lemma SingleTerminators(payloads: seq<string>, sep: string, eol: string, chunks: seq<string>)
    requires Sep(sep) && (eol == "\n" || eol == "\r") && forall x | x in payloads :: '\r' !in x
    requires Joined(chunks) == EncodeAll(payloads, sep, eol)
    ensures NoPairSplit(FRESH, chunks)
  {
    hide EncodeAll, Joined;
    OnlyOneTerminator(payloads, sep, eol);
    forall k | 0 <= k < |chunks| ensures !(EndsWithCr(FRESH.buffer + Joined(chunks[..k])) && StartsWithLf(chunks[k])) {
      var x, y := Joined(chunks[..k]), Joined(chunks[..k + 1]);
      JoinedPrefix(chunks, k);
      JoinedPrefix(chunks, k + 1);
      JoinedSnoc(chunks, k);
      assert FRESH.buffer + x == x;
      assert x != "" ==> x[|x| - 1] == Joined(chunks)[|x| - 1];
      assert chunks[k] != "" ==> chunks[k][0] == y[|x|] == Joined(chunks)[|x|];
    }
  }

  lemma JoinedSnoc(chunks: seq<string>, k: nat)
    requires k < |chunks|
    ensures Joined(chunks[..k + 1]) == Joined(chunks[..k]) + chunks[k]
  {
    assert chunks[..k + 1][..k] == chunks[..k];
  }

  lemma {:induction false} JoinedPrefix(chunks: seq<string>, k: nat)
    requires k <= |chunks|
    ensures Joined(chunks[..k]) <= Joined(chunks)
    decreases |chunks|
  {
    if k == |chunks| {
      assert chunks[..k] == chunks;
    } else {
      assert chunks[..|chunks| - 1][..k] == chunks[..k];
      JoinedPrefix(chunks[..|chunks| - 1], k);
    }
  }

  lemma EncodeIs(payload: string, sep: string, eol: string)
    ensures var i := LfAt(payload);
            Encode(payload, sep, eol)
            == "data:" + sep + payload[..i] + eol + (if i < |payload| then Encode(payload[i + 1..], sep, eol) else eol)
  {
    hide LfAt;
  }

  lemma NotInAny(sep: string, head: string, eol: string, tail: string, other: char)
    requires other !in "data:" && other !in sep && other !in head && other !in eol && other !in tail
    ensures other !in "data:" + sep + head + eol + tail
  {
  }

  lemma {:induction false} OneTerminatorIn(payload: string, sep: string, eol: string, other: char)
    requires Sep(sep) && '\r' !in payload && (eol == "\n" || eol == "\r") && other == (if eol == "\n" then '\r' else '\n')
    ensures other !in Encode(payload, sep, eol)
    decreases |payload|
  {
    hide Encode, LfAt;
    var i := LfAt(payload);
    var (head, tail) := (payload[..i], if i < |payload| then Encode(payload[i + 1..], sep, eol) else eol);
    EncodeIs(payload, sep, eol);
    if i < |payload| { OneTerminatorIn(payload[i + 1..], sep, eol, other); }
    NotInAny(sep, head, eol, tail, other);
  }

  lemma {:induction false} OnlyOneTerminator(payloads: seq<string>, sep: string, eol: string)
    requires Sep(sep) && (eol == "\n" || eol == "\r") && forall x | x in payloads :: '\r' !in x
    ensures (if eol == "\n" then '\r' else '\n') !in EncodeAll(payloads, sep, eol)
    decreases |payloads|
  {
    if payloads != [] {
      OneTerminatorIn(payloads[0], sep, eol, if eol == "\n" then '\r' else '\n');
      hide Encode;
      OnlyOneTerminator(payloads[1..], sep, eol);
    }
  }

  predicate NoCrNorEnd(event: string) {
    '\r' !in event && event != "[DONE]"
  }

  /** An event never holds a CR and is never the end marker. */
  lemma {:induction false} EventsAreCarried(p: Parser)
    requires '\r' !in p.data
    ensures forall e | e in Drain(p).0 :: NoCrNorEnd(e)
    decreases |p.buffer|
  {
    if !p.done && ExtractLine(p.buffer).Some? {
      var (line, rest) := ExtractLine(p.buffer).value;
      DrainLine(p, line, rest);
      assert '\r' !in line by {
        assert forall j | 0 <= j < |line| :: line[j] == p.buffer[j];
      }
      LineCarries(p.(buffer := rest), line);
      hide Drain, OnLine, LineEnd;
      EventsAreCarried(OnLine(p.(buffer := rest), line).1);
    }
  }

  lemma LineCarries(p: Parser, line: string)
    requires '\r' !in p.data && '\r' !in line
    ensures '\r' !in OnLine(p, line).1.data
    ensures OnLine(p, line).0.Some? ==> NoCrNorEnd(OnLine(p, line).0.value)
  {
    if "data:" <= line {
      var v := FieldValue(line);
      assert forall c | c in v :: c in line;
    }
  }

  /** A list of payloads comes back unchanged exactly when each of them can be
      carried. */
  lemma RoundTripIff(payloads: seq<string>, sep: string, eol: string)
    requires Sep(sep) && Eol(eol)
    ensures Drain(Fed(FRESH, EncodeAll(payloads, sep, eol))).0 == payloads <==> forall x | x in payloads :: Carried(x, sep)
  {
    hide Drain, EncodeAll, Expected, NoLineIndented;
    EventsAreCarried(Fed(FRESH, EncodeAll(payloads, sep, eol)));
    if forall x | x in payloads :: '\r' !in x {
      StreamReads(payloads, sep, eol);
      ExpectedUnchanged(payloads, sep);
    }
  }
}
