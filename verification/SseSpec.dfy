/** Server-sent events as SseParser.cpp reads them, over values: lines, the
    effect of one line, and draining everything a buffer holds. */
module SseSpec {
  import opened Basics

  /** The parser's fields. */
  datatype Parser = Parser(buffer: string, data: string, hasData: bool, done: bool)

  const FRESH := Parser("", "", false, false)

  predicate IsTerminator(c: char) {
    c == '\n' || c == '\r'
  }

  /** The position of the first line terminator, or the length. */
  function LineEnd(b: string): (i: nat)
    ensures i <= |b|
    ensures forall j | 0 <= j < i :: !IsTerminator(b[j])
    ensures i < |b| ==> IsTerminator(b[i])
  {
    if b == "" || IsTerminator(b[0]) then 0 else 1 + LineEnd(b[1..])
  }

  /** TryExtractLine: the first line and what remains. A CR LF pair is one
      terminator, but a CR at the very end of the buffer is taken at once. */
  function ExtractLine(b: string): Option<(string, string)> {
    var i := LineEnd(b);
    if i == |b| then None
    else
      var len := if b[i] == '\r' && i + 1 < |b| && b[i + 1] == '\n' then 2 else 1;
      Some((b[..i], b[i + len..]))
  }

  function FieldValue(line: string): string
    requires "data:" <= line
  {
    var v := line[5..];
    if v != "" && v[0] == ' ' then v[1..] else v
  }

  /** What one line does: it may complete an event, or end the stream. */
  function OnLine(p: Parser, line: string): (Option<string>, Parser) {
    if line == "" then
      if !p.hasData then (None, p)
      else if p.data == "[DONE]" then (None, p.(data := "", hasData := false, done := true))
      else (Some(p.data), p.(data := "", hasData := false))
    else if line[0] == ':' then (None, p)
    else if "data:" <= line then
      var v := FieldValue(line);
      (None, p.(data := (if p.hasData then p.data + "\n" else p.data) + v, hasData := true))
    else (None, p)
  }

  function EventList(e: Option<string>): seq<string> {
    if e.Some? then [e.value] else []
  }

  /** All events that can be read now, and the state afterwards. */
  function Drain(p: Parser): (seq<string>, Parser)
    decreases |p.buffer|
  {
    if p.done then ([], p)
    else match ExtractLine(p.buffer)
      case None => ([], p)
      case Some((line, rest)) =>
        var (e, q) := OnLine(p.(buffer := rest), line);
        var (es, r) := Drain(q);
        (EventList(e) + es, r)
  }

  function Fed(p: Parser, data: string): Parser {
    p.(buffer := p.buffer + data)
  }
}

/** Feeding a stream in chunks, draining after each. */
module SseChunks {
  import opened Basics
  import opened SseSpec

  /** Same events to come and same done flag; after the end the buffer no longer matters. */
  predicate Same(p: Parser, q: Parser) {
    p == q || (p.done && q.done)
  }

  predicate EndsWithCr(x: string) {
    x != "" && x[|x| - 1] == '\r'
  }

  predicate StartsWithLf(x: string) {
    x != "" && x[0] == '\n'
  }

  /** The parser stands between the CR and the LF of a pair while an event is
      being collected: reading the LF on its own would end that event early. */
  predicate SplitHurts(q: Parser, x: string) {
    EndsWithCr(x) && q.hasData && !q.done
  }

  lemma LineEndAppend(x: string, b: string)
    ensures LineEnd(x) < |x| ==> LineEnd(x + b) == LineEnd(x)
  {
    if x != "" && !IsTerminator(x[0]) {
      assert (x + b)[1..] == x[1..] + b;
      LineEndAppend(x[1..], b);
    }
  }

  /** The first line of x is also the first line of x + b, unless the LF of its
      terminator is still to come. */
  lemma ExtractAppend(x: string, b: string)
    requires ExtractLine(x).Some?
    ensures var (line, rest) := ExtractLine(x).value;
            if rest == "" && EndsWithCr(x) && StartsWithLf(b)
            then ExtractLine(x + b) == Some((line, b[1..]))
            else ExtractLine(x + b) == Some((line, rest + b))
  {
    var i := LineEnd(x);
    LineEndAppend(x, b);
    hide LineEnd;
    var y := x + b;
    assert y[..i] == x[..i] && y[i] == x[i];
    if i + 1 == |x| {
      assert x[i + 1..] == "" && y[i + 1..] == b && x[i + 1..] + b == b;
      assert b != "" ==> y[i + 1] == b[0] && y[i + 2..] == b[1..];
    } else {
      assert y[i + 1] == x[i + 1];
      assert y[i + 1..] == x[i + 1..] + b && y[i + 2..] == x[i + 2..] + b;
      assert x[i + 2..] == "" ==> x[|x| - 1] == x[i + 1];
      assert x[i + 1..] != "";
    }
  }

  lemma RestEnds(x: string)
    requires ExtractLine(x).Some? && ExtractLine(x).value.1 != ""
    ensures EndsWithCr(ExtractLine(x).value.1) <==> EndsWithCr(x)
  {
    var rest := ExtractLine(x).value.1;
    assert rest == x[|x| - |rest|..];
  }

  lemma DoneStays(p: Parser, b: string)
    requires p.done
    ensures Drain(Fed(p, b)) == ([], Fed(p, b))
  {
  }

  lemma OnLineKeepsBuffer(p: Parser, y: string, z: string, line: string)
    ensures OnLine(p.(buffer := y), line) ==
            (OnLine(p.(buffer := z), line).0, OnLine(p.(buffer := z), line).1.(buffer := y))
  {
  }

  /** One line of a drain. */
  lemma DrainLine(p: Parser, line: string, rest: string)
    requires !p.done && ExtractLine(p.buffer) == Some((line, rest))
    ensures var (e, q) := OnLine(p.(buffer := rest), line);
            Drain(p) == (EventList(e) + Drain(q).0, Drain(q).1) && q.buffer == rest
  {
  }

  lemma DrainNothing(p: Parser)
    requires p.done || ExtractLine(p.buffer).None?
    ensures Drain(p) == ([], p)
  {
  }

  /** Draining now and again after b is like draining once after b. */
  ghost predicate Twice(p: Parser, b: string) {
    var (e1, q) := Drain(p);
    var (e2, r) := Drain(Fed(q, b));
    var (e, s) := Drain(Fed(p, b));
    e == e1 + e2 && Same(s, r)
  }

  lemma TwiceLine(p: Parser, b: string, line: string, rest: string)
    requires !p.done && ExtractLine(p.buffer) == Some((line, rest)) && ExtractLine(p.buffer + b) == Some((line, rest + b))
    requires Twice(OnLine(p.(buffer := rest), line).1, b)
    ensures Twice(p, b)
  {
    hide Drain, ExtractLine, OnLine, LineEnd;
    DrainLine(p, line, rest);
    DrainLine(Fed(p, b), line, rest + b);
    OnLineKeepsBuffer(p, rest + b, rest, line);
  }

  lemma NothingToExtract()
    ensures ExtractLine("").None?
  {
  }

  lemma TwicePair(p: Parser, b: string, line: string)
    requires StartsWithLf(b) && !p.done
    requires ExtractLine(p.buffer) == Some((line, "")) && ExtractLine(p.buffer + b) == Some((line, b[1..]))
    requires EndsWithCr(p.buffer) && !SplitHurts(Drain(p).1, p.buffer)
    ensures Twice(p, b)
  {
    hide Drain, ExtractLine, OnLine, LineEnd;
    NothingToExtract();
    var p1 := OnLine(p.(buffer := ""), line).1;
    DrainLine(p, line, "");
    DrainNothing(p1);
    AfterCr(p1, b);
    DrainLine(Fed(p, b), line, b[1..]);
    OnLineKeepsBuffer(p, b[1..], "", line);
  }

  lemma {:induction false} DrainTwice(p: Parser, b: string)
    requires !(SplitHurts(Drain(p).1, p.buffer) && StartsWithLf(b))
    ensures Twice(p, b)
    decreases |p.buffer|
  {
    var x := p.buffer;
    if p.done || ExtractLine(x).None? {
      DrainNothing(p);
    } else {
      var (line, rest) := ExtractLine(x).value;
      ExtractAppend(x, b);
      if rest == "" && EndsWithCr(x) && StartsWithLf(b) {
        TwicePair(p, b, line);
      } else {
        if rest != "" { RestEnds(x); }
        DrainLine(p, line, rest);
        assert |rest| < |x|;
        hide Drain, ExtractLine, OnLine, LineEnd, Twice;
        DrainTwice(OnLine(p.(buffer := rest), line).1, b);
        TwiceLine(p, b, line, rest);
      }
    }
  }

  /** The LF of a split pair, read on its own while no event is being collected. */
  lemma AfterCr(p1: Parser, b: string)
    requires p1.buffer == "" && StartsWithLf(b) && (p1.done || !p1.hasData)
    ensures Drain(p1) == ([], p1)
    ensures var (e2, r) := Drain(Fed(p1, b));
            var (e, s) := Drain(p1.(buffer := b[1..]));
            e == e2 && Same(s, r)
  {
    assert Fed(p1, b).buffer == b;
    if !p1.done {
      assert ExtractLine(b) == Some(("", b[1..]));
      assert OnLine(p1.(buffer := b[1..]), "") == (None, p1.(buffer := b[1..]));
    }
  }

  /** Events and state after feeding chunks one at a time. */
  function DrainChunks(p: Parser, chunks: seq<string>): (seq<string>, Parser) {
    if chunks == [] then ([], p)
    else
      var n := |chunks| - 1;
      var (before, q) := DrainChunks(p, chunks[..n]);
      var (es, r) := Drain(Fed(q, chunks[n]));
      (before + es, r)
  }

  function Joined(chunks: seq<string>): string {
    if chunks == [] then "" else Joined(chunks[..|chunks| - 1]) + chunks[|chunks| - 1]
  }

  /** No chunk begins with the LF of a CR LF pair that hurts when split. */
  predicate HarmlessSplits(p: Parser, chunks: seq<string>) {
    forall k | 0 <= k < |chunks| ::
      !(SplitHurts(Drain(Fed(p, Joined(chunks[..k]))).1, Fed(p, Joined(chunks[..k])).buffer) && StartsWithLf(chunks[k]))
  }

  /** No chunk boundary falls inside a CR LF pair. */
  predicate NoPairSplit(p: Parser, chunks: seq<string>) {
    forall k | 0 <= k < |chunks| :: !(EndsWithCr(p.buffer + Joined(chunks[..k])) && StartsWithLf(chunks[k]))
  }

  lemma ChunkStep(p: Parser, chunks: seq<string>)
    requires chunks != []
    ensures var n := |chunks| - 1;
            var (before, q) := DrainChunks(p, chunks[..n]);
            && DrainChunks(p, chunks) == (before + Drain(Fed(q, chunks[n])).0, Drain(Fed(q, chunks[n])).1)
            && Joined(chunks) == Joined(chunks[..n]) + chunks[n]
  {
  }

  lemma PrefixHarmless(p: Parser, chunks: seq<string>)
    requires chunks != [] && HarmlessSplits(p, chunks)
    ensures var n := |chunks| - 1; var x := Fed(p, Joined(chunks[..n]));
            HarmlessSplits(p, chunks[..n]) && !(SplitHurts(Drain(x).1, x.buffer) && StartsWithLf(chunks[n]))
  {
    hide Drain, Joined, SplitHurts;
    var n := |chunks| - 1;
    assert forall k | 0 <= k < n :: chunks[..n][..k] == chunks[..k];
  }

  lemma ChunkingStep(p: Parser, chunks: seq<string>)
    requires chunks != []
    requires var x := Fed(p, Joined(chunks[..|chunks| - 1]));
             && Twice(x, chunks[|chunks| - 1])
             && DrainChunks(p, chunks[..|chunks| - 1]).0 == Drain(x).0
             && Same(DrainChunks(p, chunks[..|chunks| - 1]).1, Drain(x).1)
    ensures DrainChunks(p, chunks).0 == Drain(Fed(p, Joined(chunks))).0
    ensures Same(DrainChunks(p, chunks).1, Drain(Fed(p, Joined(chunks))).1)
  {
    hide Drain, DrainChunks, Joined;
    var n := |chunks| - 1;
    ChunkStep(p, chunks);
    var x := Fed(p, Joined(chunks[..n]));
    assert Fed(x, chunks[n]) == Fed(p, Joined(chunks));
    SameFed(DrainChunks(p, chunks[..n]).1, Drain(x).1, chunks[n]);
  }

  /** Chunking does not matter: the events, the done flag and, until the end of
      the stream, the whole state are those of feeding everything at once. */
  lemma {:induction false} ChunkingIgnored(p: Parser, chunks: seq<string>)
    requires Drain(p) == ([], p) && HarmlessSplits(p, chunks)
    ensures DrainChunks(p, chunks).0 == Drain(Fed(p, Joined(chunks))).0
    ensures DrainChunks(p, chunks).1.done == Drain(Fed(p, Joined(chunks))).1.done
    ensures Same(DrainChunks(p, chunks).1, Drain(Fed(p, Joined(chunks))).1)
    decreases |chunks|
  {
    if chunks == [] {
      assert Fed(p, "") == p;
    } else {
      var n := |chunks| - 1;
      hide Drain, DrainChunks, Joined, SplitHurts, Twice;
      PrefixHarmless(p, chunks);
      ChunkingIgnored(p, chunks[..n]);
      DrainTwice(Fed(p, Joined(chunks[..n])), chunks[n]);
      ChunkingStep(p, chunks);
    }
  }

  lemma SameFed(q: Parser, r: Parser, b: string)
    requires Same(q, r)
    ensures Drain(Fed(q, b)).0 == Drain(Fed(r, b)).0 && Same(Drain(Fed(q, b)).1, Drain(Fed(r, b)).1)
  {
    if q.done && r.done {
      DoneStays(q, b);
      DoneStays(r, b);
    }
  }

  lemma WholePairsAreHarmless(p: Parser, chunks: seq<string>)
    requires NoPairSplit(p, chunks)
    ensures HarmlessSplits(p, chunks)
  {
  }

  /** A CR at the end of the buffer already counts as a terminator, so the LF
      that completes the pair adds nothing when both are fed together. */
  lemma {:induction false} LfCompletesPair(p: Parser)
    requires EndsWithCr(p.buffer) && !Drain(p).1.done
    ensures Drain(Fed(p, "\n")) == Drain(p) && Drain(p).1.buffer == ""
    decreases |p.buffer|
  {
    var x := p.buffer;
    if LineEnd(x) < |x| {
      var (line, rest) := ExtractLine(x).value;
      var (e, p1) := OnLine(p.(buffer := rest), line);
      ExtractAppend(x, "\n");
      if rest == "" {
        assert "\n"[1..] == "";
      } else {
        RestEnds(x);
        LfCompletesPair(p1);
        assert OnLine(p.(buffer := rest + "\n"), line) == (e, Fed(p1, "\n"));
      }
    }
  }

  /** Whether a boundary is safe for every continuation is decided by the state
      in front of it: it is unsafe exactly when the last byte was a CR while an
      event is being collected. */
  lemma SafeForAllIff(p: Parser)
    ensures (forall b :: Drain(Fed(p, b)).0 == Drain(p).0 + Drain(Fed(Drain(p).1, b)).0
                         && Drain(Fed(p, b)).1.done == Drain(Fed(Drain(p).1, b)).1.done)
            <==> !SplitHurts(Drain(p).1, p.buffer)
  {
    var q := Drain(p).1;
    if SplitHurts(q, p.buffer) {
      LfCompletesPair(p);
      LfAlone(q);
      hide Drain;
      assert !(Drain(Fed(p, "\n")).0 == Drain(p).0 + Drain(Fed(q, "\n")).0
               && Drain(Fed(p, "\n")).1.done == Drain(Fed(q, "\n")).1.done);
    } else {
      hide Drain;
      forall b
        ensures Drain(Fed(p, b)).0 == Drain(p).0 + Drain(Fed(q, b)).0
        ensures Drain(Fed(p, b)).1.done == Drain(Fed(q, b)).1.done
      {
        DrainTwice(p, b);
      }
    }
  }

  lemma LfAlone(q: Parser)
    requires q.buffer == "" && q.hasData && !q.done
    ensures |Drain(Fed(q, "\n")).0| == 1 || Drain(Fed(q, "\n")).1.done
  {
    assert Fed(q, "\n").buffer == "\n" && "\n"[1..] == "";
    assert ExtractLine("\n") == Some(("", ""));
  }

  /** A chunking that shows it: the same bytes, one event against two. */
  lemma SplitPairExample()
    ensures Joined(["data: a\r", "\n"]) == "data: a\r\n"
    ensures DrainChunks(FRESH, ["data: a\r", "\n"]).0 == ["a"]
    ensures Drain(Fed(FRESH, "data: a\r\n")).0 == []
  {
    hide LineEnd, ExtractLine, OnLine, Drain;
    var x := "data: a\r";
    var chunks := [x, "\n"];
    assert chunks[..1] == [x] && [x][..0] == [];
    ChunkStep(FRESH, chunks);
    ChunkStep(FRESH, [x]);
    ExampleFirst();
    ExampleSecond();
    assert Fed(FRESH, x) == Parser(x, "", false, false);
    assert Fed(Parser("", "a", true, false), "\n") == Parser("\n", "a", true, false);
    assert DrainChunks(FRESH, []) == ([], FRESH);
    assert EndsWithCr(x);
    LfCompletesPair(Fed(FRESH, x));
    assert Fed(Fed(FRESH, x), "\n") == Fed(FRESH, "data: a\r\n");
  }

  lemma ExampleFirst()
    ensures Drain(Parser("data: a\r", "", false, false)) == ([], Parser("", "a", true, false))
  {
    var x := "data: a\r";
    hide LineEnd, Drain;
    EndAt(x, 7);
    assert x[..7] == "data: a" && x[8..] == "";
    assert ExtractLine(x) == Some(("data: a", ""));
    DataLine(Parser("", "", false, false), "a");
    assert "data: " + "a" == "data: a" && "" + "a" == "a";
    hide ExtractLine, OnLine;
    DrainLine(Parser(x, "", false, false), "data: a", "");
    DrainEmpty(Parser("", "a", true, false));
    assert Parser(x, "", false, false).(buffer := "") == Parser("", "", false, false);
    assert EventList(None) + [] == [];
  }

  lemma DrainEmpty(p: Parser)
    requires p.buffer == ""
    ensures Drain(p) == ([], p)
  {
  }

  /** A data line adds its value to the event being collected. */
  lemma DataLine(p: Parser, v: string)
    ensures OnLine(p, "data: " + v) == (None, p.(data := (if p.hasData then p.data + "\n" else p.data) + v, hasData := true))
  {
    var line := "data: " + v;
    assert line[..5] == "data:";
    assert line[5..] == " " + v;
  }

  lemma ExampleSecond()
    ensures Drain(Parser("\n", "a", true, false)).0 == ["a"]
  {
    assert "\n"[1..] == "" && ExtractLine("\n") == Some(("", ""));
    DrainLine(Parser("\n", "a", true, false), "", "");
  }

  lemma {:induction false} EndAt(x: string, i: nat)
    requires i < |x| && IsTerminator(x[i]) && forall j | 0 <= j < i :: !IsTerminator(x[j])
    ensures LineEnd(x) == i
  {
  }
}
