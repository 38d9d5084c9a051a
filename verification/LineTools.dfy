/** Splitting text into lines and putting lines back together. */
module Lines {
  import opened Text

  /** LF ends a line, one CR before it is dropped, and a last line needs no
      LF. */
  function LinesOf(text: string): seq<string>
    decreases |text|
  {
    if text == "" then []
    else
      var i := LfAt(text);
      if i == |text| then [ChopCr(text)] else [ChopCr(text[..i])] + LinesOf(text[i + 1..])
  }

  function Terminated(lines: seq<string>): string
    decreases |lines|
  {
    if lines == [] then "" else lines[0] + "\n" + Terminated(lines[1..])
  }

  function Joined(lines: seq<string>): string
    decreases |lines|
  {
    if lines == [] then ""
    else if |lines| == 1 then lines[0]
    else lines[0] + "\n" + Joined(lines[1..])
  }

  predicate Clean(line: string) {
    '\n' !in line && (line == "" || line[|line| - 1] != '\r')
  }

  /** What SplitLines of the tools has collected once its loop ends: the pieces
      between LFs. */
  function Pieces(text: string): (r: seq<string>)
    ensures r != []
    decreases |text|
  {
    var i := LfAt(text);
    if i == |text| then [ChopCr(text)] else [ChopCr(text[..i])] + Pieces(text[i + 1..])
  }

  predicate EndsInLf(text: string) {
    text != "" && text[|text| - 1] == '\n'
  }

  lemma PiecesStep(rest: string)
    ensures var i := LfAt(rest);
            Pieces(rest) == if i == |rest| then [ChopCr(rest)] else [ChopCr(rest[..i])] + Pieces(rest[i + 1..])
  {
    hide LfAt, ChopCr;
  }

  lemma LinesStep(text: string)
    requires text != ""
    ensures var i := LfAt(text);
            LinesOf(text) == if i == |text| then [ChopCr(text)] else [ChopCr(text[..i])] + LinesOf(text[i + 1..])
  {
    hide LfAt, ChopCr;
  }

  lemma NoLfAtEnd(text: string)
    requires LfAt(text) == |text|
    ensures !EndsInLf(text)
  {
  }

  /** The last piece of text ending in LF is empty, and is the one piece that
      is not a line. */
  lemma {:induction false} PiecesAreLines(text: string)
    requires text != ""
    ensures LinesOf(text) == if EndsInLf(text) then Pieces(text)[..|Pieces(text)| - 1] else Pieces(text)
    ensures EndsInLf(text) ==> Pieces(text)[|Pieces(text)| - 1] == ""
    decreases |text|
  {
    hide LfAt, ChopCr, LinesOf, Pieces;
    PiecesStep(text);
    LinesStep(text);
    var i := LfAt(text);
    if i == |text| {
      NoLfAtEnd(text);
    } else {
      var rest, first := text[i + 1..], [ChopCr(text[..i])];
      if rest == "" {
        NoPieces();
        NoLines();
        assert text[|text| - 1] == '\n';
        assert (first + [""])[..1] == first;
      } else {
        PiecesAreLines(rest);
        assert rest[|rest| - 1] == text[|text| - 1];
        var p := Pieces(rest);
        assert (first + p)[..|p|] == first + p[..|p| - 1];
      }
    }
  }

  lemma NoPieces()
    ensures Pieces("") == [""]
  {
  }

  /** lines holds the pieces of text[..pos]. */
  ghost predicate SplitSoFar(text: string, pos: nat, lines: seq<string>) {
    pos <= |text| && lines + Pieces(text[pos..]) == Pieces(text)
  }

  lemma SplitBegins(text: string)
    ensures SplitSoFar(text, 0, [])
  {
    hide Pieces;
    assert text[0..] == text && [] + Pieces(text) == Pieces(text);
  }

  lemma SplitGoesOn(text: string, pos: nat, lines: seq<string>)
    requires SplitSoFar(text, pos, lines)
    ensures var rest := text[pos..];
            var next := LfAt(rest);
            if next == |rest| then lines + [ChopCr(rest[..next])] == Pieces(text)
            else SplitSoFar(text, pos + next + 1, lines + [ChopCr(rest[..next])])
  {
    hide LfAt, ChopCr, Pieces;
    var rest := text[pos..];
    var next := LfAt(rest);
    PiecesStep(rest);
    if next == |rest| {
      assert rest[..next] == rest;
    } else {
      Shift(lines, ChopCr(rest[..next]), Pieces(rest[next + 1..]));
      assert rest[next + 1..] == text[pos + next + 1..];
    }
  }

  /** SplitLines of ToolOutput.cpp. */
  method SplitLines(text: string) returns (lines: seq<string>)
    ensures lines == LinesOf(text)
  {
    hide LfAt, ChopCr, LinesOf, Pieces, SplitSoFar;
    lines := [];
    if text == "" {
      NoLines();
      return;
    }
    var pos := 0;
    SplitBegins(text);
    while pos <= |text|
      invariant 0 <= pos <= |text| && SplitSoFar(text, pos, lines)
      decreases |text| - pos
    {
      SplitGoesOn(text, pos, lines);
      var rest := text[pos..];
      var next := LfAt(rest);
      lines := lines + [ChopCr(rest[..next])];
      if next == |rest| { break; }
      pos := pos + next + 1;
    }
    PiecesAreLines(text);
    if lines[|lines| - 1] == "" && text[|text| - 1] == '\n' {
      lines := lines[..|lines| - 1];
    }
  }

  lemma NoLines()
    ensures LinesOf("") == []
  {
  }

  lemma Shift(a: seq<string>, x: string, b: seq<string>)
    ensures a + ([x] + b) == (a + [x]) + b
  {
  }

  // ------------------------------------------------------------------
  // Round trips
  // ------------------------------------------------------------------

  lemma CleanIs(line: string)
    ensures Clean(line) <==> '\n' !in line && ChopCr(line) == line
  {
  }

  lemma FirstLine(line: string, rest: string)
    requires '\n' !in line
    ensures LinesOf(line + "\n" + rest) == [ChopCr(line)] + LinesOf(rest)
  {
    var text := line + "\n" + rest;
    LfAtIs(text, |line|);
    hide LfAt, ChopCr;
    assert text[..|line|] == line && text[|line| + 1..] == rest;
  }

  lemma {:induction false} TerminatedSplits(lines: seq<string>)
    requires forall l | l in lines :: Clean(l)
    ensures LinesOf(Terminated(lines)) == lines
    decreases |lines|
  {
    hide LinesOf, LfAt, ChopCr;
    if lines == [] {
      NoLines();
    } else {
      assert lines[0] in lines;
      CleanIs(lines[0]);
      FirstLine(lines[0], Terminated(lines[1..]));
      TerminatedSplits(lines[1..]);
      assert [lines[0]] + lines[1..] == lines;
    }
  }

  lemma {:induction false} LinesHaveNoLf(text: string)
    ensures forall l | l in LinesOf(text) :: '\n' !in l
    decreases |text|
  {
    if text != "" && LfAt(text) < |text| {
      LinesHaveNoLf(text[LfAt(text) + 1..]);
    }
  }

  lemma {:induction false} ReadBackMeansClean(lines: seq<string>)
    requires LinesOf(Terminated(lines)) == lines
    ensures forall l | l in lines :: Clean(l)
    decreases |lines|
  {
    hide LinesOf, LfAt, ChopCr;
    if lines != [] {
      LinesHaveNoLf(Terminated(lines));
      assert lines[0] in lines;
      var rest := lines[1..];
      FirstLine(lines[0], Terminated(rest));
      assert LinesOf(Terminated(rest)) == LinesOf(Terminated(lines))[1..] == rest;
      assert ChopCr(lines[0]) == LinesOf(Terminated(lines))[0];
      ReadBackMeansClean(rest);
      CleanIs(lines[0]);
      forall l | l in lines ensures Clean(l) {
        if l != lines[0] { assert l in rest; }
      }
    }
  }

  /** Lines written with terminators are read back exactly when none of them
      contains LF or ends in CR. */
  lemma TerminatedSplitsIff(lines: seq<string>)
    ensures LinesOf(Terminated(lines)) == lines <==> forall l | l in lines :: Clean(l)
  {
    hide LinesOf, Terminated, Clean;
    if forall l | l in lines :: Clean(l) {
      TerminatedSplits(lines);
    }
    if LinesOf(Terminated(lines)) == lines {
      ReadBackMeansClean(lines);
    }
  }

  /** Every line with CR behind it. */
  function WithCr(lines: seq<string>): (r: seq<string>)
    ensures |r| == |lines|
  {
    seq(|lines|, i requires 0 <= i < |lines| => lines[i] + "\r")
  }

  lemma OneCrGoes(line: string)
    ensures ChopCr(line + "\r") == line
  {
  }

  /** Lines written with CR LF are read back whenever none contains LF, also lines that
      end in a CR of their own: exactly one is dropped. */
  lemma {:induction false} CrLfSplits(lines: seq<string>)
    requires forall l | l in lines :: '\n' !in l
    ensures LinesOf(Terminated(WithCr(lines))) == lines
    decreases |lines|
  {
    hide LinesOf, LfAt, ChopCr;
    if lines == [] {
      NoLines();
    } else {
      assert lines[0] in lines;
      OneCrGoes(lines[0]);
      assert WithCr(lines)[1..] == WithCr(lines[1..]);
      FirstLine(lines[0] + "\r", Terminated(WithCr(lines[1..])));
      CrLfSplits(lines[1..]);
      assert [lines[0]] + lines[1..] == lines;
    }
  }

  lemma OneLine(line: string)
    requires Clean(line)
    ensures LinesOf(line) == if line == "" then [] else [line]
  {
    LfAtIs(line, |line|);
    hide LfAt;
  }

  /** Joining without a last LF loses an empty last line, and only that. */
  lemma {:induction false} JoinedSplits(lines: seq<string>)
    requires forall l | l in lines :: Clean(l)
    ensures LinesOf(Joined(lines)) == if lines == [] || lines[|lines| - 1] != "" then lines else lines[..|lines| - 1]
    decreases |lines|
  {
    hide LinesOf, LfAt, ChopCr;
    if lines == [] {
      NoLines();
    } else {
      assert lines[0] in lines;
      CleanIs(lines[0]);
      if |lines| == 1 {
        OneLine(lines[0]);
      } else {
        var first, rest := [lines[0]], lines[1..];
        FirstLine(lines[0], Joined(rest));
        assert Joined(lines) == lines[0] + "\n" + Joined(rest);
        hide Joined, Clean;
        JoinedSplits(rest);
        assert rest[|rest| - 1] == lines[|lines| - 1];
        assert first + rest == lines && first + rest[..|rest| - 1] == lines[..|lines| - 1];
      }
    }
  }

  lemma LoneLineClean(line: string)
    requires '\n' !in line && LinesOf(line) == [line]
    ensures Clean(line)
  {
    LfAtIs(line, |line|);
    hide LfAt, ChopCr;
  }

  lemma {:induction false} JoinedBackMeansClean(lines: seq<string>)
    requires LinesOf(Joined(lines)) == lines
    ensures forall l | l in lines :: Clean(l)
    decreases |lines|
  {
    hide LinesOf, LfAt, ChopCr;
    if lines != [] {
      LinesHaveNoLf(Joined(lines));
      assert lines[0] in lines;
      if |lines| == 1 {
        LoneLineClean(lines[0]);
      } else {
        var rest := lines[1..];
        FirstLine(lines[0], Joined(rest));
        assert LinesOf(Joined(rest)) == LinesOf(Joined(lines))[1..] == rest;
        assert ChopCr(lines[0]) == LinesOf(Joined(lines))[0];
        JoinedBackMeansClean(rest);
        CleanIs(lines[0]);
        forall l | l in lines ensures Clean(l) {
          if l != lines[0] { assert l in rest; }
        }
      }
    }
  }

  /** Lines joined by LF are read back exactly when none of them contains LF or ends
      in CR, and the last one, if any, is not empty. */
  lemma JoinedSplitsIff(lines: seq<string>)
    ensures LinesOf(Joined(lines)) == lines
        <==> (forall l | l in lines :: Clean(l)) && (lines == [] || lines[|lines| - 1] != "")
  {
    hide LinesOf, Joined, Clean;
    if forall l | l in lines :: Clean(l) { JoinedSplits(lines); }
    if LinesOf(Joined(lines)) == lines { JoinedBackMeansClean(lines); }
  }

  lemma {:induction false} TerminatedConcat(a: seq<string>, b: seq<string>)
    ensures Terminated(a + b) == Terminated(a) + Terminated(b)
    decreases |a|
  {
    if a == [] {
      assert a + b == b;
    } else {
      TerminatedConcat(a[1..], b);
      assert (a + b)[1..] == a[1..] + b;
    }
  }

  lemma TerminatedOne(line: string)
    ensures Terminated([line]) == line + "\n"
  {
    assert [line][1..] == [];
    assert line + "\n" + "" == line + "\n";
  }
}

/** Numbered pages of a file and the cut of long output. */
module ToolOutput {
  import opened Basics
  import opened Text
  import opened Lines

  const LINE_NOTICE := "... [line truncated]"
  const MAX_OUTPUT_CHARS: nat := 50000
  const MAX_LINE_CHARS: nat := 2000
  const MAX_READ_LINES: int := 1000

  function Digit(d: nat): char
    requires d < 10
  {
    "0123456789"[d]
  }

  function Decimal(n: nat): string {
    if n < 10 then [Digit(n)] else Decimal(n / 10) + [Digit(n % 10)]
  }

  function Numeral(n: int): string {
    if n < 0 then "-" + Decimal(-n) else Decimal(n)
  }

  /** The number that decimal digits stand for. */
  function NumberOf(digits: string): int {
    if digits == "" then 0 else 10 * NumberOf(digits[..|digits| - 1]) + (digits[|digits| - 1] as int - '0' as int)
  }

  /** Decimal digits of n, without leading zeros. */
  predicate Writes(digits: string, n: nat) {
    && digits != "" && (forall c | c in digits :: '0' <= c <= '9')
    && NumberOf(digits) == n && (digits[0] == '0' ==> digits == "0")
  }

  lemma DigitIs(d: nat)
    requires d < 10
    ensures Digit(d) as int == '0' as int + d && '0' <= Digit(d) <= '9'
  {
    assert "0123456789"[d] as int == 48 + d;
  }

  lemma {:induction false} DecimalWrites(n: nat)
    ensures Writes(Decimal(n), n)
    decreases n
  {
    hide Digit;
    DigitIs(n % 10);
    if n >= 10 {
      DecimalWrites(n / 10);
      assert Decimal(n)[..|Decimal(n)| - 1] == Decimal(n / 10);
    } else {
      assert NumberOf("") == 0 && [Digit(n)][..0] == "";
    }
  }

  lemma NumeralIs(n: int) returns (digits: string)
    ensures Writes(digits, if n < 0 then -n else n) && Numeral(n) == if n < 0 then "-" + digits else digits
  {
    DecimalWrites(if n < 0 then -n else n);
    digits := Decimal(if n < 0 then -n else n);
    hide Decimal, Writes;
  }

  function NumberedLine(n: int, line: string): string {
    Numeral(n) + "\t" + line
  }

  /** The lines with their numbers in front. */
  function NumberedFrom(lines: seq<string>, start: int): (r: seq<string>)
    ensures |r| == |lines|
  {
    seq(|lines|, i requires 0 <= i < |lines| => NumberedLine(start + i, lines[i]))
  }

  /** Every line stands, unchanged, behind its own number and a tab. */
  lemma NumberedIs(lines: seq<string>, start: nat, i: nat) returns (digits: string)
    requires i < |lines|
    ensures Writes(digits, start + i) && NumberedFrom(lines, start)[i] == digits + "\t" + lines[i]
  {
    DecimalWrites(start + i);
    digits := Decimal(start + i);
    hide Decimal, Writes;
  }

  method NumberLines(lines: seq<string>, start: int) returns (out: string)
    ensures out == Terminated(NumberedFrom(lines, start))
  {
    hide NumberedLine, Terminated;
    out := "";
    NothingTerminated();
    assert NumberedFrom(lines[..0], start) == [];
    for i := 0 to |lines|
      invariant out == Terminated(NumberedFrom(lines[..i], start))
    {
      ghost var done, line := NumberedFrom(lines[..i], start), NumberedLine(start + i, lines[i]);
      assert NumberedFrom(lines[..i + 1], start) == done + [line];
      TerminatedConcat(done, [line]);
      TerminatedOne(line);
      out := out + (NumberedLine(start + i, lines[i]) + "\n");
    }
    assert lines[..|lines|] == lines;
  }

  lemma NothingTerminated()
    ensures Terminated([]) == ""
  {
  }

  // ------------------------------------------------------------------
  // Truncation
  // ------------------------------------------------------------------

  function Clip(line: string, width: nat): string {
    if |line| > width then line[..width] + LINE_NOTICE else line
  }

  function Clipped(lines: seq<string>, width: nat): (r: seq<string>)
    ensures |r| == |lines|
  {
    seq(|lines|, i requires 0 <= i < |lines| => Clip(lines[i], width))
  }

  function ChopLf(text: string): string {
    if EndsInLf(text) then text[..|text| - 1] else text
  }

  function Notice(max: nat): string {
    "\n... [output truncated at " + Numeral(max) + " chars]"
  }

  /** What truncation leaves of clipped lines: all of them while they stay
      below max characters, and otherwise the first max characters, without an
      LF at the cut. */
  function Fitted(lines: seq<string>, max: nat): string {
    var whole := Terminated(lines);
    if lines == [] || |whole| < max then whole
    else ChopLf(whole[..max]) + Notice(max)
  }

  function Truncated(output: string, max: nat, width: nat): string {
    Fitted(Clipped(LinesOf(output), width), max)
  }

  /** A longer line keeps its first width characters, and says so. */
  lemma ClipIs(line: string, width: nat)
    ensures if |line| <= width then Clip(line, width) == line
            else |Clip(line, width)| == width + 20 && Clip(line, width)[..width] == line[..width]
                 && Clip(line, width)[width..] == "... [line truncated]"
  {
  }

  /** The notice names the limit. */
  lemma NoticeIs(max: nat) returns (digits: string)
    ensures Writes(digits, max) && Notice(max) == "\n... [output truncated at " + digits + " chars]"
  {
    DecimalWrites(max);
    digits := Decimal(max);
    hide Decimal, Writes;
  }

  method ClipLines(lines0: seq<string>, width: nat) returns (lines: seq<string>)
    ensures lines == Clipped(lines0, width)
  {
    lines := lines0;
    var i := 0;
    while i < |lines|
      invariant 0 <= i <= |lines| == |lines0|
      invariant forall k | 0 <= k < i :: lines[k] == Clip(lines0[k], width)
      invariant forall k | i <= k < |lines| :: lines[k] == lines0[k]
    {
      if |lines[i]| > width {
        lines := lines[i := lines[i][..width]];
        lines := lines[i := lines[i] + LINE_NOTICE];
      }
      i := i + 1;
    }
  }

  /** The line at which the output is cut. */
  lemma CutAt(done: seq<string>, line: string, rest: seq<string>, max: nat)
    requires '\n' !in line && (done == [] || |Terminated(done)| < max)
    requires |Terminated(done)| + |line| + 1 >= max
    ensures |Terminated(done)| <= max
    ensures Fitted(done + ([line] + rest), max)
         == Terminated(done) + line[..Min(max - |Terminated(done)|, |line|)] + Notice(max)
  {
    hide Notice;
    var joined := Terminated(done);
    var whole := Terminated(done + ([line] + rest));
    TerminatedConcat(done, [line] + rest);
    assert ([line] + rest)[1..] == rest;
    assert whole == joined + (line + "\n" + Terminated(rest));
    NothingTerminated();
    hide Terminated;
    CutWithin(joined, line, Terminated(rest), max);
    assert done + ([line] + rest) != [];
  }

  lemma CutWithin(joined: string, line: string, rest: string, max: nat)
    requires '\n' !in line && max <= |joined| + |line| + 1
    requires joined == "" || |joined| < max
    ensures ChopLf((joined + (line + "\n" + rest))[..max]) == joined + line[..Min(max - |joined|, |line|)]
  {
  }

  lemma LineFits(done: seq<string>, line: string, rest: seq<string>, max: nat)
    ensures done + ([line] + rest) == (done + [line]) + rest
    ensures Terminated(done + [line]) == Terminated(done) + line + "\n"
  {
    TerminatedConcat(done, [line]);
    TerminatedOne(line);
  }

  lemma ClippedHaveNoLf(lines: seq<string>, width: nat)
    requires forall l | l in lines :: '\n' !in l
    ensures forall l | l in Clipped(lines, width) :: '\n' !in l
  {
    forall i: nat | i < |lines| ensures '\n' !in Clipped(lines, width)[i] {
      assert lines[i] in lines;
    }
  }

  /** The joining loop; the subtraction of unsigned sizes never wraps. */
  method FitLines(lines: seq<string>, max: nat) returns (joined: string)
    requires forall l | l in lines :: '\n' !in l
    ensures joined == Fitted(lines, max)
  {
    hide Notice, Terminated, Fitted;
    joined := "";
    NothingTerminated();
    for i := 0 to |lines|
      invariant joined == Terminated(lines[..i]) && (lines[..i] == [] || |joined| < max)
    {
      var line := lines[i];
      assert line in lines;
      assert lines == lines[..i] + ([line] + lines[i + 1..]);
      if |joined| + |line| + 1 >= max {
        joined := CutLine(lines[..i], line, lines[i + 1..], joined, max);
        return;
      }
      LineFits(lines[..i], line, lines[i + 1..], max);
      assert lines[..i + 1] == lines[..i] + [line];
      joined := joined + line;
      joined := joined + "\n";
    }
    assert lines[..|lines|] == lines;
    AllFit(lines, max);
  }

  method CutLine(ghost done: seq<string>, line: string, ghost rest: seq<string>, joined0: string, max: nat)
    returns (joined: string)
    requires joined0 == Terminated(done) && '\n' !in line && (done == [] || |joined0| < max)
    requires |joined0| + |line| + 1 >= max
    ensures joined == Fitted(done + ([line] + rest), max)
  {
    hide Notice, Terminated, Fitted;
    CutAt(done, line, rest, max);
    var remaining: nat := max - |joined0|;
    joined := joined0;
    if remaining > 0 {
      joined := joined + line[..Min(remaining, |line|)];
    } else {
      assert joined0 + line[..0] == joined0;
    }
    joined := joined + Notice(max);
  }

  method TruncateOutput(output: string, max: nat, width: nat) returns (r: string)
    ensures r == Truncated(output, max, width)
  {
    LinesHaveNoLf(output);
    hide LinesOf, Fitted, Clipped;
    var lines := SplitLines(output);
    ClippedHaveNoLf(lines, width);
    lines := ClipLines(lines, width);
    r := FitLines(lines, max);
  }

  lemma AllFit(lines: seq<string>, max: nat)
    requires lines == [] || |Terminated(lines)| < max
    ensures Fitted(lines, max) == Terminated(lines)
  {
  }

  /** Output is cut when its clipped lines reach max characters; what is kept
      is their beginning before the notice: max characters, or one less when the last
      of them would be an LF. */
  lemma TruncatedBound(output: string, max: nat, width: nat) returns (kept: string)
    ensures var whole := Terminated(Clipped(LinesOf(output), width));
            && kept <= whole
            && if |whole| < max || output == "" then Truncated(output, max, width) == kept == whole
               else Truncated(output, max, width) == kept + Notice(max) && max - 1 <= |kept| <= max <= |whole|
                    && (max > 0 ==> (|kept| == max <==> whole[max - 1] != '\n'))
  {
    hide LinesOf, Notice;
    LinesIfAny(output);
    var lines := Clipped(LinesOf(output), width);
    NothingTerminated();
    hide Terminated, Clipped;
    var whole := Terminated(lines);
    kept := if lines == [] || |whole| < max then whole else ChopLf(whole[..max]);
  }

  lemma LinesIfAny(output: string)
    ensures LinesOf(output) == [] <==> output == ""
  {
    hide LfAt, ChopCr;
  }

  lemma NothingClipped(lines: seq<string>, width: nat)
    requires forall l | l in lines :: |l| <= width
    ensures Clipped(lines, width) == lines
  {
  }

  /** Output that stays below the limits passes through unchanged when its lines are
      as the tools write them. */
  lemma ShownWhole(lines: seq<string>, max: nat, width: nat)
    requires forall l | l in lines :: Clean(l) && |l| <= width
    requires |Terminated(lines)| < max
    ensures Truncated(Terminated(lines), max, width) == Terminated(lines)
  {
    hide Terminated, Clean, LinesOf, Notice;
    TerminatedSplits(lines);
    NothingClipped(lines, width);
  }

  // ------------------------------------------------------------------
  // Pages
  // ------------------------------------------------------------------

  /** The first and the end index of what a read shows. */
  function StartIndex(total: nat, lineOffset: int): (i: nat)
    ensures i <= total
  {
    if lineOffset > 0 then Min(lineOffset - 1, total)
    else if lineOffset < 0 then Max(total + lineOffset, 0)
    else 0
  }

  function EndIndex(total: nat, start: nat, nLines: int): (i: nat)
    requires start <= total
    ensures start <= i <= total
  {
    if nLines > 0 then Min(start + Min(nLines, MAX_READ_LINES), total) else total
  }

  /** The numbered lines a read shows before output is cut. */
  function Page(lines: seq<string>, lineOffset: int, nLines: int): string {
    var start := StartIndex(|lines|, lineOffset);
    Terminated(NumberedFrom(lines[start..EndIndex(|lines|, start, nLines)], start + 1))
  }

  datatype ReadOutcome = NoHost | PathRequired | Unreadable | Binary | Shown(content: string)

  /** ReadFileTool::Execute; file is None when it cannot be read. */
  method ReadFile(host: bool, path: string, lineOffset: int, nLines0: int, file: Option<string>)
    returns (r: ReadOutcome)
    ensures r == if !host then NoHost else if path == "" then PathRequired
                 else if file.None? then Unreadable else if '\0' in file.value then Binary
                 else Shown(Truncated(Page(LinesOf(file.value), lineOffset, nLines0), 50000, 2000))
  {
    hide LinesOf, Truncated, NumberedFrom, Terminated;
    if !host { return NoHost; }
    if path == "" { return PathRequired; }
    var nLines := nLines0;
    if nLines > MAX_READ_LINES { nLines := MAX_READ_LINES; }
    if file.None? { return Unreadable; }
    if '\0' in file.value { return Binary; }
    var lines := SplitLines(file.value);
    var total := |lines|;
    var startIdx := 0;
    if lineOffset > 0 {
      startIdx := lineOffset - 1;
    } else if lineOffset < 0 {
      startIdx := total + lineOffset;
    }
    if startIdx < 0 { startIdx := 0; }
    if startIdx > total { startIdx := total; }
    var endIdx := total;
    if nLines > 0 { endIdx := Min(startIdx + nLines, total); }
    var out := NumberLines(lines[startIdx..endIdx], startIdx + 1);
    out := TruncateOutput(out, MAX_OUTPUT_CHARS, MAX_LINE_CHARS);
    r := Shown(out);
  }

  /** Line k, counted from 0, lies in front of the offset; a negative offset counts from
      the end of the file. */
  predicate InFront(total: nat, lineOffset: int, k: nat) {
    (lineOffset > 0 && k + 1 < lineOffset) || (lineOffset < 0 && total - k > -lineOffset)
  }

  /** A page leaves out the lines in front of the offset, and no other, and shows the
      others up to the asked number of lines, at most 1000, or all if none is asked. */
  lemma PageShows(lines: seq<string>, lineOffset: int, nLines: int) returns (a: nat, b: nat)
    ensures a <= b <= |lines| && Page(lines, lineOffset, nLines) == Terminated(NumberedFrom(lines[a..b], a + 1))
    ensures forall k: nat | k < |lines| :: k < a <==> InFront(|lines|, lineOffset, k)
    ensures nLines <= 0 ==> b == |lines|
    ensures nLines > 0 ==> b - a <= nLines && b - a <= 1000 && (b < |lines| ==> b - a == nLines || b - a == 1000)
  {
    hide Terminated, NumberedFrom;
    a := StartIndex(|lines|, lineOffset);
    b := EndIndex(|lines|, a, nLines);
  }

  lemma {:induction false} DecimalIsDigits(n: nat)
    ensures forall c | c in Decimal(n) :: '0' <= c <= '9'
  {
    if n >= 10 { DecimalIsDigits(n / 10); }
  }

  lemma NumberedLineClean(n: int, line: string)
    requires Clean(line)
    ensures Clean(NumberedLine(n, line))
  {
    DecimalIsDigits(if n < 0 then -n else n);
    hide Decimal;
    var whole := NumberedLine(n, line);
    assert whole[|whole| - 1] == if line == "" then '\t' else line[|line| - 1];
  }

  /** Line i has no CR of its own at the end and is short enough behind its number. */
  predicate PlainLine(lines: seq<string>, i: nat)
    requires i < |lines|
  {
    Clean(lines[i]) && |NumberedLine(i + 1, lines[i])| <= MAX_LINE_CHARS
  }

  /** A page is shown as it is when it is short enough and its lines fit. */
  lemma PageShownWhole(lines: seq<string>, lineOffset: int, nLines: int)
    requires var start := StartIndex(|lines|, lineOffset);
             forall i | start <= i < EndIndex(|lines|, start, nLines) :: PlainLine(lines, i)
    requires |Page(lines, lineOffset, nLines)| < MAX_OUTPUT_CHARS
    ensures Truncated(Page(lines, lineOffset, nLines), MAX_OUTPUT_CHARS, MAX_LINE_CHARS) == Page(lines, lineOffset, nLines)
  {
    hide Clean, NumberedLine, Truncated, Terminated;
    var start := StartIndex(|lines|, lineOffset);
    var shown := lines[start..EndIndex(|lines|, start, nLines)];
    var numbered := NumberedFrom(shown, start + 1);
    forall l | l in numbered ensures Clean(l) && |l| <= MAX_LINE_CHARS {
      var i :| 0 <= i < |numbered| && numbered[i] == l;
      assert shown[i] == lines[start + i] && PlainLine(lines, start + i);
      NumberedLineClean(start + 1 + i, shown[i]);
    }
    ShownWhole(numbered, MAX_OUTPUT_CHARS, MAX_LINE_CHARS);
  }

  /** The pages of n lines that follow the first at lines. */
  function Pages(lines: seq<string>, n: int, at: nat): string
    requires 1 <= n
    decreases |lines| - at
  {
    if at >= |lines| then "" else Page(lines, at + 1, n) + Pages(lines, n, at + n)
  }

  lemma NumberedSplit(lines: seq<string>, a: nat, b: nat)
    requires a <= b <= |lines|
    ensures NumberedFrom(lines[a..], a + 1) == NumberedFrom(lines[a..b], a + 1) + NumberedFrom(lines[b..], b + 1)
  {
    hide NumberedLine;
    assert lines[a..] == lines[a..b] + lines[b..];
  }

  lemma {:induction false} PagesFrom(lines: seq<string>, n: int, at: nat)
    requires 1 <= n <= MAX_READ_LINES && at <= |lines|
    ensures Pages(lines, n, at) == Terminated(NumberedFrom(lines[at..], at + 1))
    decreases |lines| - at
  {
    hide NumberedFrom, Terminated;
    if at == |lines| {
      NothingTerminated();
      NothingNumbered(lines[at..], at + 1);
    } else {
      var b := Min(at + n, |lines|);
      NumberedSplit(lines, at, b);
      TerminatedConcat(NumberedFrom(lines[at..b], at + 1), NumberedFrom(lines[b..], b + 1));
      if at + n <= |lines| {
        PagesFrom(lines, n, at + n);
      } else {
        NothingTerminated();
        NothingNumbered(lines[b..], b + 1);
      }
    }
  }

  lemma NothingNumbered(lines: seq<string>, start: int)
    requires lines == []
    ensures NumberedFrom(lines, start) == []
  {
  }

  /** Reading page after page shows the whole file, every line once and with
      its own number. */
  lemma PagesCoverFile(lines: seq<string>, n: int)
    requires 1 <= n <= MAX_READ_LINES
    ensures Pages(lines, n, 0) == Terminated(NumberedFrom(lines, 1))
  {
    hide NumberedFrom, Terminated, Pages;
    PagesFrom(lines, n, 0);
    assert lines[0..] == lines;
  }

  /** The pages as a read shows them. */
  function ShownPages(lines: seq<string>, n: int, at: nat): string
    requires 1 <= n
    decreases |lines| - at
  {
    if at >= |lines| then ""
    else Truncated(Page(lines, at + 1, n), MAX_OUTPUT_CHARS, MAX_LINE_CHARS) + ShownPages(lines, n, at + n)
  }

  /** Every page that is read from index at on stays below the output limit. */
  predicate PagesFit(lines: seq<string>, n: int, at: nat)
    requires 1 <= n
    decreases |lines| - at
  {
    at >= |lines| || (|Page(lines, at + 1, n)| < MAX_OUTPUT_CHARS && PagesFit(lines, n, at + n))
  }

  lemma {:induction false} ShownPagesFrom(lines: seq<string>, n: int, at: nat)
    requires 1 <= n && (forall i | 0 <= i < |lines| :: PlainLine(lines, i)) && PagesFit(lines, n, at)
    ensures ShownPages(lines, n, at) == Pages(lines, n, at)
    decreases |lines| - at
  {
    hide Page, Truncated, PlainLine;
    if at < |lines| {
      PageShownWhole(lines, at + 1, n);
      ShownPagesFrom(lines, n, at + n);
    }
  }

  /** What consecutive reads of n lines show is the fully numbered file, as long as
      every line fits and none of the pages read reaches the output limit. */
  lemma ShownPagesCoverFile(text: string, n: int)
    requires 1 <= n <= MAX_READ_LINES
    requires forall i | 0 <= i < |LinesOf(text)| :: PlainLine(LinesOf(text), i)
    requires PagesFit(LinesOf(text), n, 0)
    ensures ShownPages(LinesOf(text), n, 0) == Terminated(NumberedFrom(LinesOf(text), 1))
  {
    hide LinesOf, Page, PlainLine, PagesFit, ShownPages, Pages, Terminated;
    ShownPagesFrom(LinesOf(text), n, 0);
    PagesCoverFile(LinesOf(text), n);
  }

  /** A negative offset shows the end of the file under the same numbers. */
  lemma TailIsEnd(lines: seq<string>, k: int)
    requires 0 < k <= |lines|
    ensures Terminated(NumberedFrom(lines, 1))
         == Terminated(NumberedFrom(lines[..|lines| - k], 1)) + Page(lines, -k, 0)
  {
    hide NumberedFrom, Terminated;
    var b := |lines| - k;
    NumberedSplit(lines, 0, b);
    assert lines[0..] == lines && lines[0..b] == lines[..b] && lines[b..|lines|] == lines[b..];
    TerminatedConcat(NumberedFrom(lines[..b], 1), NumberedFrom(lines[b..], b + 1));
  }
}
