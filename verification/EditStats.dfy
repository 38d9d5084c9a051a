/** The changed-line counts that an edit shows. */
module EditStats {
  import opened Basics
  import opened Text
  import opened Lines

  predicate IsSpace(c: char) {
    c == ' ' || '\t' <= c <= '\r'
  }

  /** The characters that std::isspace accepts in the default locale. */
  lemma SpacesAre(c: char)
    ensures IsSpace(c) <==> c in " \t\n\U{0B}\U{0C}\r"
  {
    var spaces := " \t\n\U{0B}\U{0C}\r";
    assert spaces[0] == ' ' && spaces[1] as int == 9 && spaces[2] as int == 10;
    assert spaces[3] as int == 11 && spaces[4] as int == 12 && spaces[5] as int == 13;
    if IsSpace(c) {
      assert c == spaces[if c == ' ' then 0 else c as int - 8];
    }
  }

  predicate IsBlank(line: string) {
    forall c | c in line :: IsSpace(c)
  }

  /** Without the blank lines at the end. */
  function TrimEnd(lines: seq<string>): (r: seq<string>)
    ensures r <= lines
    ensures r != [] ==> !IsBlank(r[|r| - 1])
    ensures forall k | |r| <= k < |lines| :: IsBlank(lines[k])
    decreases |lines|
  {
    if lines != [] && IsBlank(lines[|lines| - 1]) then TrimEnd(lines[..|lines| - 1]) else lines
  }

  /** SplitLines of the card: a last LF opens an empty line, and all blank
      lines at the end go. */
  method SplitLines(text: string) returns (lines: seq<string>)
    ensures lines == TrimEnd(LinesOf(text))
  {
    hide LinesOf, LfAt, ChopCr, IsBlank;
    lines := [];
    var rest := text;
    while rest != ""
      invariant lines + LinesOf(rest) == LinesOf(text)
      decreases |rest|
    {
      LinesStep(rest);
      var next := LfAt(rest);
      var line := ChopCr(rest[..next]);
      if next == |rest| {
        assert rest[..next] == rest;
        lines := lines + [line];
        rest := "";
      } else {
        Shift(lines, line, LinesOf(rest[next + 1..]));
        lines := lines + [line];
        rest := rest[next + 1..];
      }
      NoLines();
    }
    NoLines();
    assert lines == LinesOf(text);
    if EndsInLf(text) {
      TrimIgnoresEmpty(lines);
      lines := lines + [""];
    }
    ghost var all := lines;
    while lines != [] && IsBlank(lines[|lines| - 1])
      invariant TrimEnd(lines) == TrimEnd(all)
      decreases |lines|
    {
      lines := lines[..|lines| - 1];
    }
  }

  lemma TrimIgnoresEmpty(lines: seq<string>)
    ensures TrimEnd(lines + [""]) == TrimEnd(lines)
  {
    assert IsBlank("");
    assert (lines + [""])[..|lines|] == lines;
  }

  /** One replaced block: p lines kept in front, q lines kept behind. */
  ghost predicate Hunk(a: seq<string>, b: seq<string>, p: nat, q: nat) {
    && p + q <= |a| && p + q <= |b|
    && a[..p] == b[..p]
    && a[|a| - q..] == b[|b| - q..]
  }

  // ------------------------------------------------------------------
  // The counts as a function of the lines
  // ------------------------------------------------------------------

  function CommonPrefix(a: seq<string>, b: seq<string>): nat
    decreases |a|
  {
    if a == [] || b == [] || a[0] != b[0] then 0 else 1 + CommonPrefix(a[1..], b[1..])
  }

  function CommonSuffix(a: seq<string>, b: seq<string>): nat
    decreases |a|
  {
    if a == [] || b == [] || a[|a| - 1] != b[|b| - 1] then 0
    else 1 + CommonSuffix(a[..|a| - 1], b[..|b| - 1])
  }

  /** The number of lines an edit can keep. */
  function Kept(a: seq<string>, b: seq<string>): int {
    Min(CommonPrefix(a, b) + CommonSuffix(a, b), Min(|a|, |b|))
  }

  lemma {:induction false} PrefixIs(a: seq<string>, b: seq<string>, p: nat)
    requires p <= |a| && p <= |b|
    ensures CommonPrefix(a, b) <= |a| && CommonPrefix(a, b) <= |b|
    ensures a[..p] == b[..p] <==> p <= CommonPrefix(a, b)
    decreases |a|
  {
    if a != [] && b != [] && a[0] == b[0] {
      PrefixIs(a[1..], b[1..], if p > 0 then p - 1 else 0);
      if p > 0 {
        assert a[..p] == [a[0]] + a[1..][..p - 1] && b[..p] == [b[0]] + b[1..][..p - 1];
        assert a[..p] == b[..p] ==> a[..p][1..] == b[..p][1..];
        assert a[..p][1..] == a[1..][..p - 1] && b[..p][1..] == b[1..][..p - 1];
      }
    } else if p > 0 {
      assert a[..p][0] == a[0] && b[..p][0] == b[0];
    }
  }

  lemma LastOfEnd(a: seq<string>, q: nat)
    requires 0 < q <= |a|
    ensures var c := a[..|a| - 1]; a[|a| - q..] == c[|c| - (q - 1)..] + [a[|a| - 1]]
  {
  }

  lemma SameEnds(x: seq<string>, y: seq<string>, l: string)
    ensures x + [l] == y + [l] <==> x == y
  {
    assert (x + [l])[..|x|] == x && (y + [l])[..|y|] == y;
  }

  lemma {:induction false} SuffixIs(a: seq<string>, b: seq<string>, q: nat)
    requires q <= |a| && q <= |b|
    ensures CommonSuffix(a, b) <= |a| && CommonSuffix(a, b) <= |b|
    ensures a[|a| - q..] == b[|b| - q..] <==> q <= CommonSuffix(a, b)
    decreases |a|
  {
    if a != [] && b != [] && a[|a| - 1] == b[|b| - 1] {
      var (c, d) := (a[..|a| - 1], b[..|b| - 1]);
      SuffixIs(c, d, if q > 0 then q - 1 else 0);
      assert CommonSuffix(a, b) == 1 + CommonSuffix(c, d);
      hide CommonSuffix;
      if q > 0 {
        LastOfEnd(a, q);
        LastOfEnd(b, q);
        SameEnds(c[|c| - (q - 1)..], d[|d| - (q - 1)..], a[|a| - 1]);
      }
    } else if q > 0 {
      assert a[|a| - q..][q - 1] == a[|a| - 1] && b[|b| - q..][q - 1] == b[|b| - 1];
    }
  }

  /** No single-block edit keeps more lines, and one keeps as many. */
  lemma KeptIsMost(a: seq<string>, b: seq<string>)
    ensures forall p: nat, q: nat :: Hunk(a, b, p, q) ==> p + q <= Kept(a, b)
    ensures exists p: nat, q: nat :: Hunk(a, b, p, q) && p + q == Kept(a, b)
  {
    hide CommonPrefix, CommonSuffix;
    forall p: nat, q: nat | Hunk(a, b, p, q) ensures p + q <= Kept(a, b) {
      PrefixIs(a, b, p);
      SuffixIs(a, b, q);
    }
    PrefixIs(a, b, 0);
    SuffixIs(a, b, 0);
    var p := CommonPrefix(a, b);
    var q := Kept(a, b) - p;
    PrefixIs(a, b, p);
    SuffixIs(a, b, q);
    assert Hunk(a, b, p, q);
  }

  lemma {:induction false} CommonSymmetric(a: seq<string>, b: seq<string>)
    ensures CommonPrefix(a, b) == CommonPrefix(b, a) && CommonSuffix(a, b) == CommonSuffix(b, a)
    decreases |a|
  {
    if a != [] && b != [] {
      CommonSymmetric(a[1..], b[1..]);
      CommonSymmetric(a[..|a| - 1], b[..|b| - 1]);
    }
  }

  /** Swapping the texts swaps the counts. */
  lemma KeptSymmetric(a: seq<string>, b: seq<string>)
    ensures Kept(a, b) == Kept(b, a)
  {
    hide CommonPrefix, CommonSuffix;
    CommonSymmetric(a, b);
  }

  /** Nothing added and nothing removed means nothing changed. */
  lemma UnchangedIff(a: seq<string>, b: seq<string>)
    ensures Kept(a, b) == |a| == |b| <==> a == b
  {
    hide Kept;
    KeptIsMost(a, b);
    if a == b {
      assert Hunk(a, b, |a|, 0) by { assert a[|a|..] == b[|b|..]; }
      KeptFits(a, b);
    }
    if Kept(a, b) == |a| == |b| {
      var p: nat, q: nat :| Hunk(a, b, p, q) && p + q == Kept(a, b);
      assert a == a[..p] + a[|a| - q..] && b == b[..p] + b[|b| - q..];
    }
  }

  lemma KeptFits(a: seq<string>, b: seq<string>)
    ensures Kept(a, b) <= |a| && Kept(a, b) <= |b|
  {
  }

  // ------------------------------------------------------------------
  // The loops
  // ------------------------------------------------------------------

  lemma SuffixGrows(a: seq<string>, b: seq<string>, i: nat, j: nat)
    requires 0 < i <= |a| && 0 < j <= |b| && a[i..] == b[j..] && a[i - 1] == b[j - 1]
    ensures a[i - 1..] == b[j - 1..]
  {
    assert a[i - 1..] == [a[i - 1]] + a[i..] && b[j - 1..] == [b[j - 1]] + b[j..];
  }

  /** The loops stop at the longest common ends. */
  lemma StopsAtCommon(a: seq<string>, b: seq<string>, p: nat, q: nat)
    requires Hunk(a, b, p, q)
    requires p < |a| && p < |b| ==> a[p] != b[p]
    requires p + q < |a| && p + q < |b| ==> a[|a| - q - 1] != b[|b| - q - 1]
    ensures p + q == Kept(a, b)
  {
    hide CommonPrefix, CommonSuffix;
    PrefixIs(a, b, p);
    SuffixIs(a, b, q);
    if p < |a| && p < |b| {
      assert a[..p + 1][p] != b[..p + 1][p];
      PrefixIs(a, b, p + 1);
    }
    if p + q < |a| && p + q < |b| {
      assert a[|a| - (q + 1)..][0] != b[|b| - (q + 1)..][0];
      SuffixIs(a, b, q + 1);
    }
  }

  method CountChanged(a: seq<string>, b: seq<string>) returns (added: nat, removed: nat)
    ensures added == |b| - Kept(a, b) && removed == |a| - Kept(a, b)
  {
    hide Kept;
    var prefix := 0;
    while prefix < |a| && prefix < |b| && a[prefix] == b[prefix]
      invariant prefix <= |a| && prefix <= |b| && a[..prefix] == b[..prefix]
    {
      prefix := prefix + 1;
    }
    var oldSuffix, newSuffix := |a|, |b|;
    while oldSuffix > prefix && newSuffix > prefix && a[oldSuffix - 1] == b[newSuffix - 1]
      invariant prefix <= oldSuffix <= |a| && prefix <= newSuffix <= |b|
      invariant |a| - oldSuffix == |b| - newSuffix
      invariant a[oldSuffix..] == b[newSuffix..]
    {
      SuffixGrows(a, b, oldSuffix, newSuffix);
      oldSuffix, newSuffix := oldSuffix - 1, newSuffix - 1;
    }
    StopsAtCommon(a, b, prefix, |a| - oldSuffix);
    added, removed := newSuffix - prefix, oldSuffix - prefix;
  }

  /** ComputeEditStats. */
  method ComputeEditStats(oldText: string, newText: string) returns (added: nat, removed: nat)
    ensures var (a, b) := (TrimEnd(LinesOf(oldText)), TrimEnd(LinesOf(newText)));
            added == |b| - Kept(a, b) && removed == |a| - Kept(a, b)
  {
    hide LinesOf, TrimEnd, Kept;
    var a := SplitLines(oldText);
    var b := SplitLines(newText);
    added, removed := CountChanged(a, b);
  }
}
