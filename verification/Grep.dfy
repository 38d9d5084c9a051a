/** The search tool: marking lines with context, and printing them under a
    limit. */
module Grep {
  import opened Basics
  import opened ToolOutput

  datatype Mode = Content | FilesWithMatches | CountOnly

  /** A line of a file and whether the expression matches it. */
  datatype Line = Line(text: string, matches: bool)

  /** A candidate; lines is None when the file is filtered out, unreadable,
      binary or too large. */
  datatype Candidate = Candidate(path: string, lines: Option<seq<Line>>)

  datatype Options = Options(mode: Mode, lineNumbers: bool, before: int, after: int, context: int, headLimit: int)
  {
    function Before(): int {
      if context > 0 then Max(before, context) else before
    }

    function After(): int {
      if context > 0 then Max(after, context) else after
    }
  }

  // ------------------------------------------------------------------
  // Marking
  // ------------------------------------------------------------------

  predicate Near(lines: seq<Line>, before: int, after: int, upTo: int, j: int) {
    exists i :: 0 <= i < upTo && i < |lines| && lines[i].matches && i - before <= j <= i + after
  }

  /** 2 for a match, 1 for context of one of the first upTo lines, 0 otherwise. */
  function KindAt(lines: seq<Line>, before: int, after: int, upTo: int, j: int): int
    requires 0 <= j < |lines|
  {
    if j < upTo && lines[j].matches then 2 else if Near(lines, before, after, upTo, j) then 1 else 0
  }

  function Kinds(lines: seq<Line>, before: int, after: int): (r: seq<int>)
    ensures |r| == |lines|
    ensures forall j | 0 <= j < |lines| ::
      && (r[j] == 2 <==> lines[j].matches)
      && (r[j] == 1 <==> !lines[j].matches
                         && exists i :: 0 <= i < |lines| && lines[i].matches && i - j <= before && j - i <= after)
      && 0 <= r[j] <= 2
  {
    NearIs(lines, before, after);
    seq(|lines|, j requires 0 <= j < |lines| => KindAt(lines, before, after, |lines|, j))
  }

  lemma NearIs(lines: seq<Line>, before: int, after: int)
    ensures forall j :: Near(lines, before, after, |lines|, j)
              <==> exists i :: 0 <= i < |lines| && lines[i].matches && i - j <= before && j - i <= after
  {
    forall j
      ensures Near(lines, before, after, |lines|, j)
              <==> exists i :: 0 <= i < |lines| && lines[i].matches && i - j <= before && j - i <= after
    {
      if i :| 0 <= i < |lines| && lines[i].matches && i - j <= before && j - i <= after {
        assert i - before <= j <= i + after;
      }
    }
  }

  function MatchCount(lines: seq<Line>): nat {
    if lines == [] then 0 else MatchCount(lines[..|lines| - 1]) + if lines[|lines| - 1].matches then 1 else 0
  }

  /** The window of one match. */
  method MarkWindow(kind: array<int>, lines: seq<Line>, before: int, after: int, i: int)
    requires kind.Length == |lines| && 0 <= i < |lines| && lines[i].matches
    requires forall j | 0 <= j < |lines| :: kind[j] == KindAt(lines, before, after, i, j)
    modifies kind
    ensures forall j | 0 <= j < |lines| :: kind[j] == KindAt(lines, before, after, i + 1, j)
  {
    hide KindAt;
    kind[i] := 2;
    var lo := Max(0, i - before);
    var hi := Min(|lines| - 1, i + after);
    var j := lo;
    while j <= hi
      invariant lo <= j && (lo <= hi ==> j <= hi + 1) && (lo > hi ==> j == lo)
      invariant kind[i] == 2
      invariant forall k | 0 <= k < |lines| && k != i ::
        kind[k] == if lo <= k < j && old(kind[k]) == 0 then 1 else old(kind[k])
    {
      if kind[j] == 0 { kind[j] := 1; }
      j := j + 1;
    }
    forall k | 0 <= k < |lines| ensures kind[k] == KindAt(lines, before, after, i + 1, k) {
      KindGrows(lines, before, after, i, k);
    }
  }

  lemma KindGrows(lines: seq<Line>, before: int, after: int, i: int, k: int)
    requires 0 <= i < |lines| && 0 <= k < |lines|
    ensures var (was, now) := (KindAt(lines, before, after, i, k), KindAt(lines, before, after, i + 1, k));
            now == if !lines[i].matches then was
                   else if k == i then 2
                   else if i - before <= k <= i + after && was == 0 then 1 else was
  {
    if Near(lines, before, after, i + 1, k) {
      var m :| 0 <= m < i + 1 && m < |lines| && lines[m].matches && m - before <= k <= m + after;
      if m < i { assert Near(lines, before, after, i, k); }
    }
    if Near(lines, before, after, i, k) {
      assert Near(lines, before, after, i + 1, k);
    }
    if lines[i].matches && i - before <= k <= i + after {
      assert Near(lines, before, after, i + 1, k);
    }
  }

  /** The marking loop. */
  method MarkLines(lines: seq<Line>, before: int, after: int) returns (kind: array<int>, matchCount: nat)
    ensures fresh(kind) && kind[..] == Kinds(lines, before, after)
    ensures matchCount == MatchCount(lines)
  {
    kind := new int[|lines|](_ => 0);
    matchCount := 0;
    for i := 0 to |lines|
      invariant forall j | 0 <= j < |lines| :: kind[j] == KindAt(lines, before, after, i, j)
      invariant matchCount == MatchCount(lines[..i])
    {
      CountSnoc(lines, i);
      if lines[i].matches {
        MarkWindow(kind, lines, before, after, i);
        matchCount := matchCount + 1;
      } else {
        hide KindAt;
        forall k | 0 <= k < |lines| ensures kind[k] == KindAt(lines, before, after, i + 1, k) {
          KindGrows(lines, before, after, i, k);
        }
      }
    }
    assert lines[..|lines|] == lines;
  }

  lemma CountSnoc(lines: seq<Line>, i: nat)
    requires i < |lines|
    ensures MatchCount(lines[..i + 1]) == MatchCount(lines[..i]) + if lines[i].matches then 1 else 0
  {
    assert lines[..i + 1][..i] == lines[..i];
  }

  lemma {:induction false} SomeMatch(lines: seq<Line>)
    ensures MatchCount(lines) > 0 <==> exists i :: 0 <= i < |lines| && lines[i].matches
    decreases |lines|
  {
    if lines != [] {
      var n := |lines| - 1;
      SomeMatch(lines[..n]);
      if i :| 0 <= i < |lines| && lines[i].matches { assert i == n || lines[..n][i].matches; }
    }
  }

  lemma OneMoreMatch(lines: seq<Line>, n: nat)
    requires n + 1 == |lines|
    ensures |set i: nat | i < |lines| && lines[i].matches|
         == |set i: nat | i < n && lines[..n][i].matches| + if lines[n].matches then 1 else 0
  {
    var before := set i: nat | i < n && lines[..n][i].matches;
    var all := set i: nat | i < |lines| && lines[i].matches;
    if lines[n].matches {
      assert all == before + {n};
    } else {
      assert all == before;
    }
  }

  /** The number of matches is that of the lines that match. */
  lemma {:induction false} CountIs(lines: seq<Line>)
    ensures MatchCount(lines) == |set i: nat | i < |lines| && lines[i].matches|
    decreases |lines|
  {
    if lines != [] {
      CountIs(lines[..|lines| - 1]);
      OneMoreMatch(lines, |lines| - 1);
    }
  }

  // ------------------------------------------------------------------
  // What there is to print
  // ------------------------------------------------------------------

  /** A line of the searched files, which follow one another. */
  datatype Marked = Marked(path: string, number: int, text: string, kind: int)

  /** One result; it opens a new group when it does not continue the line before it. */
  datatype Item = Item(text: string, newGroup: bool)

  function Flat(o: Options, c: Candidate): (r: seq<Marked>)
    ensures |r| == if c.lines.Some? then |c.lines.value| else 0
  {
    if c.lines.None? then []
    else
      var kinds := Kinds(c.lines.value, o.Before(), o.After());
      seq(|c.lines.value|, i requires 0 <= i < |c.lines.value| => Marked(c.path, i + 1, c.lines.value[i].text, kinds[i]))
  }

  function FlatAll(o: Options, files: seq<Candidate>): seq<Marked> {
    if files == [] then [] else Flat(o, files[0]) + FlatAll(o, files[1..])
  }

  function Format(o: Options, m: Marked): (r: string)
    ensures r != ""
  {
    var sep := if m.kind == 2 then ":" else "-";
    if o.lineNumbers then m.path + sep + Numeral(m.number) + sep + m.text + "\n" else m.path + sep + m.text + "\n"
  }

  /** The marked lines, in order; active tells whether the line before was
      marked too. */
  function LineItems(o: Options, ms: seq<Marked>, active: bool): seq<Item>
    decreases |ms|
  {
    if ms == [] then []
    else if ms[0].kind == 0 then LineItems(o, ms[1..], false)
    else [Item(Format(o, ms[0]), !active)] + LineItems(o, ms[1..], true)
  }

  function FileItem(o: Options, c: Candidate): seq<Item> {
    if c.lines.None? || MatchCount(c.lines.value) == 0 then []
    else if o.mode.FilesWithMatches? then [Item(c.path + "\n", false)]
    else [Item(c.path + ":" + Numeral(MatchCount(c.lines.value)) + "\n", false)]
  }

  function FileItems(o: Options, files: seq<Candidate>): seq<Item> {
    if files == [] then [] else FileItem(o, files[0]) + FileItems(o, files[1..])
  }

  function ItemsFrom(o: Options, files: seq<Candidate>, active: bool): seq<Item> {
    if o.mode.Content? then LineItems(o, FlatAll(o, files), active) else FileItems(o, files)
  }

  function Separator(index: nat, item: Item): string {
    if item.newGroup && index > 0 then "--\n" else ""
  }

  function Render(items: seq<Item>): string
    decreases |items|
  {
    if items == [] then ""
    else
      var n := |items| - 1;
      Render(items[..n]) + Separator(n, items[n]) + items[n].text
  }

  lemma RenderSnoc(items: seq<Item>, item: Item)
    ensures Render(items + [item]) == Render(items) + (if item.newGroup && items != [] then "--\n" else "") + item.text
    ensures Render([]) == ""
  {
    assert (items + [item])[..|items|] == items;
  }

  /** The reach in front of a match is the larger of its own option and the one for
      both sides, as far as that is set; the same behind. */
  lemma ReachIs(o: Options)
    ensures o.context <= 0 ==> o.Before() == o.before && o.After() == o.after
    ensures o.context > 0 ==> o.Before() >= o.before && o.Before() >= o.context && (o.Before() == o.before || o.Before() == o.context)
    ensures o.context > 0 ==> o.After() >= o.after && o.After() >= o.context && (o.After() == o.after || o.After() == o.context)
  {
  }

  /** Every line of a file goes by its path, its number and its text; it is a match, or
      context of a match within reach, or neither. */
  lemma FlatIs(o: Options, c: Candidate, j: nat)
    requires c.lines.Some? && j < |c.lines.value|
    ensures var (lines, m) := (c.lines.value, Flat(o, c)[j]);
            && m.path == c.path && m.number == j + 1 && m.text == lines[j].text
            && (m.kind == 2 <==> lines[j].matches)
            && (m.kind == 1 <==> !lines[j].matches
                                 && exists i :: 0 <= i < |lines| && lines[i].matches && i - j <= o.Before() && j - i <= o.After())
  {
    hide Kinds;
  }

  /** A match shows path, number and text with colons, a context line with hyphens; the
      number is left out unless asked for. */
  lemma FormatIs(o: Options, m: Marked) returns (digits: string)
    requires m.number >= 0
    ensures Writes(digits, m.number)
    ensures m.kind == 2 && o.lineNumbers ==> Format(o, m) == m.path + ":" + digits + ":" + m.text + "\n"
    ensures m.kind != 2 && o.lineNumbers ==> Format(o, m) == m.path + "-" + digits + "-" + m.text + "\n"
    ensures m.kind == 2 && !o.lineNumbers ==> Format(o, m) == m.path + ":" + m.text + "\n"
    ensures m.kind != 2 && !o.lineNumbers ==> Format(o, m) == m.path + "-" + m.text + "\n"
  {
    DecimalWrites(m.number);
    digits := Decimal(m.number);
    hide Decimal, Writes;
  }

  /** A file with matches gives its path, or its path and their number. */
  lemma FileItemSays(o: Options, c: Candidate) returns (digits: string)
    requires c.lines.Some? && !o.mode.Content?
    ensures Writes(digits, |set i: nat | i < |c.lines.value| && c.lines.value[i].matches|)
    ensures FileItem(o, c)
         == if forall i | 0 <= i < |c.lines.value| :: !c.lines.value[i].matches then []
            else [Item(if o.mode.FilesWithMatches? then c.path + "\n" else c.path + ":" + digits + "\n", false)]
  {
    CountIs(c.lines.value);
    SomeMatch(c.lines.value);
    DecimalWrites(MatchCount(c.lines.value));
    digits := Decimal(MatchCount(c.lines.value));
    hide Decimal, Writes, MatchCount;
  }

  const INTERRUPTED := "... [search interrupted]\n"
  const NO_MATCHES := "(no matches)\n"

  function LimitNotice(limit: int): string {
    "... [head_limit of " + Numeral(limit) + " reached]\n"
  }

  /** The results of the files searched before a stop is seen, all or the
      first headLimit of them. */
  function Results(o: Options, files: seq<Candidate>, stopAt: nat): seq<Item> {
    ItemsFrom(o, files[..Min(stopAt, |files|)], false)
  }

  predicate LimitReached(o: Options, items: seq<Item>) {
    o.headLimit > 0 && |items| >= o.headLimit
  }

  function Output(o: Options, files: seq<Candidate>, stopAt: nat): string {
    var items := Results(o, files, stopAt);
    var out := if LimitReached(o, items) then Render(items[..o.headLimit]) + LimitNotice(o.headLimit)
               else Render(items) + if stopAt < |files| then INTERRUPTED else "";
    if out == "" then NO_MATCHES else out
  }

  /** Without a limit, or below it, the output is all results, and what is said of an
      interrupted search and of one without results. */
  lemma OutputIs(o: Options, files: seq<Candidate>, stopAt: nat)
    ensures var items := Results(o, files, stopAt);
            o.headLimit <= 0 || |items| < o.headLimit ==>
              Output(o, files, stopAt)
              == if stopAt < |files| then Render(items) + "... [search interrupted]\n"
                 else if Render(items) == "" then "(no matches)\n" else Render(items)
  {
    hide Render, Results;
    var items := Results(o, files, stopAt);
    assert Render(items) + "" == Render(items);
    assert |Render(items) + "... [search interrupted]\n"| > 0;
  }

  lemma LimitNoticeIs(limit: nat) returns (digits: string)
    ensures Writes(digits, limit) && LimitNotice(limit) == "... [head_limit of " + digits + " reached]\n"
  {
    DecimalWrites(limit);
    digits := Decimal(limit);
    hide Decimal, Writes;
  }

  // ------------------------------------------------------------------
  // The printing loops
  // ------------------------------------------------------------------

  /** The counter of results left, and the flag that it ran out. */
  predicate Counted(o: Options, printed: nat, remaining: int, limitHit: bool) {
    if o.headLimit > 0 then
      remaining == o.headLimit - printed && printed <= o.headLimit && (limitHit <==> printed == o.headLimit)
    else remaining == o.headLimit && !limitHit
  }

  predicate Worded(items: seq<Item>) {
    forall i | i in items :: i.text != ""
  }

  lemma {:induction false} RenderEmpty(items: seq<Item>)
    requires Worded(items)
    ensures Render(items) == "" <==> items == []
  {
    if items != [] { assert items[|items| - 1] in items; }
  }

  /** One result more. */
  method CountDown(o: Options, ghost printed: nat, remaining0: int) returns (remaining: int, limitHit: bool)
    requires Counted(o, printed, remaining0, false)
    ensures Counted(o, printed + 1, remaining, limitHit)
  {
    remaining, limitHit := remaining0, false;
    if remaining > 0 {
      remaining := remaining - 1;
      if remaining == 0 { limitHit := true; }
    }
  }

  /** The content loop over one file; rest are the lines of the files to come. */
  method PrintLines(o: Options, c: Candidate, kind: array<int>, out0: string, remaining0: int, active0: bool,
                    ghost done0: seq<Item>, ghost rest: seq<Marked>, ghost all: seq<Item>)
    returns (out: string, remaining: int, limitHit: bool, active: bool, ghost done: seq<Item>)
    requires c.lines.Some? && kind[..] == Kinds(c.lines.value, o.Before(), o.After())
    requires out0 == Render(done0) && Worded(done0) && Counted(o, |done0|, remaining0, false)
    requires done0 + LineItems(o, Flat(o, c) + rest, active0) == all
    ensures out == Render(done) && Worded(done) && Counted(o, |done|, remaining, limitHit)
    ensures if limitHit then done <= all else done + LineItems(o, rest, active) == all
  {
    hide Kinds, Render, LineItems, Format, Counted;
    out, remaining, limitHit, active, done := out0, remaining0, false, active0, done0;
    var lines := c.lines.value;
    ghost var ms := Flat(o, c);
    assert ms[0..] == ms;
    for i := 0 to |lines|
      invariant out == Render(done) && Worded(done) && Counted(o, |done|, remaining, limitHit) && !limitHit
      invariant done + LineItems(o, ms[i..] + rest, active) == all
    {
      Tail(ms, rest, i);
      assert ms[i] == Marked(c.path, i + 1, lines[i].text, kind[i]);
      LineItemsStep(o, ms[i..] + rest, active);
      if kind[i] == 0 {
        active := false;
        continue;
      }
      ghost var item := Item(Format(o, ms[i]), !active);
      RenderSnoc(done, item);
      RenderEmpty(done);
      Grows(done, item, LineItems(o, ms[i + 1..] + rest, true));
      if !active && out != "" { out := out + "--\n"; }
      out := out + Format(o, Marked(c.path, i + 1, lines[i].text, kind[i]));
      remaining, limitHit := CountDown(o, |done|, remaining);
      active, done := true, done + [item];
      if limitHit { return; }
    }
    assert ms[|lines|..] + rest == rest;
  }

  lemma Tail(ms: seq<Marked>, rest: seq<Marked>, i: nat)
    requires i < |ms|
    ensures (ms[i..] + rest)[0] == ms[i] && (ms[i..] + rest)[1..] == ms[i + 1..] + rest
  {
  }

  lemma LineItemsStep(o: Options, ms: seq<Marked>, active: bool)
    requires ms != []
    ensures LineItems(o, ms, active) == if ms[0].kind == 0 then LineItems(o, ms[1..], false)
                                        else [Item(Format(o, ms[0]), !active)] + LineItems(o, ms[1..], true)
  {
  }

  lemma Grows(done: seq<Item>, item: Item, more: seq<Item>)
    ensures done + ([item] + more) == (done + [item]) + more
    ensures done + [item] <= done + ([item] + more)
  {
  }

  /** One file: mark its lines and print what the mode asks for. */
  method SearchFile(o: Options, c: Candidate, out0: string, remaining0: int, active0: bool,
                    ghost rest: seq<Candidate>, ghost done0: seq<Item>, ghost all: seq<Item>)
    returns (out: string, remaining: int, limitHit: bool, active: bool, ghost done: seq<Item>)
    requires out0 == Render(done0) && Worded(done0) && Counted(o, |done0|, remaining0, false)
    requires done0 + ItemsFrom(o, [c] + rest, active0) == all
    ensures out == Render(done) && Worded(done) && Counted(o, |done|, remaining, limitHit)
    ensures if limitHit then done <= all else done + ItemsFrom(o, rest, active) == all
  {
    hide Kinds, Render, LineItems, Format, Counted, Flat, FileItem, MatchCount;
    out, remaining, limitHit, active, done := out0, remaining0, false, active0, done0;
    assert ([c] + rest)[1..] == rest;
    if c.lines.None? {
      NothingToPrint(o, c);
      Skip(FlatAll(o, rest), FileItems(o, rest));
      return;
    }
    var kind, matchCount := MarkLines(c.lines.value, o.Before(), o.After());
    if o.mode.Content? {
      out, remaining, limitHit, active, done :=
        PrintLines(o, c, kind, out0, remaining0, active0, done0, FlatAll(o, rest), all);
    } else {
      var text := if o.mode.FilesWithMatches? then c.path + "\n" else c.path + ":" + Numeral(matchCount) + "\n";
      FileItemIs(o, c, text);
      if matchCount > 0 {
        ghost var item := Item(text, false);
        RenderSnoc(done, item);
        Grows(done, item, FileItems(o, rest));
        out := out + text;
        assert Render(done) + "" == Render(done);
        remaining, limitHit := CountDown(o, |done|, remaining);
        done := done + [item];
      } else {
        Skip([], FileItems(o, rest));
      }
    }
  }

  lemma NothingToPrint(o: Options, c: Candidate)
    requires c.lines.None?
    ensures Flat(o, c) == [] && FileItem(o, c) == []
  {
  }

  lemma Skip(ms: seq<Marked>, items: seq<Item>)
    ensures [] + ms == ms && [] + items == items
  {
  }

  lemma FileItemIs(o: Options, c: Candidate, text: string)
    requires c.lines.Some? && !o.mode.Content?
    requires text == if o.mode.FilesWithMatches? then c.path + "\n" else c.path + ":" + Numeral(MatchCount(c.lines.value)) + "\n"
    ensures FileItem(o, c) == if MatchCount(c.lines.value) > 0 then [Item(text, false)] else []
  {
    hide MatchCount, Numeral;
  }

  /** The search from its sorted candidates on; stopAt is the first candidate
      before which a stop request is seen. */
  method Search(o: Options, files: seq<Candidate>, stopAt: nat) returns (r: string)
    ensures r == Truncated(Output(o, files, stopAt), 50000, 2000)
  {
    hide Render, ItemsFrom, Truncated, Worded;
    var out, remaining, limitHit, active := "", o.headLimit, false, false;
    ghost var done, all := [], Results(o, files, stopAt);
    ghost var seen := files[..Min(stopAt, |files|)];
    NothingYet();
    var f := 0;
    assert seen[0..] == seen && [] + all == all;
    var interrupted := false;
    while f < |files|
      invariant 0 <= f <= |seen|
      invariant out == Render(done) && Worded(done) && Counted(o, |done|, remaining, limitHit)
      invariant if limitHit then done <= all else done + ItemsFrom(o, seen[f..], active) == all
      invariant !interrupted
      decreases |files| - f
    {
      if limitHit { break; }
      if f == stopAt {
        interrupted := true;
        break;
      }
      assert seen[f..] == [files[f]] + seen[f + 1..];
      out, remaining, limitHit, active, done :=
        SearchFile(o, files[f], out, remaining, active, seen[f + 1..], done, all);
      f := f + 1;
    }
    if !limitHit {
      assert seen[f..] == [];
      NoFiles(o, active);
      assert done + [] == done;
    }
    PrintedIs(o, all, done, remaining, limitHit);
    RenderIsEmpty(all);
    if interrupted { out := out + INTERRUPTED; }
    if limitHit { out := out + LimitNotice(o.headLimit); }
    if out == "" { out := NO_MATCHES; }
    r := TruncateOutput(out, MAX_OUTPUT_CHARS, MAX_LINE_CHARS);
  }

  lemma NothingYet()
    ensures Render([]) == "" && Worded([])
  {
  }

  lemma NoFiles(o: Options, active: bool)
    ensures ItemsFrom(o, [], active) == []
  {
  }

  lemma RenderIsEmpty(items: seq<Item>)
    ensures Render(items) + "" == Render(items)
  {
  }

  lemma PrintedIs(o: Options, all: seq<Item>, done: seq<Item>, remaining: int, limitHit: bool)
    requires Counted(o, |done|, remaining, limitHit)
    requires if limitHit then done <= all else done == all
    ensures limitHit <==> LimitReached(o, all)
    ensures done == if limitHit then all[..o.headLimit] else all
  {
  }
}
