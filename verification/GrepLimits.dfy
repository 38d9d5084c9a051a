/** What the limit keeps, and where groups are separated. */
module GrepLimits {
  import opened Basics
  import opened ToolOutput
  import opened Grep

  // ------------------------------------------------------------------
  // The limit
  // ------------------------------------------------------------------

  function Unlimited(o: Options): Options {
    o.(headLimit := 0)
  }

  lemma {:induction false} LinesIgnoreLimit(o: Options, ms: seq<Marked>, active: bool)
    ensures LineItems(Unlimited(o), ms, active) == LineItems(o, ms, active)
    decreases |ms|
  {
    hide Numeral;
    if ms != [] {
      LinesIgnoreLimit(o, ms[1..], ms[0].kind != 0);
    }
  }

  lemma {:induction false} FilesIgnoreLimit(o: Options, files: seq<Candidate>)
    ensures FlatAll(Unlimited(o), files) == FlatAll(o, files)
    ensures FileItems(Unlimited(o), files) == FileItems(o, files)
    decreases |files|
  {
    hide Numeral, Kinds;
    if files != [] {
      FileIgnoresLimit(o, files[0]);
      hide Flat, FileItem;
      FilesIgnoreLimit(o, files[1..]);
    }
  }

  lemma FileIgnoresLimit(o: Options, c: Candidate)
    ensures Flat(Unlimited(o), c) == Flat(o, c) && FileItem(Unlimited(o), c) == FileItem(o, c)
  {
    hide Numeral, Kinds;
    assert Unlimited(o).Before() == o.Before() && Unlimited(o).After() == o.After();
  }

  lemma ResultsIgnoreLimit(o: Options, files: seq<Candidate>, stopAt: nat)
    ensures Results(Unlimited(o), files, stopAt) == Results(o, files, stopAt)
  {
    hide LineItems, FileItems, FlatAll;
    var seen := files[..Min(stopAt, |files|)];
    FilesIgnoreLimit(o, seen);
    LinesIgnoreLimit(o, FlatAll(o, seen), false);
  }

  lemma {:induction false} RenderPrefix(items: seq<Item>, k: nat)
    requires k <= |items|
    ensures Render(items[..k]) <= Render(items)
    decreases |items|
  {
    if k == |items| {
      assert items[..k] == items;
    } else {
      var n := |items| - 1;
      RenderPrefix(items[..n], k);
      assert items[..n][..k] == items[..k];
    }
  }

  lemma {:induction false} LinesWorded(o: Options, ms: seq<Marked>, active: bool)
    ensures Worded(LineItems(o, ms, active))
    decreases |ms|
  {
    hide Format;
    if ms != [] { LinesWorded(o, ms[1..], ms[0].kind != 0); }
  }

  lemma {:induction false} FilesWorded(o: Options, files: seq<Candidate>)
    ensures Worded(FileItems(o, files))
    decreases |files|
  {
    hide Numeral, MatchCount;
    if files != [] { FilesWorded(o, files[1..]); }
  }

  /** With a positive limit the output is that of an unlimited search while
      there are fewer results; from then on it is the first headLimit results,
      a prefix of the unlimited output, and the notice. Reaching the limit with
      the very last result counts too. */
  lemma LimitKeepsPrefix(o: Options, files: seq<Candidate>, stopAt: nat) returns (kept: seq<Item>)
    requires o.headLimit > 0
    ensures kept <= Results(o, files, stopAt)
    ensures |kept| == Min(o.headLimit, |Results(o, files, stopAt)|)
    ensures Render(kept) <= Output(Unlimited(o), files, stopAt)
    ensures if |Results(o, files, stopAt)| < o.headLimit
            then Output(o, files, stopAt) == Output(Unlimited(o), files, stopAt)
            else Output(o, files, stopAt) == Render(kept) + LimitNotice(o.headLimit)
  {
    var items := Results(o, files, stopAt);
    ResultsIgnoreLimit(o, files, stopAt);
    LinesWorded(o, FlatAll(o, files[..Min(stopAt, |files|)]), false);
    FilesWorded(o, files[..Min(stopAt, |files|)]);
    assert Worded(items);
    hide Render, Results, Worded, Numeral;
    var n: nat := Min(o.headLimit, |items|);
    kept := items[..n];
    RenderPrefix(items, n);
    RenderEmpty(items);
    NothingYet();
    assert n == |items| ==> kept == items;
  }

  // ------------------------------------------------------------------
  // Groups
  // ------------------------------------------------------------------

  function ActiveAfter(ms: seq<Marked>, active: bool): bool {
    if ms == [] then active else ms[|ms| - 1].kind != 0
  }

  lemma {:induction false} LineItemsSplit(o: Options, a: seq<Marked>, b: seq<Marked>, active: bool)
    ensures LineItems(o, a + b, active) == LineItems(o, a, active) + LineItems(o, b, ActiveAfter(a, active))
    decreases |a|
  {
    hide Format;
    if a == [] {
      assert a + b == b;
    } else {
      assert (a + b)[1..] == a[1..] + b;
      LineItemsSplit(o, a[1..], b, a[0].kind != 0);
    }
  }

  /** A marked line opens a group exactly when the line searched before it, in
      whatever file, is not marked. */
  lemma GroupStart(o: Options, ms: seq<Marked>, k: nat)
    requires k < |ms| && ms[k].kind != 0
    ensures var before := |LineItems(o, ms[..k], false)|;
            && before < |LineItems(o, ms, false)|
            && LineItems(o, ms, false)[before] == Item(Format(o, ms[k]), k == 0 || ms[k - 1].kind == 0)
  {
    assert ms == ms[..k] + ms[k..];
    LineItemsSplit(o, ms[..k], ms[k..], false);
    LineItemsStep(o, ms[k..], ActiveAfter(ms[..k], false));
    hide LineItems, Format;
  }

  /** So results of two files can follow one another without a separator. */
  lemma NoSeparatorBetweenFiles(o: Options, p: string, q: string, s: string, t: string)
    requires o.mode.Content?
    ensures var files := [Candidate(p, Some([Line(s, true)])), Candidate(q, Some([Line(t, true)]))];
            Results(o, files, 2)
            == [Item(Format(o, Marked(p, 1, s, 2)), true), Item(Format(o, Marked(q, 1, t, 2)), false)]
  {
    hide Format;
    var a, b := Candidate(p, Some([Line(s, true)])), Candidate(q, Some([Line(t, true)]));
    var files := [a, b];
    assert files[..2] == files && files[1..] == [b] && [b][1..] == [];
    var ms := [Marked(p, 1, s, 2), Marked(q, 1, t, 2)];
    assert Flat(o, a) == ms[..1] && Flat(o, b) == ms[1..];
    assert FlatAll(o, [b]) == ms[1..] + [];
    assert FlatAll(o, files) == ms;
    assert ms[1..][1..] == [];
    assert LineItems(o, ms[1..], true) == [Item(Format(o, ms[1]), false)] + [];
  }
}
