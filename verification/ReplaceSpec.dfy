/** Leftmost non-overlapping replacement, as a function of the text, and what
    it promises: the lengths add up, the count is the most occurrences that can
    be disjoint, and when replacing back restores the text. */
module ReplaceSpec {
  import opened Basics

  type Text = string

  predicate MatchAt(text: Text, pat: Text, i: nat) {
    i + |pat| <= |text| && text[i..i + |pat|] == pat
  }

  /** std::string::find: the first match at or after pos. */
  function Find(text: Text, pat: Text, pos: nat): Option<nat>
    decreases |text| - pos
  {
    if pos + |pat| > |text| then None
    else if MatchAt(text, pat, pos) then Some(pos)
    else Find(text, pat, pos + 1)
  }

  function Replaced(s: Text, from: Text, to: Text): Text
    requires from != []
    decreases |s|
  {
    if s == [] then []
    else if from <= s then to + Replaced(s[|from|..], from, to)
    else [s[0]] + Replaced(s[1..], from, to)
  }

  function Count(s: Text, from: Text): nat
    requires from != []
    decreases |s|
  {
    if s == [] then 0
    else if from <= s then 1 + Count(s[|from|..], from)
    else Count(s[1..], from)
  }

  // ------------------------------------------------------------------
  // Search and replacement
  // ------------------------------------------------------------------

  lemma {:induction false} FindIs(text: Text, pat: Text, pos: nat)
    ensures match Find(text, pat, pos)
            case Some(i) => pos <= i && MatchAt(text, pat, i) && forall j :: pos <= j < i ==> !MatchAt(text, pat, j)
            case None => forall j :: pos <= j ==> !MatchAt(text, pat, j)
    decreases |text| - pos
  {
    if pos + |pat| <= |text| && !MatchAt(text, pat, pos) {
      FindIs(text, pat, pos + 1);
    }
  }

  lemma MatchIsPrefix(text: Text, pat: Text, i: nat)
    requires i <= |text|
    ensures MatchAt(text, pat, i) <==> pat <= text[i..]
  {
    if pat <= text[i..] {
      assert text[i..i + |pat|] == text[i..][..|pat|];
    }
  }

  /** Nothing happens before the next match. */
  lemma {:induction false} SkipsToMatch(text: Text, from: Text, to: Text, pos: nat, i: nat)
    requires from != [] && pos <= i <= |text|
    requires forall j :: pos <= j < i ==> !MatchAt(text, from, j)
    ensures Replaced(text[pos..], from, to) == text[pos..i] + Replaced(text[i..], from, to)
    ensures Count(text[pos..], from) == Count(text[i..], from)
    decreases i - pos
  {
    if pos < i {
      MatchIsPrefix(text, from, pos);
      hide MatchAt;
      SkipsToMatch(text, from, to, pos + 1, i);
      assert text[pos..][1..] == text[pos + 1..];
      assert text[pos..i] == [text[pos]] + text[pos + 1..i];
    } else {
      assert text[pos..i] == [];
    }
  }

  /** One search and replacement step. */
  lemma NextMatch(text: Text, from: Text, to: Text, pos: nat)
    requires from != [] && pos <= |text|
    ensures match Find(text, from, pos)
            case Some(i) =>
              && pos <= i && i + |from| <= |text|
              && Replaced(text[pos..], from, to) == text[pos..i] + to + Replaced(text[i + |from|..], from, to)
              && Count(text[pos..], from) == 1 + Count(text[i + |from|..], from)
            case None => Replaced(text[pos..], from, to) == text[pos..] && Count(text[pos..], from) == 0
  {
    FindIs(text, from, pos);
    match Find(text, from, pos)
    case Some(i) =>
      MatchIsPrefix(text, from, i);
      SkipsToMatch(text, from, to, pos, i);
      hide Find, MatchAt;
      assert text[i..][|from|..] == text[i + |from|..];
    case None =>
      SkipsToMatch(text, from, to, pos, |text|);
      hide Find, MatchAt;
      assert text[|text|..] == [] && text[pos..|text|] == text[pos..];
  }

  // ------------------------------------------------------------------
  // Conservation
  // ------------------------------------------------------------------

  lemma OneMore(n: nat, k: nat)
    ensures (1 + n) * k == k + n * k
  {
  }

  lemma Arithmetic(r: int, r0: int, n: nat, f: nat, t: nat, s0: int)
    requires r0 + n * f == s0 + n * t && r == t + r0
    ensures r + (1 + n) * f == (f + s0) + (1 + n) * t
  {
    OneMore(n, f);
    OneMore(n, t);
  }

  lemma {:induction false} LengthAddsUp(s: Text, from: Text, to: Text)
    requires from != []
    ensures |Replaced(s, from, to)| + Count(s, from) * |from| == |s| + Count(s, from) * |to|
    decreases |s|
  {
    if s != [] {
      if from <= s {
        var rest := s[|from|..];
        LengthAddsUp(rest, from, to);
        var n, r0, r := Count(rest, from), |Replaced(rest, from, to)|, |Replaced(s, from, to)|;
        assert Count(s, from) == 1 + n && r == |to| + r0;
        hide Replaced, Count;
        Arithmetic(r, r0, n, |from|, |to|, |rest|);
      } else {
        LengthAddsUp(s[1..], from, to);
      }
    }
  }

  /** Starts of matches, none overlapping the next. */
  ghost predicate Disjoint(s: Text, from: Text, ps: seq<nat>) {
    && (forall k :: 0 <= k < |ps| ==> MatchAt(s, from, ps[k]))
    && (forall k, l :: 0 <= k < l < |ps| ==> ps[k] + |from| <= ps[l])
  }

  lemma Shifted(s: Text, from: Text, ps: seq<nat>, d: nat) returns (qs: seq<nat>)
    requires Disjoint(s, from, ps) && d <= |s| && forall k :: 0 <= k < |ps| ==> d <= ps[k]
    ensures |qs| == |ps| && Disjoint(s[d..], from, qs)
  {
    qs := seq(|ps|, k requires 0 <= k < |ps| => ps[k] - d);
    forall k | 0 <= k < |ps| ensures MatchAt(s[d..], from, qs[k]) {
      assert MatchAt(s, from, ps[k]);
      assert s[d..][qs[k]..qs[k] + |from|] == s[ps[k]..ps[k] + |from|];
    }
  }

  /** No selection of disjoint occurrences is larger than the count. */
  lemma {:induction false} CountIsMost(s: Text, from: Text, ps: seq<nat>)
    requires from != [] && Disjoint(s, from, ps)
    ensures |ps| <= Count(s, from)
    decreases |s|
  {
    if |ps| > 0 {
      assert MatchAt(s, from, ps[0]);
      if from <= s {
        var rest := ps[1..];
        assert forall k :: 0 <= k < |rest| ==> MatchAt(s, from, rest[k]) && |from| <= rest[k];
        var qs := Shifted(s, from, rest, |from|);
        CountIsMost(s[|from|..], from, qs);
      } else {
        MatchIsPrefix(s, from, 0);
        assert s[0..] == s;
        assert forall k :: 0 <= k < |ps| ==> 1 <= ps[k];
        var qs := Shifted(s, from, ps, 1);
        CountIsMost(s[1..], from, qs);
      }
    }
  }

  /** And the count is reached by one. */
  lemma {:induction false} CountIsReached(s: Text, from: Text) returns (ps: seq<nat>)
    requires from != []
    ensures |ps| == Count(s, from) && Disjoint(s, from, ps)
    decreases |s|
  {
    if s == [] {
      ps := [];
    } else {
      var d := if from <= s then |from| else 1;
      var qs := CountIsReached(s[d..], from);
      var moved := Unshifted(s, from, qs, d);
      if from <= s {
        assert MatchAt(s, from, 0);
        ps := [0] + moved;
      } else {
        ps := moved;
      }
    }
  }

  lemma Unshifted(s: Text, from: Text, qs: seq<nat>, d: nat) returns (ps: seq<nat>)
    requires d <= |s| && Disjoint(s[d..], from, qs)
    ensures |ps| == |qs| && Disjoint(s, from, ps) && forall k :: 0 <= k < |ps| ==> d <= ps[k]
  {
    ps := seq(|qs|, k requires 0 <= k < |qs| => qs[k] + d);
    forall k | 0 <= k < |ps| ensures MatchAt(s, from, ps[k]) {
      assert MatchAt(s[d..], from, qs[k]);
      assert s[d..][qs[k]..qs[k] + |from|] == s[ps[k]..ps[k] + |from|];
    }
  }

  /** More than one occurrence is counted exactly when two of them are apart;
      overlapping occurrences count once. */
  lemma SeveralMeansApart(s: Text, from: Text)
    requires from != []
    ensures Count(s, from) > 1 <==> exists i: nat, j: nat :: MatchAt(s, from, i) && MatchAt(s, from, j) && i + |from| <= j
  {
    if Count(s, from) > 1 {
      var ps := CountIsReached(s, from);
      assert MatchAt(s, from, ps[0]) && MatchAt(s, from, ps[1]);
    }
    if i: nat, j: nat :| MatchAt(s, from, i) && MatchAt(s, from, j) && i + |from| <= j {
      CountIsMost(s, from, [i, j]);
    }
  }

  lemma NoneMeansNowhere(s: Text, from: Text)
    requires from != []
    ensures Count(s, from) == 0 <==> forall i: nat :: !MatchAt(s, from, i)
  {
    if Count(s, from) > 0 {
      var ps := CountIsReached(s, from);
      assert MatchAt(s, from, ps[0]);
    }
    if i: nat :| MatchAt(s, from, i) {
      CountIsMost(s, from, [i]);
    }
  }

  /** Overlapping occurrences: two places, one replacement. */
  lemma OverlapCountsOnce()
    ensures Count("aaa", "aa") == 1 && MatchAt("aaa", "aa", 0) && MatchAt("aaa", "aa", 1)
  {
    var s := "aaa";
    assert s[2..] == "a" && "a"[1..] == "";
    assert s[0..2] == "aa" && s[1..3] == "aa";
    assert "aa" <= s;
    assert !("aa" <= "a");
    assert Count("a", "aa") == 0;
  }

  // ------------------------------------------------------------------
  // Undoing
  // ------------------------------------------------------------------

  lemma AtMatch(s: Text, from: Text, to: Text)
    requires from != [] && from <= s
    ensures Replaced(s, from, to) == to + Replaced(s[|from|..], from, to)
    ensures Count(s, from) == 1 + Count(s[|from|..], from)
  {
  }

  lemma AtOther(s: Text, from: Text, to: Text)
    requires from != [] && s != [] && !(from <= s)
    ensures Replaced(s, from, to) == [s[0]] + Replaced(s[1..], from, to)
    ensures Count(s, from) == Count(s[1..], from)
  {
  }

  /** Walking over s as the replacement does, the new text turns up only where it was
      put. */
  predicate OnlyWherePut(s: Text, from: Text, to: Text)
    requires from != []
    decreases |s|
  {
    if s == [] then true
    else if from <= s then OnlyWherePut(s[|from|..], from, to)
    else !(to <= Replaced(s, from, to)) && OnlyWherePut(s[1..], from, to)
  }

  lemma SameRest(a: Text, x: Text, y: Text)
    ensures a + x == a + y <==> x == y
  {
    if a + x == a + y { assert x == (a + x)[|a|..] && y == (a + y)[|a|..]; }
  }

  lemma UndoAtMatch(s: Text, from: Text, to: Text)
    requires from != [] && to != [] && from <= s
    ensures Replaced(Replaced(s, from, to), to, from) == s
        <==> Replaced(Replaced(s[|from|..], from, to), to, from) == s[|from|..]
    ensures Count(Replaced(s, from, to), to) == 1 + Count(Replaced(s[|from|..], from, to), to)
  {
    AtMatch(s, from, to);
    hide Replaced, Count;
    var (r, rest) := (Replaced(s, from, to), s[|from|..]);
    AtMatch(r, to, from);
    assert r[|to|..] == Replaced(rest, from, to) && s == from + rest;
    SameRest(from, Replaced(Replaced(rest, from, to), to, from), rest);
  }

  lemma UndoAtOther(s: Text, from: Text, to: Text)
    requires from != [] && to != [] && s != [] && !(from <= s) && !(to <= Replaced(s, from, to))
    ensures Replaced(Replaced(s, from, to), to, from) == s
        <==> Replaced(Replaced(s[1..], from, to), to, from) == s[1..]
    ensures Count(Replaced(s, from, to), to) == Count(Replaced(s[1..], from, to), to)
  {
    AtOther(s, from, to);
    hide Replaced, Count;
    var (r, rest) := (Replaced(s, from, to), s[1..]);
    AtOther(r, to, from);
    assert r[1..] == Replaced(rest, from, to) && s == [s[0]] + rest;
    SameRest([s[0]], Replaced(Replaced(rest, from, to), to, from), rest);
  }

  /** Where the new text turns up of itself, replacing back puts the old text, which
      was not there. */
  lemma UndoFailsHere(s: Text, from: Text, to: Text)
    requires from != [] && to != [] && s != [] && !(from <= s) && to <= Replaced(s, from, to)
    ensures Replaced(Replaced(s, from, to), to, from) != s
  {
    var r := Replaced(s, from, to);
    AtMatch(r, to, from);
    hide Replaced;
    assert from <= Replaced(r, to, from);
  }

  /** Replacing back restores the text exactly when the new text turns up only where
      it was put; it then makes as many replacements. */
  lemma {:induction false} UndoIff(s: Text, from: Text, to: Text)
    requires from != [] && to != []
    ensures Replaced(Replaced(s, from, to), to, from) == s <==> OnlyWherePut(s, from, to)
    ensures OnlyWherePut(s, from, to) ==> Count(Replaced(s, from, to), to) == Count(s, from)
    decreases |s|
  {
    if s == [] {
    } else if from <= s {
      AtMatch(s, from, to);
      UndoAtMatch(s, from, to);
      hide Replaced, Count;
      UndoIff(s[|from|..], from, to);
    } else if to <= Replaced(s, from, to) {
      UndoFailsHere(s, from, to);
    } else {
      AtOther(s, from, to);
      UndoAtOther(s, from, to);
      hide Replaced, Count;
      UndoIff(s[1..], from, to);
    }
  }

  /** Before the first fresh character of a replacement nothing is fresh. */
  lemma {:induction false} FreshComesLate(s: Text, from: Text, to: Text, k: nat, j: nat)
    requires from != [] && k < |to| && to[k] !in s && to[k] !in to[..k]
    requires j < k && j < |Replaced(s, from, to)|
    ensures Replaced(s, from, to)[j] != to[k]
    decreases |s|
  {
    if s != [] {
      if from <= s {
        assert to[j] == to[..k][j];
      } else if j > 0 {
        FreshComesLate(s[1..], from, to, k, j - 1);
      }
    }
  }

  /** So the replacement text does not turn up before the first real one. */
  lemma NotBefore(s: Text, from: Text, to: Text, k: nat)
    requires from != [] && k < |to| && to[k] !in s && to[k] !in to[..k]
    requires s != [] && !(from <= s)
    ensures !(to <= Replaced(s, from, to))
  {
    var r := Replaced(s, from, to);
    if to <= r {
      assert r[k] == to[k] && r[1..] == Replaced(s[1..], from, to);
      if k > 0 { FreshComesLate(s[1..], from, to, k, k - 1); }
      assert false;
    }
  }

  lemma {:induction false} FreshIsOnlyPut(s: Text, from: Text, to: Text, k: nat)
    requires from != [] && k < |to| && to[k] !in s && to[k] !in to[..k]
    ensures OnlyWherePut(s, from, to)
    decreases |s|
  {
    hide Replaced;
    if s == [] {
    } else if from <= s {
      FreshIsOnlyPut(s[|from|..], from, to, k);
    } else {
      NotBefore(s, from, to, k);
      FreshIsOnlyPut(s[1..], from, to, k);
    }
  }

  lemma FirstPlace(to: Text, b: char) returns (k: nat)
    requires b in to
    ensures k < |to| && to[k] == b && b !in to[..k]
  {
    k := 0;
    while to[k] != b
      invariant k < |to| && b !in to[..k]
      invariant exists j :: k <= j < |to| && to[j] == b
      decreases |to| - k
    {
      k := k + 1;
    }
  }

  /** So it does if the new text has a character that the text lacks. */
  lemma ReplaceCanBeUndone(s: Text, from: Text, to: Text, b: char)
    requires from != [] && b in to && b !in s
    ensures Replaced(Replaced(s, from, to), to, from) == s
    ensures Count(Replaced(s, from, to), to) == Count(s, from)
  {
    var k := FirstPlace(to, b);
    FreshIsOnlyPut(s, from, to, k);
    UndoIff(s, from, to);
  }

  /** A text that replacing back does not restore. */
  lemma UndoCanFail()
    ensures Replaced(Replaced("ba", "b", "a"), "a", "b") == "bb"
  {
    assert "ba"[1..] == "a" && "a"[1..] == "" && "aa"[1..] == "a";
    assert Replaced("a", "b", "a") == "a" by { assert ['a'] + "" == "a"; }
    assert Replaced("ba", "b", "a") == "aa";
    assert Replaced("a", "a", "b") == "b" by { assert "b" + "" == "b"; }
  }
}
