/** The two places that replace text: the file editing tool and the skill
    prompt renderer. */
module EditFile {
  import opened Basics
  import opened ReplaceSpec

  /** How an edit ends; a completed edit has written the new text. */
  datatype Outcome =
    | NoHost
    | PathRequired
    | OldRequired
    | SameStrings
    | Unreadable
    | NotFound
    | Ambiguous
    | Unwritable
    | Edited(text: Text, replaced: nat)

  datatype Args = Args(path: string, oldString: Text, newString: Text, replaceAll: bool)

  /** What the host does for the edit: the file's contents (None: it cannot be read),
      and whether it can be written. */
  datatype Host = Host(file: Option<Text>, writable: bool)

  /** What an edit must do. */
  function Expected(args: Args, host: Option<Host>): Outcome {
    if host.None? then NoHost
    else if args.path == "" then PathRequired
    else if args.oldString == "" then OldRequired
    else if args.oldString == args.newString then SameStrings
    else if host.value.file.None? then Unreadable
    else
      var text := host.value.file.value;
      var count := Count(text, args.oldString);
      if count == 0 then NotFound
      else if !args.replaceAll && count > 1 then Ambiguous
      else if !host.value.writable then Unwritable
      else Edited(Replaced(text, args.oldString, args.newString), count)
  }

  /** When an edit ends in which way: the arguments are checked before the file is read,
      the old string must occur, and without replace_all all its occurrences overlap. */
  lemma OutcomeIff(args: Args, host: Option<Host>)
    ensures var r := Expected(args, host);
            var asked := host.Some? && args.path != "";
            var differ := asked && args.oldString != "" && args.oldString != args.newString;
            && (r == NoHost <==> host.None?)
            && (r == PathRequired <==> host.Some? && args.path == "")
            && (r == OldRequired <==> asked && args.oldString == "")
            && (r == SameStrings <==> asked && args.oldString != "" && args.oldString == args.newString)
            && (r == Unreadable <==> differ && host.value.file.None?)
            && (differ && host.value.file.Some? ==>
                  var text := host.value.file.value;
                  var found := exists i: nat :: MatchAt(text, args.oldString, i);
                  var apart := exists i: nat, j: nat ::
                                 MatchAt(text, args.oldString, i) && MatchAt(text, args.oldString, j) && i + |args.oldString| <= j;
                  && (r == NotFound <==> !found)
                  && (r == Ambiguous <==> !args.replaceAll && apart)
                  && (r == Unwritable <==> found && (args.replaceAll || !apart) && !host.value.writable)
                  && (r.Edited? <==> found && (args.replaceAll || !apart) && host.value.writable))
  {
    hide Count, Replaced, MatchAt;
    if host.Some? && host.value.file.Some? && args.oldString != "" {
      var text := host.value.file.value;
      NoneMeansNowhere(text, args.oldString);
      SeveralMeansApart(text, args.oldString);
    }
  }

  method CountOccurrences(text: Text, pat: Text) returns (count: nat)
    requires pat != []
    ensures count == Count(text, pat)
  {
    hide Find, Count, Replaced, MatchAt;
    count := 0;
    var pos := 0;
    assert text[0..] == text;
    while pos <= |text|
      invariant 0 <= pos <= |text|
      invariant count + Count(text[pos..], pat) == Count(text, pat)
      decreases |text| - pos
    {
      var found := Find(text, pat, pos);
      NextMatch(text, pat, [], pos);
      if found.None? { break; }
      count := count + 1;
      pos := found.value + |pat|;
    }
  }

  /** result is the replacement of text[..cursor]: with that of the rest behind it, it
      is the whole. */
  ghost predicate Progress(text: Text, from: Text, to: Text, cursor: nat, result: Text)
    requires from != []
  {
    cursor <= |text| && result + Replaced(text[cursor..], from, to) == Replaced(text, from, to)
  }

  lemma ProgressBegins(text: Text, from: Text, to: Text)
    requires from != []
    ensures Progress(text, from, to, 0, [])
  {
    assert text[0..] == text;
    assert [] + Replaced(text, from, to) == Replaced(text, from, to);
  }

  lemma ProgressGoesOn(text: Text, from: Text, to: Text, cursor: nat, found: nat, result: Text)
    requires from != [] && Progress(text, from, to, cursor, result) && Find(text, from, cursor) == Some(found)
    ensures cursor <= found && found + |from| <= |text|
    ensures Progress(text, from, to, found + |from|, result + text[cursor..found] + to)
  {
    hide Find, Replaced, Count, MatchAt;
    NextMatch(text, from, to, cursor);
    Joined(result, text[cursor..found], to, Replaced(text[found + |from|..], from, to));
  }

  lemma ProgressEnds(text: Text, from: Text, to: Text, cursor: nat, result: Text)
    requires from != [] && Progress(text, from, to, cursor, result)
    requires Find(text, from, cursor).None? || Count(text[cursor..], from) == 0
    ensures result + text[cursor..] == Replaced(text, from, to)
  {
    hide Find, Replaced, Count, MatchAt;
    NextMatch(text, from, to, cursor);
  }

  lemma Joined(a: Text, b: Text, c: Text, d: Text)
    ensures a + (b + c + d) == a + b + c + d
  {
  }

  /** The rewriting loop: stops after one replacement unless all is set. */
  method Rewrite(text: Text, from: Text, to: Text, all: bool) returns (result: Text, replaced: nat)
    requires from != [] && Count(text, from) > 0
    requires all || Count(text, from) == 1
    ensures result == Replaced(text, from, to) && replaced == Count(text, from)
  {
    hide Find, Count, Replaced, MatchAt, Progress;
    result, replaced := [], 0;
    var cursor := 0;
    ProgressBegins(text, from, to);
    assert text[0..] == text;
    while true
      invariant 0 <= cursor <= |text| && Progress(text, from, to, cursor, result)
      invariant replaced + Count(text[cursor..], from) == Count(text, from)
      invariant !all ==> replaced == 0
      decreases |text| - cursor
    {
      var found := Find(text, from, cursor);
      NextMatch(text, from, to, cursor);
      if found.None? { break; }
      ProgressGoesOn(text, from, to, cursor, found.value, result);
      result := result + text[cursor..found.value];
      result := result + to;
      cursor := found.value + |from|;
      replaced := replaced + 1;
      if !all {
        ProgressEnds(text, from, to, cursor, result);
        result := result + text[cursor..];
        return;
      }
    }
    ProgressEnds(text, from, to, cursor, result);
    result := result + text[cursor..];
  }

  /** EditFileTool::Execute. */
  method Execute(args: Args, host: Option<Host>) returns (r: Outcome)
    ensures r == Expected(args, host)
  {
    hide Count, Replaced;
    if host.None? { return NoHost; }
    if args.path == "" { return PathRequired; }
    if args.oldString == "" { return OldRequired; }
    if args.oldString == args.newString { return SameStrings; }
    if host.value.file.None? { return Unreadable; }
    var text := host.value.file.value;
    var count := CountOccurrences(text, args.oldString);
    if count == 0 { return NotFound; }
    if !args.replaceAll && count > 1 { return Ambiguous; }
    var result, replaced := Rewrite(text, args.oldString, args.newString, args.replaceAll);
    r := if host.value.writable then Edited(result, replaced) else Unwritable;
  }

  /** ReplaceAll of the skill registry: an empty pattern leaves the text. */
  method ReplaceAll(str: Text, from: Text, to: Text) returns (result: Text)
    ensures result == if from == [] then str else Replaced(str, from, to)
  {
    if from == [] { return str; }
    hide Find, Replaced, MatchAt, Progress;
    result := [];
    var prev := 0;
    ProgressBegins(str, from, to);
    while true
      invariant 0 <= prev <= |str| && Progress(str, from, to, prev, result)
      decreases |str| - prev
    {
      var pos := Find(str, from, prev);
      if pos.None? { break; }
      ProgressGoesOn(str, from, to, prev, pos.value, result);
      result := result + str[prev..pos.value];
      result := result + to;
      prev := pos.value + |from|;
    }
    ProgressEnds(str, from, to, prev, result);
    result := result + str[prev..];
  }

  /** A completed edit without replace_all had, up to overlap, one place to
      change; the old and new sizes differ by what was replaced. */
  lemma EditIsPrecise(args: Args, text: Text)
    requires Expected(args, Some(Host(Some(text), true))).Edited?
    ensures var r := Expected(args, Some(Host(Some(text), true)));
            && r.replaced > 0
            && |r.text| + r.replaced * |args.oldString| == |text| + r.replaced * |args.newString|
            && (!args.replaceAll ==> forall i: nat, j: nat ::
                 MatchAt(text, args.oldString, i) && MatchAt(text, args.oldString, j) ==> j < i + |args.oldString|)
  {
    hide Count, Replaced, MatchAt;
    LengthAddsUp(text, args.oldString, args.newString);
    SeveralMeansApart(text, args.oldString);
  }

  function Reverse(args: Args): Args {
    Args(args.path, args.newString, args.oldString, args.replaceAll)
  }

  /** The reverse edit undoes a completed edit, with as many changes, exactly when
      the edit did not just delete and its new string turns up only where it was put. */
  lemma EditUndoneIff(args: Args, text: Text)
    requires Expected(args, Some(Host(Some(text), true))).Edited?
    ensures var r := Expected(args, Some(Host(Some(text), true)));
            Expected(Reverse(args), Some(Host(Some(r.text), true))) == Edited(text, r.replaced)
            <==> args.newString != "" && OnlyWherePut(text, args.oldString, args.newString)
  {
    hide Count, Replaced, OnlyWherePut;
    if args.newString != "" { UndoIff(text, args.oldString, args.newString); }
  }

  /** So it does if the edit brought in a character new to the file. */
  lemma EditCanBeUndone(args: Args, text: Text, b: char)
    requires b in args.newString && b !in text
    requires Expected(args, Some(Host(Some(text), true))).Edited?
    ensures var r := Expected(args, Some(Host(Some(text), true)));
            Expected(Reverse(args), Some(Host(Some(r.text), true))) == Edited(text, r.replaced)
  {
    hide Count, Replaced, OnlyWherePut;
    ReplaceCanBeUndone(text, args.oldString, args.newString, b);
    UndoIff(text, args.oldString, args.newString);
    EditUndoneIff(args, text);
  }
}
