/** Which lines of a server answer a request, in terms of the lines themselves. */
module McpAnswers {
  import opened Basics
  import opened JsonValues
  import opened Text
  import opened McpFraming

  /** raw is line, perhaps with the CR that belongs to its line feed. */
  predicate IsLine(raw: string, line: string) {
    raw == line + "\r" || (raw == line && (line == "" || line[|line| - 1] != '\r'))
  }

  /** The message is an object whose id is an integer equal to the request's on 32 bits. */
  predicate Carries(msg: Json, id: int) {
    msg.JObj? && "id" in msg.fields && msg.fields["id"].JInt? && (msg.fields["id"].n - id) % 0x1_0000_0000 == 0
  }

  /** An error comes first; without one there is a result, or none. */
  predicate Says(msg: Json, outcome: Outcome) {
    && msg.JObj?
    && match outcome
       case ErrorResponse(e) => "error" in msg.fields && msg.fields["error"] == e
       case Response(x) => "error" !in msg.fields && "result" in msg.fields && msg.fields["result"] == x
       case MissingResult => "error" !in msg.fields && "result" !in msg.fields
       case _ => false
  }

  ghost predicate AnswerLine(parse: Parse, id: int, raw: string, outcome: Outcome) {
    exists line :: IsLine(raw, line) && line != "" && parse(line).Ok?
                   && Carries(parse(line).value, id) && Says(parse(line).value, outcome)
  }

  ghost predicate BrokenLine(parse: Parse, raw: string, what: string) {
    exists line :: IsLine(raw, line) && line != "" && parse(line) == Err(what)
  }

  /** Blank, or a message that does not carry the id. */
  ghost predicate SkippedLine(parse: Parse, id: int, raw: string) {
    exists line :: IsLine(raw, line) && (line == "" || (parse(line).Ok? && !Carries(parse(line).value, id)))
  }

  predicate Int32Id(id: int) {
    -0x8000_0000 <= id < 0x8000_0000
  }

  predicate Answers(outcome: Outcome) {
    outcome.ErrorResponse? || outcome.Response? || outcome.MissingResult?
  }

  /** Lines, each with its line feed. */
  function Fed(ls: seq<string>): string {
    if ls == [] then "" else ls[0] + "\n" + Fed(ls[1..])
  }

  // ------------------------------------------------------------------
  // One line
  // ------------------------------------------------------------------

  lemma OneText(raw: string, line: string)
    requires IsLine(raw, line)
    ensures line == ChopCr(raw)
  {
  }

  lemma HasText(raw: string)
    ensures IsLine(raw, ChopCr(raw))
  {
    if raw != "" && raw[|raw| - 1] == '\r' { assert raw == raw[..|raw| - 1] + "\r"; }
  }

  lemma IdOn32(n: int, id: int)
    requires Int32Id(id)
    ensures ToInt32(n) == id <==> (n - id) % 0x1_0000_0000 == 0
  {
  }

  lemma CarriesIs(msg: Json, id: int)
    requires Int32Id(id)
    ensures HasId(msg, id) <==> Carries(msg, id)
  {
    if msg.JObj? && "id" in msg.fields && msg.fields["id"].JInt? { IdOn32(msg.fields["id"].n, id); }
    hide ToInt32;
  }

  lemma SaysIs(msg: Json)
    requires msg.JObj?
    ensures Says(msg, FromMessage(msg)) && Answers(FromMessage(msg))
  {
  }

  lemma JudgedLine(parse: Parse, id: int, raw: string)
    requires Int32Id(id)
    ensures match Judge(parse, id, raw)
            case Skip => SkippedLine(parse, id, raw)
            case Malformed(what) => BrokenLine(parse, raw, what)
            case Match(msg) => msg.JObj? && AnswerLine(parse, id, raw, FromMessage(msg))
  {
    hide FromMessage, HasId, Carries, Says, ChopCr, IsLine;
    var line := ChopCr(raw);
    HasText(raw);
    if line != "" && parse(line).Ok? {
      CarriesIs(parse(line).value, id);
      if HasId(parse(line).value, id) {
        MatchIsObject(parse(line).value, id);
        SaysIs(parse(line).value);
      }
    }
  }

  lemma MatchIsObject(msg: Json, id: int)
    requires HasId(msg, id)
    ensures msg.JObj?
  {
  }

  lemma OnlyOneWay(parse: Parse, id: int, raw: string)
    requires Int32Id(id)
    ensures SkippedLine(parse, id, raw) ==> Judge(parse, id, raw).Skip?
    ensures forall what :: BrokenLine(parse, raw, what) ==> Judge(parse, id, raw) == Malformed(what)
  {
    hide HasId, Carries, Says, ChopCr, IsLine;
    if SkippedLine(parse, id, raw) {
      var line :| IsLine(raw, line) && (line == "" || (parse(line).Ok? && !Carries(parse(line).value, id)));
      OneText(raw, line);
      if line != "" { CarriesIs(parse(line).value, id); }
    }
    forall what | BrokenLine(parse, raw, what) ensures Judge(parse, id, raw) == Malformed(what) {
      var line :| IsLine(raw, line) && line != "" && parse(line) == Err(what);
      OneText(raw, line);
    }
  }

  /** No line answers requests with different ids. */
  lemma AnswersOne(parse: Parse, i: int, j: int, raw: string, x: Outcome, y: Outcome)
    requires Int32Id(i) && Int32Id(j) && AnswerLine(parse, i, raw, x) && AnswerLine(parse, j, raw, y)
    ensures i == j && x == y
  {
    hide ChopCr, IsLine, Carries, Says;
    var line :| IsLine(raw, line) && line != "" && parse(line).Ok? && Carries(parse(line).value, i) && Says(parse(line).value, x);
    var same :| IsLine(raw, same) && same != "" && parse(same).Ok? && Carries(parse(same).value, j) && Says(parse(same).value, y);
    OneText(raw, line);
    OneText(raw, same);
    SameId(parse(line).value, i, j);
    SaysOne(parse(line).value, x, y);
  }

  lemma SameId(msg: Json, i: int, j: int)
    requires Int32Id(i) && Int32Id(j) && Carries(msg, i) && Carries(msg, j)
    ensures i == j
  {
    IdOn32(msg.fields["id"].n, i);
    IdOn32(msg.fields["id"].n, j);
  }

  lemma SaysOne(msg: Json, x: Outcome, y: Outcome)
    requires Says(msg, x) && Says(msg, y)
    ensures x == y
  {
  }

  // ------------------------------------------------------------------
  // All output
  // ------------------------------------------------------------------

  lemma FirstOf(ls: seq<string>, tail: string)
    requires ls != [] && '\n' !in ls[0]
    ensures var b := Fed(ls) + tail; var i := |ls[0]|;
            i < |b| && b[i] == '\n' && (forall j | 0 <= j < i :: b[j] != '\n')
            && b[..i] == ls[0] && b[i + 1..] == Fed(ls[1..]) + tail
  {
    var (line, rest) := (ls[0], Fed(ls[1..]) + tail);
    assert Fed(ls) + tail == line + "\n" + rest;
    hide Fed;
    LineAndRest(line, rest);
  }

  lemma LineAndRest(line: string, rest: string)
    requires '\n' !in line
    ensures var b := line + "\n" + rest;
            |line| < |b| && b[|line|] == '\n' && (forall j | 0 <= j < |line| :: b[j] != '\n')
            && b[..|line|] == line && b[|line| + 1..] == rest
  {
    assert forall j | 0 <= j < |line| :: line[j] in line;
  }

  predicate Complete(ls: seq<string>, tail: string) {
    '\n' !in tail && forall l | l in ls :: '\n' !in l
  }

  /** The first n lines are passed over. */
  lemma {:induction false} ScanPasses(parse: Parse, id: int, ls: seq<string>, tail: string, n: nat)
    requires Int32Id(id) && Complete(ls, tail) && n <= |ls| && forall k | 0 <= k < n :: SkippedLine(parse, id, ls[k])
    ensures Scan(parse, id, Fed(ls) + tail) == Scan(parse, id, Fed(ls[n..]) + tail)
    decreases n
  {
    hide Scan, Judge, SkippedLine, Fed;
    if n == 0 {
      assert ls[0..] == ls;
    } else {
      assert ls[0] in ls && ls[1..][n - 1..] == ls[n..];
      FirstOf(ls, tail);
      OnlyOneWay(parse, id, ls[0]);
      ScanLine(parse, id, Fed(ls) + tail, |ls[0]|);
      assert forall k | 0 <= k < n - 1 :: ls[1..][k] == ls[k + 1];
      ScanPasses(parse, id, ls[1..], tail, n - 1);
    }
  }

  /** The first line that is not passed over decides. */
  lemma ScanDecides(parse: Parse, id: int, ls: seq<string>, tail: string, n: nat)
    requires Int32Id(id) && Complete(ls, tail) && n < |ls| && !SkippedLine(parse, id, ls[n])
    requires forall k | 0 <= k < n :: SkippedLine(parse, id, ls[k])
    ensures match Scan(parse, id, Fed(ls) + tail)
            case NeedMore(_) => false
            case Bad(what) => BrokenLine(parse, ls[n], what)
            case Hit(msg, rest) => msg.JObj? && AnswerLine(parse, id, ls[n], FromMessage(msg)) && rest == Fed(ls[n + 1..]) + tail
  {
    hide Scan, Judge, SkippedLine, BrokenLine, AnswerLine, Fed, FromMessage;
    ScanPasses(parse, id, ls, tail, n);
    assert ls[n] in ls && ls[n..][1..] == ls[n + 1..] && ls[n..][0] == ls[n];
    FirstOf(ls[n..], tail);
    ScanLine(parse, id, Fed(ls[n..]) + tail, |ls[n]|);
    JudgedLine(parse, id, ls[n]);
  }

  lemma ScanPassesAll(parse: Parse, id: int, ls: seq<string>, tail: string)
    requires Int32Id(id) && Complete(ls, tail) && forall k | 0 <= k < |ls| :: SkippedLine(parse, id, ls[k])
    ensures Scan(parse, id, Fed(ls) + tail) == NeedMore(tail)
  {
    hide Scan, SkippedLine;
    ScanPasses(parse, id, ls, tail, |ls|);
    assert ls[|ls|..] == [] && Fed([]) + tail == tail;
    forall j | 0 <= j < |tail| ensures tail[j] != '\n' { assert tail[j] in tail; }
    ScanEnd(parse, id, tail);
  }

  /** What was drained from standard error. */
  function ErrorText(polls: seq<Poll>): string
    decreases |polls|
  {
    if polls == [] then "" else (if polls[0].Drained? then polls[0].err else "") + ErrorText(polls[1..])
  }

  /** Pass k ends a wait without an answer: by a stop, by a failed drain, because the
      server has exited, or because there is no pass k any more when the deadline comes.
      The last two tell all of standard error. */
  predicate EndsSilentlyAt(polls: seq<Poll>, stderr: string, shutdown: bool, k: nat, outcome: Outcome) {
    && k <= |polls| && (forall i | 0 <= i < k :: polls[i].Drained? && !polls[i].finished && !shutdown)
    && if k == |polls| then outcome == TimedOut(stderr + ErrorText(polls))
       else if polls[k].StopSeen? then outcome == Cancelled
       else if polls[k].DrainFailed? then outcome == DrainError(polls[k].status)
       else (shutdown || polls[k].finished) && outcome == Exited(stderr + ErrorText(polls[..k + 1]))
  }

  ghost predicate EndsSilently(polls: seq<Poll>, stderr: string, shutdown: bool, outcome: Outcome) {
    exists k :: EndsSilentlyAt(polls, stderr, shutdown, k, outcome)
  }

  lemma ErrorTextFirst(polls: seq<Poll>, k: nat)
    requires 0 < k <= |polls| && polls[0].Drained?
    ensures ErrorText(polls[..k]) == polls[0].err + ErrorText(polls[1..][..k - 1])
  {
    assert polls[..k][1..] == polls[1..][..k - 1];
  }

  lemma {:induction false} SilenceIs(polls: seq<Poll>, stderr: string, shutdown: bool) returns (k: nat)
    ensures EndsSilentlyAt(polls, stderr, shutdown, k, Silence(polls, stderr, shutdown).0)
    decreases |polls|
  {
    if polls == [] || !polls[0].Drained? || shutdown || polls[0].finished {
      k := 0;
      assert stderr + "" == stderr;
      if polls != [] && polls[0].Drained? {
        ErrorTextFirst(polls, 1);
        assert polls[1..][..0] == [] && polls[0].err + "" == polls[0].err;
      }
    } else {
      var (err, rest) := (polls[0].err, polls[1..]);
      k := SilenceIs(rest, stderr + err, shutdown);
      assert forall i | 0 < i < |polls| :: polls[i] == rest[i - 1];
      ErrorTextFirst(polls, |polls|);
      assert polls[..|polls|] == polls && rest[..|rest|] == rest;
      assert stderr + err + ErrorText(rest) == stderr + (err + ErrorText(rest));
      if k < |rest| {
        ErrorTextFirst(polls, k + 2);
        var some := ErrorText(rest[..k + 1]);
        assert stderr + err + some == stderr + (err + some);
      }
      k := k + 1;
    }
  }

  lemma SilentEnd(polls: seq<Poll>, stderr: string, shutdown: bool)
    ensures EndsSilently(polls, stderr, shutdown, Silence(polls, stderr, shutdown).0)
  {
    var k := SilenceIs(polls, stderr, shutdown);
  }

  /** A wait is decided by the first complete line that it may hear and that is not passed
      over: a line that does not parse breaks it, any other answers the request, with what
      it says, and only the bytes behind it remain. Without such a line nothing is answered,
      and the outcome says what ended the wait. */
  lemma WaitAnswers(parse: Parse, id: int, polls: seq<Poll>, p: Pipe, ls: seq<string>, tail: string, n: nat)
    requires Int32Id(id) && (Drains(polls) || '\n' !in p.stdout)
    requires p.stdout + HeardOutput(polls, p.shutdown) == Fed(ls) + tail && Complete(ls, tail)
    requires n <= |ls| && (forall k | 0 <= k < n :: SkippedLine(parse, id, ls[k]))
    requires n < |ls| ==> !SkippedLine(parse, id, ls[n])
    ensures var (outcome, q, unused) := Wait(parse, id, polls, p);
            if n == |ls| then
              EndsSilently(polls, p.stderr, p.shutdown, outcome) && q.stdout == tail
            else if outcome.MalformedJson? then
              BrokenLine(parse, ls[n], outcome.what)
            else
              AnswerLine(parse, id, ls[n], outcome) && q.stdout + Unheard(polls, p.shutdown, unused) == Fed(ls[n + 1..]) + tail
  {
    hide EndsSilently, Silence;
    hide Scan, Wait, HeardOutput, Unheard, Heard, SkippedLine, BrokenLine, AnswerLine, Fed, FromMessage, LfAt;
    if '\n' !in p.stdout { LfAtIs(p.stdout, |p.stdout|); }
    ChunkingIgnored(parse, id, polls, p);
    if n == |ls| {
      ScanPassesAll(parse, id, ls, tail);
      SilentEnd(polls, p.stderr, p.shutdown);
    } else {
      ScanDecides(parse, id, ls, tail, n);
      var found := Scan(parse, id, Fed(ls) + tail);
      if found.Hit? { AnswerIsNoBreak(parse, id, ls[n], FromMessage(found.msg)); }
    }
  }

  lemma AnswerIsNoBreak(parse: Parse, id: int, raw: string, outcome: Outcome)
    requires AnswerLine(parse, id, raw, outcome)
    ensures Answers(outcome)
  {
    hide IsLine, Carries;
  }

  // ------------------------------------------------------------------
  // A sequence of requests
  // ------------------------------------------------------------------

  /** Every text is its complete lines and what is behind the last of them. */
  lemma {:induction false} InLines(s: string) returns (ls: seq<string>, tail: string)
    ensures s == Fed(ls) + tail && Complete(ls, tail)
    decreases |s|
  {
    var i := LfAt(s);
    if i == |s| {
      ls, tail := [], s;
      assert Fed([]) + s == s;
    } else {
      var more: seq<string>;
      more, tail := InLines(s[i + 1..]);
      ls := [s[..i]] + more;
      assert ls[1..] == more;
      assert s == s[..i] + "\n" + (Fed(more) + tail);
    }
  }

  lemma {:induction false} FirstKept(parse: Parse, id: int, ls: seq<string>) returns (n: nat)
    ensures n <= |ls| && (forall k | 0 <= k < n :: SkippedLine(parse, id, ls[k]))
    ensures n < |ls| ==> !SkippedLine(parse, id, ls[n])
    decreases |ls|
  {
    hide SkippedLine;
    if ls == [] || !SkippedLine(parse, id, ls[0]) {
      n := 0;
    } else {
      n := FirstKept(parse, id, ls[1..]);
      n := n + 1;
    }
  }

  lemma Undrained(parse: Parse, id: int, polls: seq<Poll>, p: Pipe)
    requires !Drains(polls)
    ensures !Answers(Wait(parse, id, polls, p).0)
  {
  }

  /** An answered wait has its line. */
  lemma AnsweredBy(parse: Parse, id: int, polls: seq<Poll>, p: Pipe) returns (raw: string)
    requires Int32Id(id) && Answers(Wait(parse, id, polls, p).0)
    ensures AnswerLine(parse, id, raw, Wait(parse, id, polls, p).0)
  {
    hide Wait, AnswerLine, SkippedLine, Fed;
    if !Drains(polls) { Undrained(parse, id, polls, p); }
    var ls, tail := InLines(p.stdout + HeardOutput(polls, p.shutdown));
    var n := FirstKept(parse, id, ls);
    WaitAnswers(parse, id, polls, p, ls, tail, n);
    raw := ls[n];
  }

  /** Among requests with different ids every answer comes from a line that carries the
      id of its own request and could answer no other. */
  lemma {:induction false} RequestsAnswered(parse: Parse, rs: seq<McpFraming.Request>, p: Pipe, k: nat)
    requires k < |rs| && (forall j | 0 <= j < |rs| :: Int32Id(rs[j].id))
    requires forall i, j | 0 <= i < j < |rs| :: rs[i].id != rs[j].id
    requires Answers(Requests(parse, rs, p).0[k])
    ensures exists raw :: AnswerLine(parse, rs[k].id, raw, Requests(parse, rs, p).0[k])
                          && forall j, o | 0 <= j < |rs| && j != k :: !AnswerLine(parse, rs[j].id, raw, o)
  {
    hide AnswerLine, Wait;
    var raw := AnswerAt(parse, rs, p, k);
    forall j, o | 0 <= j < |rs| && j != k ensures !AnswerLine(parse, rs[j].id, raw, o) {
      if AnswerLine(parse, rs[j].id, raw, o) {
        AnswersOne(parse, rs[k].id, rs[j].id, raw, Requests(parse, rs, p).0[k], o);
      }
    }
  }

  lemma {:induction false} AnswerAt(parse: Parse, rs: seq<McpFraming.Request>, p: Pipe, k: nat) returns (raw: string)
    requires k < |rs| && Int32Id(rs[k].id)
    requires Answers(Requests(parse, rs, p).0[k])
    ensures AnswerLine(parse, rs[k].id, raw, Requests(parse, rs, p).0[k])
    decreases k
  {
    hide AnswerLine, Wait;
    var (outcome, q, _) := Wait(parse, rs[0].id, rs[0].polls, p);
    var later := Requests(parse, rs[1..], q).0;
    assert Requests(parse, rs, p).0 == [outcome] + later;
    if k == 0 {
      raw := AnsweredBy(parse, rs[0].id, rs[0].polls, p);
    } else {
      raw := AnswerAt(parse, rs[1..], q, k - 1);
    }
  }
}
