/** Waiting for a response on a server's standard output: line framing over
    drained chunks, and matching by id. JSON parsing is an oracle. */
module McpFraming {
  import opened Basics
  import opened JsonValues
  import opened Text

  type Parse = string -> Result<Json, string>

  /** One pass of the waiting loop. The end of the list is the deadline. */
  datatype Poll = StopSeen | DrainFailed(status: string) | Drained(out: string, err: string, finished: bool)

  datatype Outcome =
    | Cancelled
    | DrainError(status: string)
    | MalformedJson(what: string)
    | ErrorResponse(error: Json)
    | MissingResult
    | Response(result: Json)
    | Exited(stderr: string)
    | TimedOut(stderr: string)

  predicate HasId(msg: Json, id: int) {
    msg.Contains("id") && msg.fields["id"].JInt? && ToInt32(msg.fields["id"].n) == id
  }

  datatype Verdict = Skip | Malformed(what: string) | Match(msg: Json)

  /** What one complete line means for the request with this id. */
  function Judge(parse: Parse, id: int, raw: string): Verdict {
    var line := ChopCr(raw);
    if line == "" then Skip
    else match parse(line)
      case Err(what) => Malformed(what)
      case Ok(msg) => if HasId(msg, id) then Match(msg) else Skip
  }

  datatype Found = NeedMore(rest: string) | Bad(what: string) | Hit(msg: Json, rest: string)

  /** The first decisive complete line of a buffer. */
  function Scan(parse: Parse, id: int, buf: string): Found
    decreases |buf|
  {
    var i := LfAt(buf);
    if i == |buf| then NeedMore(buf)
    else match Judge(parse, id, buf[..i])
      case Skip => Scan(parse, id, buf[i + 1..])
      case Malformed(what) => Bad(what)
      case Match(msg) => Hit(msg, buf[i + 1..])
  }

  function FromMessage(msg: Json): Outcome
    requires msg.JObj?
  {
    if msg.Contains("error") then ErrorResponse(msg.fields["error"])
    else if !msg.Contains("result") then MissingResult
    else Response(msg.fields["result"])
  }

  lemma {:induction false} HitIsObject(parse: Parse, id: int, buf: string)
    ensures Scan(parse, id, buf).Hit? ==> Scan(parse, id, buf).msg.JObj? && HasId(Scan(parse, id, buf).msg, id)
    decreases |buf|
  {
    var i := LfAt(buf);
    if i < |buf| && Judge(parse, id, buf[..i]).Skip? { HitIsObject(parse, id, buf[i + 1..]); }
  }

  /** One line of a scan. */
  lemma ScanLine(parse: Parse, id: int, buf: string, i: nat)
    requires i < |buf| && buf[i] == '\n' && forall j | 0 <= j < i :: buf[j] != '\n'
    ensures Scan(parse, id, buf) ==
            match Judge(parse, id, buf[..i])
            case Skip => Scan(parse, id, buf[i + 1..])
            case Malformed(what) => Bad(what)
            case Match(msg) => Hit(msg, buf[i + 1..])
  {
    LfAtIs(buf, i);
  }

  lemma ScanEnd(parse: Parse, id: int, buf: string)
    requires forall j | 0 <= j < |buf| :: buf[j] != '\n'
    ensures Scan(parse, id, buf) == NeedMore(buf)
  {
    LfAtIs(buf, |buf|);
  }

  datatype Pipe = Pipe(stdout: string, stderr: string, shutdown: bool)

  /** WaitForResponse over values: the outcome, the buffers, and the polls not used. */
  function Wait(parse: Parse, id: int, polls: seq<Poll>, p: Pipe): (Outcome, Pipe, seq<Poll>) {
    if polls == [] then (TimedOut(p.stderr), p, [])
    else match polls[0]
      case StopSeen => (Cancelled, p, polls[1..])
      case DrainFailed(status) => (DrainError(status), p, polls[1..])
      case Drained(out, err, finished) =>
        var q := Pipe(p.stdout + out, p.stderr + err, p.shutdown || finished);
        match Scan(parse, id, q.stdout)
        case Bad(what) => (MalformedJson(what), q, polls[1..])
        case Hit(msg, rest) => HitIsObject(parse, id, q.stdout); (FromMessage(msg), q.(stdout := rest), polls[1..])
        case NeedMore(rest) =>
          if q.shutdown then (Exited(q.stderr), q.(stdout := rest), polls[1..])
          else Wait(parse, id, polls[1..], q.(stdout := rest))
  }

  // ------------------------------------------------------------------
  // The client
  // ------------------------------------------------------------------

  class StdioMcpClient {
    var stdoutBuffer: string
    var stderrBuffer: string
    var nextId: int
    var isShutdown: bool

    function State(): Pipe
      reads this
    {
      Pipe(stdoutBuffer, stderrBuffer, isShutdown)
    }

    constructor ()
      ensures State() == Pipe("", "", false) && nextId == 1
    {
      stdoutBuffer, stderrBuffer, nextId, isShutdown := "", "", 1, false;
    }

    /** Scan the buffered lines from the start; what was looked at and is not
        needed is erased, except when a malformed line ends the scan. */
    method ScanBuffer(parse: Parse, id: int) returns (found: Found)
      modifies this`stdoutBuffer
      ensures found == Scan(parse, id, old(stdoutBuffer))
      ensures stdoutBuffer == match found
                              case Bad(_) => old(stdoutBuffer)
                              case NeedMore(rest) => rest
                              case Hit(_, rest) => rest
    {
      hide Scan, Judge;
      var start := 0;
      ghost var whole := stdoutBuffer;
      assert whole[0..] == whole;
      while true
        invariant 0 <= start <= |stdoutBuffer| && stdoutBuffer == whole
        invariant Scan(parse, id, whole[start..]) == Scan(parse, id, whole)
        decreases |stdoutBuffer| - start
      {
        var newline := start;
        while newline < |stdoutBuffer| && stdoutBuffer[newline] != '\n'
          invariant start <= newline <= |stdoutBuffer|
          invariant forall j | start <= j < newline :: stdoutBuffer[j] != '\n'
        {
          newline := newline + 1;
        }
        if newline == |stdoutBuffer| {
          ScanEnd(parse, id, whole[start..]);
          break;
        }
        ScanLine(parse, id, whole[start..], newline - start);
        assert whole[start..][..newline - start] == whole[start..newline];
        assert whole[start..][newline - start + 1..] == whole[newline + 1..];
        var verdict := Judge(parse, id, stdoutBuffer[start..newline]);
        start := newline + 1;
        if verdict.Malformed? {
          return Bad(verdict.what);
        }
        if verdict.Match? {
          stdoutBuffer := stdoutBuffer[start..];
          return Hit(verdict.msg, stdoutBuffer);
        }
      }
      if start > 0 {
        stdoutBuffer := stdoutBuffer[start..];
      }
      return NeedMore(stdoutBuffer);
    }

    method WaitForResponse(parse: Parse, id: int, polls: seq<Poll>) returns (outcome: Outcome, ghost unused: seq<Poll>)
      modifies this
      ensures (outcome, State(), unused) == Wait(parse, id, polls, old(State()))
      ensures nextId == old(nextId)
    {
      hide Scan, FromMessage, HasId;
      var k := 0;
      while k < |polls|
        invariant 0 <= k <= |polls| && nextId == old(nextId)
        invariant Wait(parse, id, polls, old(State())) == Wait(parse, id, polls[k..], State())
      {
        assert polls[k..][0] == polls[k] && polls[k..][1..] == polls[k + 1..];
        unused := polls[k + 1..];
        match polls[k] {
          case StopSeen => return Cancelled, unused;
          case DrainFailed(status) => return DrainError(status), unused;
          case Drained(out, err, finished) =>
            stdoutBuffer := stdoutBuffer + out;
            stderrBuffer := stderrBuffer + err;
            if finished {
              isShutdown := true;
            }
            HitIsObject(parse, id, stdoutBuffer);
            var found := ScanBuffer(parse, id);
            match found {
              case Bad(what) => return MalformedJson(what), unused;
              case Hit(msg, _) => return FromMessage(msg), unused;
              case NeedMore(_) =>
                if isShutdown {
                  return Exited(stderrBuffer), unused;
                }
            }
        }
        k := k + 1;
      }
      return TimedOut(stderrBuffer), [];
    }

    /** Request: every request takes a new id, sent or not. */
    method Request(parse: Parse, sent: Result<(), string>, polls: seq<Poll>) returns (outcome: Result<Outcome, string>)
      modifies this
      ensures nextId == old(nextId) + 1
      ensures sent.Err? ==> outcome == Err(sent.error) && State() == old(State())
      ensures sent.Ok? ==> outcome == Ok(Wait(parse, old(nextId), polls, old(State())).0)
                           && State() == Wait(parse, old(nextId), polls, old(State())).1
    {
      var id := nextId;
      nextId := nextId + 1;
      if sent.Err? {
        return Err(sent.error);
      }
      var reply, _ := WaitForResponse(parse, id, polls);
      return Ok(reply);
    }
  }

  // ------------------------------------------------------------------
  // Chunking
  // ------------------------------------------------------------------

  /** What becomes of a scan when y arrives behind it. */
  function Extended(parse: Parse, id: int, found: Found, y: string): Found {
    match found
    case NeedMore(rest) => Scan(parse, id, rest + y)
    case Bad(what) => Bad(what)
    case Hit(msg, rest) => Hit(msg, rest + y)
  }

  /** What is found does not change when more output arrives behind it. */
  lemma {:induction false} ScanAppend(parse: Parse, id: int, x: string, y: string)
    ensures Scan(parse, id, x + y) == Extended(parse, id, Scan(parse, id, x), y)
    decreases |x|
  {
    var i := LfAt(x);
    hide Scan, Judge, LfAt;
    if i == |x| {
      ScanEnd(parse, id, x);
    } else {
      ScanLine(parse, id, x, i);
      assert (x + y)[i] == '\n' && forall j | 0 <= j < i :: (x + y)[j] == x[j];
      ScanLine(parse, id, x + y, i);
      assert (x + y)[..i] == x[..i] && (x + y)[i + 1..] == x[i + 1..] + y;
      ScanAppend(parse, id, x[i + 1..], y);
    }
  }

  function Output(polls: seq<Poll>): string {
    if polls == [] then ""
    else (if polls[0].Drained? then polls[0].out else "") + Output(polls[1..])
  }

  /** How many passes a wait drains when no line decides: up to the exit of the
      server, a stop, a failed drain or the deadline. */
  function Heard(polls: seq<Poll>, shutdown: bool): (n: nat)
    ensures n <= |polls|
  {
    if polls == [] || !polls[0].Drained? then 0
    else if shutdown || polls[0].finished then 1
    else 1 + Heard(polls[1..], shutdown)
  }

  /** What ends a wait in which no line decides, and the passes it leaves. */
  function Silence(polls: seq<Poll>, stderr: string, shutdown: bool): (Outcome, seq<Poll>) {
    if polls == [] then (TimedOut(stderr), [])
    else match polls[0]
      case StopSeen => (Cancelled, polls[1..])
      case DrainFailed(status) => (DrainError(status), polls[1..])
      case Drained(_, err, finished) =>
        if shutdown || finished then (Exited(stderr + err), polls[1..])
        else Silence(polls[1..], stderr + err, shutdown)
  }

  /** The output a wait may hear. */
  function HeardOutput(polls: seq<Poll>, shutdown: bool): string {
    Output(polls[..Heard(polls, shutdown)])
  }

  /** The part of it that a wait which leaves unused has not drained. */
  function Unheard(polls: seq<Poll>, shutdown: bool, unused: seq<Poll>): string {
    if Heard(polls, shutdown) + |unused| < |polls| || |unused| > |polls| then ""
    else Output(polls[|polls| - |unused|..Heard(polls, shutdown)])
  }

  /** A wait that ended as a scan of all it may hear would: with a decisive line
      its outcome, and on a match exactly the bytes after that line still buffered
      or unread; without one, exactly the bytes after the last line feed
      buffered. */
  predicate EndsAs(found: Found, polls: seq<Poll>, p: Pipe, outcome: Outcome, q: Pipe, unused: seq<Poll>) {
    match found
    case NeedMore(rest) => (outcome, unused) == Silence(polls, p.stderr, p.shutdown) && q.stdout == rest
    case Bad(what) => outcome == MalformedJson(what)
    case Hit(msg, rest) =>
      && msg.JObj? && outcome == FromMessage(msg)
      && |polls| - Heard(polls, p.shutdown) <= |unused| <= |polls|
      && q.stdout + Unheard(polls, p.shutdown, unused) == rest
  }

  predicate Drains(polls: seq<Poll>) {
    polls != [] && polls[0].Drained?
  }

  /** The outcome is that of the first decisive line of the output, however it is
      cut into chunks and whatever ends it: the exit of the server, a stop, a
      failed drain or the deadline. */
  lemma {:induction false} ChunkingIgnored(parse: Parse, id: int, polls: seq<Poll>, p: Pipe)
    requires Drains(polls) || LfAt(p.stdout) == |p.stdout|
    ensures var (outcome, q, unused) := Wait(parse, id, polls, p);
            EndsAs(Scan(parse, id, p.stdout + HeardOutput(polls, p.shutdown)), polls, p, outcome, q, unused)
    decreases |polls|
  {
    hide Scan, LfAt, FromMessage, HasId, Wait, Output, Judge, EndsAs, HeardOutput, Heard;
    if !Drains(polls) {
      NothingHeard(parse, id, polls, p);
    } else {
      var found := Scan(parse, id, p.stdout + polls[0].out);
      var ends := p.shutdown || polls[0].finished;
      HeardStep(parse, id, polls, p);
      WaitStep(parse, id, polls, p);
      if found.NeedMore? && !ends {
        var q := Pipe(found.rest, p.stderr + polls[0].err, false);
        NoLfLeft(parse, id, p.stdout + polls[0].out);
        ChunkingIgnored(parse, id, polls[1..], q);
        EndsLater(parse, id, polls, p, q);
      } else if found.NeedMore? {
        ExitsNow(parse, id, found, polls, p);
      } else {
        DecidedNow(parse, id, found, polls, p);
      }
    }
  }

  lemma NothingHeard(parse: Parse, id: int, polls: seq<Poll>, p: Pipe)
    requires LfAt(p.stdout) == |p.stdout| && !Drains(polls)
    ensures var (outcome, q, unused) := Wait(parse, id, polls, p);
            EndsAs(Scan(parse, id, p.stdout + HeardOutput(polls, p.shutdown)), polls, p, outcome, q, unused)
  {
    assert polls[..0] == [] && p.stdout + "" == p.stdout;
  }

  /** What follows the first chunk among what may be heard. */
  function Behind1(polls: seq<Poll>, shutdown: bool): string
    requires Drains(polls)
  {
    if shutdown || polls[0].finished then "" else HeardOutput(polls[1..], shutdown)
  }

  lemma OutputOne(poll: Poll, more: seq<Poll>)
    requires poll.Drained?
    ensures Output([poll] + more) == poll.out + Output(more)
  {
    assert ([poll] + more)[1..] == more;
  }

  /** All output is scanned as its first chunk is, with the rest behind. */
  lemma HeardStep(parse: Parse, id: int, polls: seq<Poll>, p: Pipe)
    requires Drains(polls)
    ensures Scan(parse, id, p.stdout + HeardOutput(polls, p.shutdown))
         == Extended(parse, id, Scan(parse, id, p.stdout + polls[0].out), Behind1(polls, p.shutdown))
  {
    hide Scan, Output, Extended;
    var n := Heard(polls, p.shutdown);
    var more := polls[1..n];
    assert polls[..n] == [polls[0]] + more;
    OutputOne(polls[0], more);
    if p.shutdown || polls[0].finished {
      assert more == [];
      NoOutput();
    } else {
      assert more == polls[1..][..n - 1];
    }
    assert p.stdout + (polls[0].out + Output(more)) == (p.stdout + polls[0].out) + Output(more);
    ScanAppend(parse, id, p.stdout + polls[0].out, Behind1(polls, p.shutdown));
  }

  lemma NoOutput()
    ensures Output([]) == ""
  {
  }

  /** A decisive line among what has arrived decides, whatever follows. */
  lemma DecidedNow(parse: Parse, id: int, found: Found, polls: seq<Poll>, p: Pipe)
    requires Drains(polls) && found == Scan(parse, id, p.stdout + polls[0].out) && !found.NeedMore?
    ensures var (outcome, q, unused) := Wait(parse, id, polls, p);
            EndsAs(Extended(parse, id, found, Behind1(polls, p.shutdown)), polls, p, outcome, q, unused)
  {
    WaitStep(parse, id, polls, p);
    hide FromMessage, HasId, Wait, Output, Judge, Scan, Silence;
    var n := Heard(polls, p.shutdown);
    if found.Hit? {
      assert polls[1..n] == if p.shutdown || polls[0].finished then [] else polls[1..][..n - 1];
      NoOutput();
    }
  }

  /** The exit of the server ends the wait. */
  lemma ExitsNow(parse: Parse, id: int, found: Found, polls: seq<Poll>, p: Pipe)
    requires Drains(polls) && found == Scan(parse, id, p.stdout + polls[0].out) && found.NeedMore?
    requires p.shutdown || polls[0].finished
    ensures var (outcome, q, unused) := Wait(parse, id, polls, p);
            EndsAs(Extended(parse, id, found, Behind1(polls, p.shutdown)), polls, p, outcome, q, unused)
  {
    WaitStep(parse, id, polls, p);
    ScanRest(parse, id, p.stdout + polls[0].out);
    hide FromMessage, HasId, Wait, Output, Judge, Scan, Unheard;
    assert found.rest + "" == found.rest;
  }

  /** What a scan leaves has no complete line. */
  lemma ScanRest(parse: Parse, id: int, x: string)
    requires Scan(parse, id, x).NeedMore?
    ensures Scan(parse, id, Scan(parse, id, x).rest) == Scan(parse, id, x)
  {
    NoLfLeft(parse, id, x);
    var rest := Scan(parse, id, x).rest;
    hide Scan, LfAt;
    LfDecides(parse, id, rest);
    LeavesItself(parse, id, x);
  }

  lemma LfDecides(parse: Parse, id: int, rest: string)
    requires LfAt(rest) == |rest|
    ensures Scan(parse, id, rest) == NeedMore(rest)
  {
  }

  lemma LeavesItself(parse: Parse, id: int, x: string)
    requires Scan(parse, id, x).NeedMore?
    ensures Scan(parse, id, x) == NeedMore(Scan(parse, id, x).rest)
  {
  }

  /** The rest of a wait ends as the whole wait. */
  lemma EndsLater(parse: Parse, id: int, polls: seq<Poll>, p: Pipe, q: Pipe)
    requires polls != [] && polls[0].Drained? && !polls[0].finished && !p.shutdown
    requires Scan(parse, id, p.stdout + polls[0].out) == NeedMore(q.stdout)
    requires q.stderr == p.stderr + polls[0].err && !q.shutdown
    requires Wait(parse, id, polls, p) == Wait(parse, id, polls[1..], q)
    requires var (outcome, r, unused) := Wait(parse, id, polls[1..], q);
             EndsAs(Scan(parse, id, q.stdout + HeardOutput(polls[1..], false)), polls[1..], q, outcome, r, unused)
    ensures var (outcome, r, unused) := Wait(parse, id, polls, p);
            EndsAs(Extended(parse, id, Scan(parse, id, p.stdout + polls[0].out), Behind1(polls, false)),
                   polls, p, outcome, r, unused)
  {
    var (outcome, r, unused) := Wait(parse, id, polls, p);
    hide Scan, FromMessage, HasId, Wait, Output, Judge, LfAt;
    var n := Heard(polls, false);
    assert n == 1 + Heard(polls[1..], false);
    if |polls| - n <= |unused| <= |polls| - 1 {
      var from := |polls| - 1 - |unused|;
      assert polls[1..][from..n - 1] == polls[from + 1..n];
    }
  }

  /** One pass that brings output. */
  lemma WaitStep(parse: Parse, id: int, polls: seq<Poll>, p: Pipe)
    requires Drains(polls)
    ensures var found := Scan(parse, id, p.stdout + polls[0].out);
            var ends := p.shutdown || polls[0].finished;
            var err := p.stderr + polls[0].err;
            && (found.NeedMore? && !ends ==>
                  Wait(parse, id, polls, p) == Wait(parse, id, polls[1..], Pipe(found.rest, err, false)))
            && (found.NeedMore? && ends ==>
                  Wait(parse, id, polls, p) == (Exited(err), Pipe(found.rest, err, true), polls[1..]))
            && (found.Bad? ==> Wait(parse, id, polls, p).0 == MalformedJson(found.what))
            && (found.Hit? ==>
                  && found.msg.JObj?
                  && Wait(parse, id, polls, p) == (FromMessage(found.msg), Pipe(found.rest, err, ends), polls[1..]))
  {
    HitIsObject(parse, id, p.stdout + polls[0].out);
    hide Scan, FromMessage, HasId;
  }

  lemma {:induction false} NoLfLeft(parse: Parse, id: int, x: string)
    ensures Scan(parse, id, x).NeedMore? ==> LfAt(Scan(parse, id, x).rest) == |Scan(parse, id, x).rest|
    decreases |x|
  {
    var i := LfAt(x);
    if i < |x| { NoLfLeft(parse, id, x[i + 1..]); }
  }

  /** Two ways of cutting the same output decide alike; without a decisive line
      each wait ends by what cut it off, with the same bytes buffered. */
  lemma SameOutputSameOutcome(parse: Parse, id: int, a: seq<Poll>, b: seq<Poll>, p: Pipe)
    requires (Drains(a) && Drains(b)) || LfAt(p.stdout) == |p.stdout|
    requires HeardOutput(a, p.shutdown) == HeardOutput(b, p.shutdown)
    ensures var (x, q, _) := Wait(parse, id, a, p);
            var (y, r, _) := Wait(parse, id, b, p);
            if Scan(parse, id, p.stdout + HeardOutput(a, p.shutdown)).NeedMore?
            then q.stdout == r.stdout && x == Silence(a, p.stderr, p.shutdown).0 && y == Silence(b, p.stderr, p.shutdown).0
            else x == y
  {
    hide Scan, Wait, LfAt, HeardOutput, Unheard, Silence, Heard, FromMessage;
    ChunkingIgnored(parse, id, a, p);
    ChunkingIgnored(parse, id, b, p);
  }

  // ------------------------------------------------------------------
  // The decisive line
  // ------------------------------------------------------------------

  /** The complete lines of a buffer, without their line feeds. */
  function Lines(buf: string): seq<string>
    decreases |buf|
  {
    var i := LfAt(buf);
    if i == |buf| then [] else [buf[..i]] + Lines(buf[i + 1..])
  }

  /** What follows the first k complete lines. */
  function Behind(buf: string, k: nat): string
    requires k <= |Lines(buf)|
    decreases k
  {
    if k == 0 then buf else Behind(buf[LfAt(buf) + 1..], k - 1)
  }

  /** Line n is the first one that is not skipped. */
  predicate Decides(parse: Parse, id: int, ls: seq<string>, n: nat) {
    n < |ls| && !Judge(parse, id, ls[n]).Skip? && forall k | 0 <= k < n :: Judge(parse, id, ls[k]).Skip?
  }

  /** Line n is what found says of these lines; n is their number when nothing
      is decided. */
  predicate Decision(parse: Parse, id: int, ls: seq<string>, found: Found, n: nat) {
    match found
    case NeedMore(_) => n == |ls| && forall k | 0 <= k < |ls| :: Judge(parse, id, ls[k]).Skip?
    case Bad(what) => Decides(parse, id, ls, n) && Judge(parse, id, ls[n]) == Malformed(what)
    case Hit(msg, _) => Decides(parse, id, ls, n) && Judge(parse, id, ls[n]) == Match(msg)
  }

  /** What a scan leaves: all that follows the lines it used. */
  predicate Leaves(buf: string, found: Found, n: nat)
    requires n <= |Lines(buf)| && (found.Hit? ==> n < |Lines(buf)|)
  {
    match found
    case NeedMore(rest) => rest == Behind(buf, n)
    case Bad(_) => true
    case Hit(_, rest) => rest == Behind(buf, n + 1)
  }

  /** The first line that is malformed or carries the id decides, and on a match
      the rest is what follows it; nothing is decided exactly when every complete
      line is skipped. */
  lemma {:induction false} FirstDecisiveLine(parse: Parse, id: int, buf: string) returns (n: nat)
    ensures Decision(parse, id, Lines(buf), Scan(parse, id, buf), n)
    ensures n <= |Lines(buf)| && (Scan(parse, id, buf).Hit? ==> n < |Lines(buf)|)
    ensures Leaves(buf, Scan(parse, id, buf), n)
    decreases |buf|
  {
    hide Scan, Judge, Lines, LfAt, Behind, Decision, Leaves;
    var i := LfAt(buf);
    if i < |buf| && Judge(parse, id, buf[..i]).Skip? {
      ScanLine(parse, id, buf, i);
      n := FirstDecisiveLine(parse, id, buf[i + 1..]);
      SkipsLine(parse, id, buf, Scan(parse, id, buf), n);
      n := n + 1;
    } else {
      n := 0;
      DecidesNow(parse, id, buf);
    }
  }

  lemma DecidesNow(parse: Parse, id: int, buf: string)
    requires LfAt(buf) < |buf| ==> !Judge(parse, id, buf[..LfAt(buf)]).Skip?
    ensures Decision(parse, id, Lines(buf), Scan(parse, id, buf), 0)
    ensures Scan(parse, id, buf).Hit? ==> 0 < |Lines(buf)|
    ensures Leaves(buf, Scan(parse, id, buf), 0)
  {
    if LfAt(buf) < |buf| { LinesStep(buf); BehindLine(buf, 0); }
  }

  lemma SkipsLine(parse: Parse, id: int, buf: string, found: Found, n: nat)
    requires LfAt(buf) < |buf| && Judge(parse, id, buf[..LfAt(buf)]).Skip?
    requires var tail := buf[LfAt(buf) + 1..];
             && Decision(parse, id, Lines(tail), found, n)
             && n <= |Lines(tail)| && (found.Hit? ==> n < |Lines(tail)|)
             && Leaves(tail, found, n)
    ensures n + 1 <= |Lines(buf)| && (found.Hit? ==> n + 1 < |Lines(buf)|)
    ensures Decision(parse, id, Lines(buf), found, n + 1)
    ensures Leaves(buf, found, n + 1)
  {
    hide Judge, Lines, LfAt, Behind, Decision;
    LinesStep(buf);
    DecisionLater(parse, id, buf[..LfAt(buf)], Lines(buf[LfAt(buf) + 1..]), found, n);
    BehindLine(buf, if found.Hit? then n + 1 else n);
  }

  lemma LinesStep(buf: string)
    requires LfAt(buf) < |buf|
    ensures Lines(buf) == [buf[..LfAt(buf)]] + Lines(buf[LfAt(buf) + 1..])
  {
    hide LfAt;
  }

  /** A skipped line in front moves every decision back by one. */
  lemma DecisionLater(parse: Parse, id: int, line: string, tail: seq<string>, found: Found, n: nat)
    requires Judge(parse, id, line).Skip? && Decision(parse, id, tail, found, n)
    ensures Decision(parse, id, [line] + tail, found, n + 1)
  {
    hide Judge, Decides;
    if found.NeedMore? {
      SkippedLater(parse, id, line, tail);
    } else {
      DecidesLater(parse, id, line, tail, n);
    }
  }

  lemma DecidesLater(parse: Parse, id: int, line: string, tail: seq<string>, n: nat)
    requires Judge(parse, id, line).Skip? && Decides(parse, id, tail, n)
    ensures n < |tail| && Decides(parse, id, [line] + tail, n + 1) && ([line] + tail)[n + 1] == tail[n]
  {
    hide Judge;
    var ls := [line] + tail;
    assert forall k | 0 <= k < n + 1 :: ls[k] == if k == 0 then line else tail[k - 1];
  }

  lemma SkippedLater(parse: Parse, id: int, line: string, tail: seq<string>)
    requires Judge(parse, id, line).Skip? && forall k | 0 <= k < |tail| :: Judge(parse, id, tail[k]).Skip?
    ensures forall k | 0 <= k < |[line] + tail| :: Judge(parse, id, ([line] + tail)[k]).Skip?
  {
    hide Judge;
  }

  lemma BehindLine(buf: string, k: nat)
    requires LfAt(buf) < |buf| && k <= |Lines(buf[LfAt(buf) + 1..])|
    ensures k + 1 <= |Lines(buf)|
    ensures Behind(buf, k + 1) == Behind(buf[LfAt(buf) + 1..], k)
    ensures k == 0 ==> Behind(buf, 1) == buf[LfAt(buf) + 1..]
  {
    LinesStep(buf);
    hide Lines, LfAt;
  }

  // ------------------------------------------------------------------
  // A malformed line is never consumed
  // ------------------------------------------------------------------

  /** Some complete line of the buffer does not parse. */
  predicate Poisoned(parse: Parse, buf: string) {
    exists k :: 0 <= k < |Lines(buf)| && ChopCr(Lines(buf)[k]) != "" && parse(ChopCr(Lines(buf)[k])).Err?
  }

  lemma LfStays(x: string, y: string)
    requires LfAt(x) < |x|
    ensures LfAt(x + y) == LfAt(x)
  {
    var i := LfAt(x);
    hide LfAt;
    assert (x + y)[i] == '\n' && forall j | 0 <= j < i :: (x + y)[j] == x[j];
    LfAtIs(x + y, i);
  }

  lemma NoLines(buf: string)
    requires LfAt(buf) == |buf|
    ensures Lines(buf) == []
  {
  }

  lemma {:induction false} LinesAppend(x: string, y: string)
    ensures Lines(x) <= Lines(x + y)
    decreases |x|
  {
    hide Lines, LfAt;
    var i := LfAt(x);
    if i == |x| {
      NoLines(x);
    } else {
      LinesStep(x);
      LfStays(x, y);
      LinesStep(x + y);
      assert (x + y)[..i] == x[..i] && (x + y)[i + 1..] == x[i + 1..] + y;
      LinesAppend(x[i + 1..], y);
    }
  }

  lemma {:induction false} PoisonStays(parse: Parse, id: int, buf: string)
    requires Poisoned(parse, buf)
    ensures Scan(parse, id, buf).Bad? || (Scan(parse, id, buf).Hit? && Poisoned(parse, Scan(parse, id, buf).rest))
    decreases |buf|
  {
    var i := LfAt(buf);
    var k :| 0 <= k < |Lines(buf)| && ChopCr(Lines(buf)[k]) != "" && parse(ChopCr(Lines(buf)[k])).Err?;
    assert Lines(buf) == [buf[..i]] + Lines(buf[i + 1..]);
    if !Judge(parse, id, buf[..i]).Malformed? {
      assert k > 0 && Lines(buf)[k] == Lines(buf[i + 1..])[k - 1];
      assert Poisoned(parse, buf[i + 1..]);
      if Judge(parse, id, buf[..i]).Skip? { PoisonStays(parse, id, buf[i + 1..]); }
    }
  }

  /** A malformed outcome leaves the malformed line in the buffer. */
  lemma {:induction false} MalformedPoisons(parse: Parse, id: int, polls: seq<Poll>, p: Pipe)
    requires Wait(parse, id, polls, p).0.MalformedJson?
    ensures Poisoned(parse, Wait(parse, id, polls, p).1.stdout)
  {
    if polls != [] && polls[0].Drained? {
      var x := p.stdout + polls[0].out;
      if Scan(parse, id, x).Bad? {
        var n := FirstDecisiveLine(parse, id, x);
        assert Judge(parse, id, Lines(x)[n]).Malformed?;
      } else if Scan(parse, id, x).NeedMore? {
        MalformedPoisons(parse, id, polls[1..],
                         Pipe(Scan(parse, id, x).rest, p.stderr + polls[0].err, p.shutdown || polls[0].finished));
      }
    }
  }

  /** From then on a wait that drains ends at once, whatever the server sends and
      whatever the id: with a message that was in front of the malformed line, or
      with the malformed line again, which is still there afterwards. */
  lemma PoisonForever(parse: Parse, id: int, polls: seq<Poll>, p: Pipe)
    requires Poisoned(parse, p.stdout)
    ensures Poisoned(parse, Wait(parse, id, polls, p).1.stdout)
    ensures Drains(polls) ==>
              var (outcome, _, unused) := Wait(parse, id, polls, p);
              unused == polls[1..] && !outcome.TimedOut? && !outcome.Exited?
              && (Scan(parse, id, p.stdout).Bad? <==> outcome.MalformedJson?)
  {
    if Drains(polls) {
      var x := p.stdout + polls[0].out;
      PoisonGrows(parse, p.stdout, polls[0].out);
      PoisonStays(parse, id, p.stdout);
      ScanAppend(parse, id, p.stdout, polls[0].out);
      HitIsObject(parse, id, x);
      PoisonStays(parse, id, x);
      hide Scan, Poisoned, FromMessage, HasId, Judge;
    }
  }

  predicate BadLine(parse: Parse, raw: string) {
    ChopCr(raw) != "" && parse(ChopCr(raw)).Err?
  }

  /** The number of complete lines in front of the first malformed one. */
  function Ahead(parse: Parse, ls: seq<string>): nat
    decreases |ls|
  {
    if ls == [] || BadLine(parse, ls[0]) then 0 else 1 + Ahead(parse, ls[1..])
  }

  lemma {:induction false} AheadOfMore(parse: Parse, ls: seq<string>, more: seq<string>)
    requires exists k :: 0 <= k < |ls| && BadLine(parse, ls[k])
    ensures Ahead(parse, ls + more) == Ahead(parse, ls)
    decreases |ls|
  {
    assert (ls + more)[0] == ls[0];
    if !BadLine(parse, ls[0]) {
      var k :| 0 <= k < |ls| && BadLine(parse, ls[k]);
      assert ls[1..][k - 1] == ls[k] && (ls + more)[1..] == ls[1..] + more;
      hide BadLine;
      AheadOfMore(parse, ls[1..], more);
    }
  }

  /** What arrives behind a malformed line does not move it. */
  lemma AheadGrows(parse: Parse, x: string, y: string)
    requires Poisoned(parse, x)
    ensures Ahead(parse, Lines(x + y)) == Ahead(parse, Lines(x))
  {
    LinesAppend(x, y);
    hide Lines, Ahead;
    var more := Lines(x + y)[|Lines(x)|..];
    assert Lines(x + y) == Lines(x) + more;
    var k :| 0 <= k < |Lines(x)| && ChopCr(Lines(x)[k]) != "" && parse(ChopCr(Lines(x)[k])).Err?;
    assert BadLine(parse, Lines(x)[k]);
    AheadOfMore(parse, Lines(x), more);
  }

  lemma BadLineIs(parse: Parse, id: int, raw: string)
    ensures Judge(parse, id, raw).Malformed? <==> BadLine(parse, raw)
  {
  }

  lemma AheadStep(parse: Parse, line: string, ls: seq<string>)
    ensures Ahead(parse, [line] + ls) == if BadLine(parse, line) then 0 else 1 + Ahead(parse, ls)
  {
    hide BadLine;
    assert ([line] + ls)[1..] == ls;
  }

  lemma ScanUnfolds(parse: Parse, id: int, x: string)
    ensures var i := LfAt(x);
            if i == |x| then Scan(parse, id, x).NeedMore?
            else
              var v := Judge(parse, id, x[..i]);
              && (v.Skip? ==> Scan(parse, id, x) == Scan(parse, id, x[i + 1..]))
              && (v.Malformed? ==> Scan(parse, id, x).Bad?)
              && (v.Match? ==> Scan(parse, id, x) == Hit(v.msg, x[i + 1..]))
  {
    hide LfAt, Judge;
  }

  lemma ScanFirst(parse: Parse, id: int, x: string)
    requires Scan(parse, id, x).Hit?
    ensures LfAt(x) < |x| && !BadLine(parse, x[..LfAt(x)])
    ensures if Judge(parse, id, x[..LfAt(x)]).Skip? then Scan(parse, id, x) == Scan(parse, id, x[LfAt(x) + 1..])
            else Scan(parse, id, x).rest == x[LfAt(x) + 1..]
  {
    hide LfAt, Judge, BadLine, Scan;
    ScanUnfolds(parse, id, x);
    if LfAt(x) < |x| { BadLineIs(parse, id, x[..LfAt(x)]); }
  }

  /** A message found in front of it brings it nearer. */
  lemma {:induction false} HitBringsNearer(parse: Parse, id: int, x: string)
    requires Scan(parse, id, x).Hit?
    ensures Ahead(parse, Lines(Scan(parse, id, x).rest)) < Ahead(parse, Lines(x))
    decreases |x|
  {
    hide Scan, Ahead, Lines, LfAt, Judge, BadLine;
    var i := LfAt(x);
    ScanFirst(parse, id, x);
    LinesStep(x);
    AheadStep(parse, x[..i], Lines(x[i + 1..]));
    if Judge(parse, id, x[..i]).Skip? {
      HitBringsNearer(parse, id, x[i + 1..]);
    }
  }

  /** One request after another on the same client. */
  datatype Request = Request(id: int, polls: seq<Poll>)

  function Requests(parse: Parse, rs: seq<Request>, p: Pipe): (r: (seq<Outcome>, Pipe))
    ensures |r.0| == |rs|
    decreases |rs|
  {
    if rs == [] then ([], p)
    else
      var (outcome, q, _) := Wait(parse, rs[0].id, rs[0].polls, p);
      var (later, r) := Requests(parse, rs[1..], q);
      ([outcome] + later, r)
  }

  /** How many of the requests that drained were answered by anything but the
      malformed line. */
  function Passed(rs: seq<Request>, outcomes: seq<Outcome>): nat
    requires |rs| == |outcomes|
    decreases |rs|
  {
    if rs == [] then 0
    else (if Drains(rs[0].polls) && !outcomes[0].MalformedJson? then 1 else 0) + Passed(rs[1..], outcomes[1..])
  }

  lemma PoisonedWait(parse: Parse, id: int, polls: seq<Poll>, p: Pipe)
    requires Poisoned(parse, p.stdout)
    ensures var (outcome, q, _) := Wait(parse, id, polls, p);
            && Poisoned(parse, q.stdout)
            && (Drains(polls) ==> !outcome.TimedOut? && !outcome.Exited?)
            && Ahead(parse, Lines(q.stdout)) + (if Drains(polls) && !outcome.MalformedJson? then 1 else 0)
               <= Ahead(parse, Lines(p.stdout))
  {
    PoisonForever(parse, id, polls, p);
    if Drains(polls) {
      var x := p.stdout + polls[0].out;
      PoisonGrows(parse, p.stdout, polls[0].out);
      PoisonStays(parse, id, x);
      AheadGrows(parse, p.stdout, polls[0].out);
      if Scan(parse, id, x).Hit? { HitBringsNearer(parse, id, x); }
      HitIsObject(parse, id, x);
      hide Scan, Poisoned, FromMessage, HasId, Judge, Ahead, Lines;
    }
  }

  /** No sequence of requests gets past a malformed line: every request that
      drains is answered at once, at most as many as there are lines in front of
      it by a message, and all others by the malformed line. */
  lemma {:induction false} PoisonedRequests(parse: Parse, rs: seq<Request>, p: Pipe)
    requires Poisoned(parse, p.stdout)
    ensures var (outcomes, q) := Requests(parse, rs, p);
            && |outcomes| == |rs| && Poisoned(parse, q.stdout)
            && (forall k | 0 <= k < |rs| && Drains(rs[k].polls) :: !outcomes[k].TimedOut? && !outcomes[k].Exited?)
            && Passed(rs, outcomes) + Ahead(parse, Lines(q.stdout)) <= Ahead(parse, Lines(p.stdout))
    decreases |rs|
  {
    hide Wait, Poisoned, Ahead, Lines, Drains;
    if rs != [] {
      var (outcome, q, _) := Wait(parse, rs[0].id, rs[0].polls, p);
      PoisonedWait(parse, rs[0].id, rs[0].polls, p);
      PoisonedRequests(parse, rs[1..], q);
      var (later, r) := Requests(parse, rs[1..], q);
      assert ([outcome] + later)[1..] == later;
    }
  }

  lemma PoisonGrows(parse: Parse, x: string, y: string)
    requires Poisoned(parse, x)
    ensures Poisoned(parse, x + y)
  {
    LinesAppend(x, y);
    hide Lines, ChopCr;
    var k :| 0 <= k < |Lines(x)| && ChopCr(Lines(x)[k]) != "" && parse(ChopCr(Lines(x)[k])).Err?;
    assert Lines(x + y)[k] == Lines(x)[k];
  }
}
