/** RunTurn: steps of generation and tool execution, and the history they grow. */
module TurnLoop {
  import opened Basics
  import opened Llm
  import opened ToolEnv
  import opened ToolScheduler
  import Assembly = ToolCallAssembly
  import Serial = Serializability
  import Runner = BatchRunner
  import Provenance = ToolProvenance

  /** What one call of the provider gave: an exception or error status, or a
      stream, with the text and reasoning deltas joined. */
  datatype Generation =
    | Failed(message: string)
    | Streamed(text: string, thinking: string, toolEvents: seq<Assembly.StreamEvent>,
               finish: FinishReason, usage: TokenUsage)

  datatype StopReason = Completed | MaxSteps | Aborted | Error

  datatype TurnInput = TurnInput(
    env: Env,
    generate: (seq<Message>, int) -> Generation,
    history: seq<Message>,
    maxSteps: int,
    maxConcurrentTools: int,
    continueAfterStop: Option<(string, int) -> bool>)

  datatype TurnResult = TurnResult(stopReason: StopReason, stepsExecuted: int, totalUsage: TokenUsage,
                                   updatedHistory: seq<Message>, errorMessage: string)

  const NO_USAGE := TokenUsage(0, 0, 0, 0)

  function AddUsage(a: TokenUsage, b: TokenUsage): TokenUsage {
    TokenUsage(a.inputOther + b.inputOther, a.output + b.output,
               a.inputCacheRead + b.inputCacheRead, a.inputCacheCreation + b.inputCacheCreation)
  }

  function PendingCalls(g: Generation): seq<ToolCall>
    requires g.Streamed?
  {
    Assembly.Named(Assembly.Assemble(g.toolEvents))
  }

  function AssistantMessage(g: Generation): Message
    requires g.Streamed?
  {
    Message(Assistant,
            (if g.thinking != "" then [ThinkPart(g.thinking, None)] else [])
            + (if g.text != "" then [TextPart(g.text)] else []),
            None, PendingCalls(g))
  }

  function ToolMessage(r: Scheduled): Message {
    Message(Role.Tool, [TextPart(r.result.content)], Some(r.call.id), [])
  }

  function ToolMessages(rs: seq<Scheduled>): (m: seq<Message>)
    ensures |m| == |rs|
    ensures forall k | 0 <= k < |rs| :: m[k] == ToolMessage(rs[k])
  {
    if rs == [] then [] else ToolMessages(rs[..|rs| - 1]) + [ToolMessage(rs[|rs| - 1])]
  }

  /** Tools run only when the model finished in order to call them. */
  predicate RunsTools(g: Generation) {
    g.Streamed? && g.finish == ToolCalls && PendingCalls(g) != []
  }

  function ReasonString(f: FinishReason): string {
    if f == Truncated then "max_tokens" else if f == FinishReason.Completed then "end_turn" else "other"
  }

  predicate GoesOn(input: TurnInput, g: Generation, step: int)
    requires g.Streamed?
  {
    input.continueAfterStop.Some? && input.continueAfterStop.value(ReasonString(g.finish), step)
  }

  // ------------------------------------------------------------------
  // What a turn has done
  // ------------------------------------------------------------------

  /** One completed step: what was generated and which results entered the history. */
  datatype Step = Step(generation: Generation, answers: seq<Scheduled>)

  function StepMessages(s: Step): seq<Message>
    requires s.generation.Streamed?
  {
    [AssistantMessage(s.generation)] + ToolMessages(s.answers)
  }

  /** Answers go to the pending calls in order, and only if tools were run. */
  predicate StepOk(s: Step) {
    && s.generation.Streamed?
    && (s.answers != [] ==> RunsTools(s.generation))
    && |s.answers| <= |PendingCalls(s.generation)|
    && forall j | 0 <= j < |s.answers| :: s.answers[j].call == PendingCalls(s.generation)[j]
  }

  /** Every call the step had to run was answered. */
  predicate FullyAnswered(s: Step)
    requires StepOk(s)
  {
    RunsTools(s.generation) ==> |s.answers| == |PendingCalls(s.generation)|
  }

  predicate StepsOk(steps: seq<Step>) {
    forall k | 0 <= k < |steps| :: StepOk(steps[k])
  }

  function Messages(steps: seq<Step>): seq<Message>
    requires StepsOk(steps)
  {
    if steps == [] then []
    else Messages(steps[..|steps| - 1]) + StepMessages(steps[|steps| - 1])
  }

  function Usage(steps: seq<Step>): TokenUsage
    requires StepsOk(steps)
  {
    if steps == [] then NO_USAGE
    else AddUsage(Usage(steps[..|steps| - 1]), steps[|steps| - 1].generation.usage)
  }

  /** A step was generated from exactly the history before it. */
  predicate GeneratedAfter(input: TurnInput, before: seq<Step>, s: Step)
    requires StepsOk(before)
  {
    s.generation == input.generate(input.history + Messages(before), |before| + 1)
  }

  predicate Generated(input: TurnInput, steps: seq<Step>)
    requires StepsOk(steps)
  {
    forall k | 0 <= k < |steps| :: GeneratedAfter(input, steps[..k], steps[k])
  }

  predicate AllAnswered(steps: seq<Step>)
    requires StepsOk(steps)
  {
    forall k | 0 <= k < |steps| :: FullyAnswered(steps[k])
  }

  /** All steps but perhaps the last one are fully answered. */
  predicate Settled(steps: seq<Step>)
    requires StepsOk(steps)
  {
    forall k | 0 <= k < |steps| - 1 :: FullyAnswered(steps[k])
  }

  // ------------------------------------------------------------------
  // What a turn leaves in the history, message by message
  // ------------------------------------------------------------------

  /** The generated thinking and text, and the named calls in the order of their indices. */
  ghost predicate AssistantLaid(m: Message, g: Generation) {
    && g.Streamed? && m.role == Assistant && m.toolCallId == None
    && m.content == (if g.thinking == "" then if g.text == "" then [] else [TextPart(g.text)]
                     else if g.text == "" then [ThinkPart(g.thinking, None)]
                     else [ThinkPart(g.thinking, None), TextPart(g.text)])
    && Assembly.Kept(Assembly.Assemble(g.toolEvents), m.toolCalls)
  }

  /** The messages of a step: what was generated, and behind it, only if the model
      finished in order to call tools, what each call was answered. */
  ghost predicate StepIs(messages: seq<Message>, s: Step) {
    && |messages| == 1 + |s.answers| && AssistantLaid(messages[0], s.generation)
    && |s.answers| <= |messages[0].toolCalls| && (s.answers != [] ==> s.generation.finish == ToolCalls)
    && forall j | 0 <= j < |s.answers| ::
         && s.answers[j].call == messages[0].toolCalls[j]
         && messages[1 + j] == Message(Role.Tool, [TextPart(s.answers[j].result.content)], Some(messages[0].toolCalls[j].id), [])
  }

  ghost predicate StepLaid(h: seq<Message>, p: nat, q: nat, s: Step) {
    p <= q <= |h| && StepIs(h[p..q], s)
  }

  ghost predicate LaidAt(h: seq<Message>, start: nat, steps: seq<Step>, ps: seq<nat>) {
    && |ps| == |steps| + 1 && ps[0] == start && ps[|steps|] == |h|
    && forall k | 0 <= k < |steps| :: StepLaid(h, ps[k], ps[k + 1], steps[k])
  }

  /** The history consists, from the given place on, of the steps' messages, one step
      behind the other. */
  ghost predicate Laid(h: seq<Message>, start: nat, steps: seq<Step>) {
    exists ps: seq<nat> :: LaidAt(h, start, steps, ps)
  }

  lemma AssistantIsLaid(g: Generation)
    requires g.Streamed?
    ensures AssistantLaid(AssistantMessage(g), g) && AssistantMessage(g).toolCalls == PendingCalls(g)
  {
    Assembly.NamedKept(Assembly.Assemble(g.toolEvents));
    hide Assembly.Assemble, Assembly.Kept, Assembly.Named;
  }

  lemma ToolMessageIs(r: Scheduled)
    ensures ToolMessage(r) == Message(Role.Tool, [TextPart(r.result.content)], Some(r.call.id), [])
  {
  }

  lemma AnswersAreLaid(rs: seq<Scheduled>)
    ensures forall j | 0 <= j < |rs| ::
              ToolMessages(rs)[j] == Message(Role.Tool, [TextPart(rs[j].result.content)], Some(rs[j].call.id), [])
  {
    hide ToolMessage;
    forall j | 0 <= j < |rs|
      ensures ToolMessages(rs)[j] == Message(Role.Tool, [TextPart(rs[j].result.content)], Some(rs[j].call.id), [])
    {
      ToolMessageIs(rs[j]);
    }
  }

  lemma PartsLaid(m: Message, tools: seq<Message>, s: Step)
    requires AssistantLaid(m, s.generation) && |tools| == |s.answers| <= |m.toolCalls|
    requires s.answers != [] ==> s.generation.finish == ToolCalls
    requires forall j | 0 <= j < |s.answers| :: s.answers[j].call == m.toolCalls[j]
    requires forall j | 0 <= j < |tools| ::
               tools[j] == Message(Role.Tool, [TextPart(s.answers[j].result.content)], Some(s.answers[j].call.id), [])
    ensures StepIs([m] + tools, s)
  {
    hide AssistantLaid;
    var all := [m] + tools;
    assert all[0] == m;
    forall j | 0 <= j < |s.answers| ensures all[1 + j] == tools[j] { }
  }

  lemma StepIsLaid(s: Step)
    requires StepOk(s)
    ensures StepIs(StepMessages(s), s)
  {
    AssistantIsLaid(s.generation);
    AnswersAreLaid(s.answers);
    hide PendingCalls, AssistantLaid, AssistantMessage, ToolMessages, ToolMessage, StepIs;
    PartsLaid(AssistantMessage(s.generation), ToolMessages(s.answers), s);
  }

  lemma LaidStays(h: seq<Message>, more: seq<Message>, p: nat, q: nat, s: Step)
    requires StepLaid(h, p, q, s)
    ensures StepLaid(h + more, p, q, s)
  {
    hide StepIs;
    assert (h + more)[p..q] == h[p..q];
  }

  lemma IsStreamed(s: Step)
    requires StepOk(s)
    ensures s.generation.Streamed?
  {
    hide RunsTools, PendingCalls;
  }

  lemma LaidLast(h: seq<Message>, s: Step)
    requires StepOk(s)
    ensures StepLaid(h + StepMessages(s), |h|, |h + StepMessages(s)|, s)
  {
    hide StepOk, StepIs, StepMessages;
    StepIsLaid(s);
    IsStreamed(s);
    var t := h + StepMessages(s);
    assert t[|h|..|t|] == StepMessages(s);
  }

  lemma LaidMore(h: seq<Message>, start: nat, steps: seq<Step>, ps: seq<nat>, s: Step)
    requires LaidAt(h, start, steps, ps) && StepOk(s)
    ensures LaidAt(h + StepMessages(s), start, steps + [s], ps + [|h + StepMessages(s)|])
  {
    hide StepOk, StepLaid, StepMessages;
    IsStreamed(s);
    LaidLast(h, s);
    var t := h + StepMessages(s);
    var qs := ps + [|t|];
    forall k | 0 <= k < |steps + [s]| ensures StepLaid(t, qs[k], qs[k + 1], (steps + [s])[k]) {
      if k < |steps| { LaidStays(h, StepMessages(s), ps[k], ps[k + 1], steps[k]); }
    }
  }

  lemma LaidSnoc(h: seq<Message>, start: nat, steps: seq<Step>, s: Step)
    requires Laid(h, start, steps) && StepOk(s)
    ensures Laid(h + StepMessages(s), start, steps + [s])
  {
    hide LaidAt, StepOk, StepMessages;
    var ps: seq<nat> :| LaidAt(h, start, steps, ps);
    LaidMore(h, start, steps, ps, s);
  }

  lemma LaidGrows(h: seq<Message>, start: nat, steps: seq<Step>, g: Generation, answers: seq<Scheduled>)
    requires Laid(h, start, steps) && StepOk(Step(g, answers))
    ensures g.Streamed? && Laid(h + [AssistantMessage(g)] + ToolMessages(answers), start, steps + [Step(g, answers)])
  {
    LaidSnoc(h, start, steps, Step(g, answers));
    hide PendingCalls, AssistantMessage, ToolMessages, Laid;
    assert h + StepMessages(Step(g, answers)) == h + [AssistantMessage(g)] + ToolMessages(answers);
  }

  lemma NothingLaid(h: seq<Message>)
    ensures Laid(h, |h|, []) && Summed(NO_USAGE, [])
  {
    var ps: seq<nat> := [|h|];
    assert LaidAt(h, |h|, [], ps);
  }

  function Total(ns: seq<int>): int {
    if ns == [] then 0 else Total(ns[..|ns| - 1]) + ns[|ns| - 1]
  }

  function Counts(steps: seq<Step>, count: TokenUsage -> int): seq<int>
    requires StepsOk(steps)
  {
    seq(|steps|, k requires 0 <= k < |steps| => count(steps[k].generation.usage))
  }

  /** Every count of the total is the sum of this count over the steps. */
  predicate Summed(total: TokenUsage, steps: seq<Step>)
    requires StepsOk(steps)
  {
    && total.inputOther == Total(Counts(steps, (u: TokenUsage) => u.inputOther))
    && total.output == Total(Counts(steps, (u: TokenUsage) => u.output))
    && total.inputCacheRead == Total(Counts(steps, (u: TokenUsage) => u.inputCacheRead))
    && total.inputCacheCreation == Total(Counts(steps, (u: TokenUsage) => u.inputCacheCreation))
  }

  lemma CountsSnoc(steps: seq<Step>, s: Step, count: TokenUsage -> int)
    requires StepsOk(steps) && StepOk(s)
    ensures StepsOk(steps + [s])
    ensures Total(Counts(steps + [s], count)) == Total(Counts(steps, count)) + count(s.generation.usage)
  {
    hide StepOk;
    assert StepsOk(steps + [s]);
    assert Counts(steps + [s], count)[..|steps|] == Counts(steps, count);
  }

  lemma SummedSnoc(total: TokenUsage, steps: seq<Step>, s: Step)
    requires StepsOk(steps) && StepOk(s) && Summed(total, steps)
    ensures StepsOk(steps + [s]) && Summed(AddUsage(total, s.generation.usage), steps + [s])
  {
    hide StepOk, StepsOk, Total, Counts;
    CountsSnoc(steps, s, (u: TokenUsage) => u.inputOther);
    CountsSnoc(steps, s, (u: TokenUsage) => u.output);
    CountsSnoc(steps, s, (u: TokenUsage) => u.inputCacheRead);
    CountsSnoc(steps, s, (u: TokenUsage) => u.inputCacheCreation);
  }

  /** Tools run exactly when the model finished in order to call tools and some call
      was given a name. */
  lemma RunsToolsIff(g: Generation)
    ensures RunsTools(g) <==>
              g.Streamed? && g.finish == ToolCalls && exists c :: c in Assembly.Assemble(g.toolEvents) && c.name != ""
  {
    hide Assembly.Assemble, Assembly.Named;
    if g.Streamed? { Assembly.NamedMembers(Assembly.Assemble(g.toolEvents)); }
  }

  /** Whoever may let the turn go on is told why the model finished. */
  lemma ReasonGiven(input: TurnInput, g: Generation, step: int)
    requires g.Streamed? && input.continueAfterStop.Some?
    ensures g.finish == Truncated ==> GoesOn(input, g, step) == input.continueAfterStop.value("max_tokens", step)
    ensures g.finish == FinishReason.Completed ==> GoesOn(input, g, step) == input.continueAfterStop.value("end_turn", step)
    ensures g.finish != Truncated && g.finish != FinishReason.Completed
            ==> GoesOn(input, g, step) == input.continueAfterStop.value("other", step)
  {
  }

  lemma StepsSnoc(steps: seq<Step>, s: Step)
    requires StepsOk(steps) && StepOk(s)
    ensures StepsOk(steps + [s])
    ensures Messages(steps + [s]) == Messages(steps) + StepMessages(s)
    ensures Usage(steps + [s]) == AddUsage(Usage(steps), s.generation.usage)
  {
    assert (steps + [s])[..|steps|] == steps;
    hide StepMessages, StepOk;
  }

  lemma GeneratedSnoc(input: TurnInput, steps: seq<Step>, s: Step)
    requires StepsOk(steps) && StepOk(s) && Generated(input, steps)
    requires s.generation == input.generate(input.history + Messages(steps), |steps| + 1)
    ensures StepsOk(steps + [s]) && Generated(input, steps + [s])
  {
    hide StepOk, Messages;
    assert GeneratedAfter(input, steps, s);
    hide GeneratedAfter;
    var more := steps + [s];
    forall k | 0 <= k < |more| ensures GeneratedAfter(input, more[..k], more[k]) {
      if k < |steps| {
        assert more[..k] == steps[..k] && more[k] == steps[k];
      } else {
        assert more[..k] == steps;
      }
    }
  }

  // ------------------------------------------------------------------
  // The checks of the stop token in a turn
  // ------------------------------------------------------------------

  /** How often a step checks the stop token, itself and its batch, unless it sees a
      stop: once at its head, and for every call it runs once before the call and
      once before its answer enters the history. */
  function StepChecks(g: Generation): nat
    requires g.Streamed?
  {
    1 + if RunsTools(g) then 2 * |PendingCalls(g)| else 0
  }

  function Checks(steps: seq<Step>): nat
    requires StepsOk(steps)
  {
    if steps == [] then 0 else Checks(steps[..|steps| - 1]) + StepChecks(steps[|steps| - 1].generation)
  }

  /** How many of n calls a batch answers whose checks begin with the given one, and
      how many of these answers enter the history. */
  function AnswerCount(stopAt: Option<nat>, check: nat, n: nat): (m: nat)
    ensures m <= Unseen(stopAt, check, n) <= n
  {
    Unseen(stopAt, check + n, Unseen(stopAt, check, n))
  }

  /** The last step has exactly the answers that the stop leaves it. */
  predicate LastAnswers(steps: seq<Step>, stopAt: Option<nat>)
    requires StepsOk(steps)
  {
    steps != [] ==>
      var s := steps[|steps| - 1];
      RunsTools(s.generation) ==>
        |s.answers| == AnswerCount(stopAt, Checks(steps[..|steps| - 1]) + 1, |PendingCalls(s.generation)|)
  }

  /** The stop is first seen inside the last step's batch, before its first call. */
  predicate StopBeforeLastBatch(steps: seq<Step>, stopAt: Option<nat>)
    requires StepsOk(steps)
  {
    && steps != [] && RunsTools(steps[|steps| - 1].generation)
    && stopAt == Some(Checks(steps[..|steps| - 1]) + 1)
  }

  // ------------------------------------------------------------------
  // The sequential reference for a whole turn
  // ------------------------------------------------------------------

  function Take<T>(s: seq<T>, n: nat): seq<T> {
    if n <= |s| then s[..n] else s
  }

  /** The rest of a turn from the given step and check, with the calls of every batch
      run one by one; None if some execution takes more than fuel steps. */
  function SequentialTurn(input: TurnInput, stopAt: Option<nat>, fuel: nat, step: nat, check: nat,
                          history: seq<Message>, usage: TokenUsage, w: World): Option<(TurnResult, World)>
    requires step >= 1
    decreases input.maxSteps - step
  {
    if step > input.maxSteps then Some((TurnResult(MaxSteps, step - 1, usage, history, ""), w))
    else if Seen(stopAt, check) then Some((TurnResult(Aborted, step - 1, usage, history, ""), w))
    else
      var g := input.generate(history, step);
      match g
      case Failed(message) => Some((TurnResult(Error, step - 1, usage, history, message), w))
      case Streamed(_, _, _, _, used) =>
        var h := history + [AssistantMessage(g)];
        var total := AddUsage(usage, used);
        if !RunsTools(g) then
          if GoesOn(input, g, step) then SequentialTurn(input, stopAt, fuel, step + 1, check + 1, h, total, w)
          else Some((TurnResult(StopReason.Completed, step, total, h, ""), w))
        else
          var n := |PendingCalls(g)|;
          var ran := Unseen(stopAt, check + 1, n);
          var batch := Serial.Sequential(input.env, PendingCalls(g)[..ran], fuel, w);
          if batch.None? then None
          else
            var kept := AnswerCount(stopAt, check + 1, n);
            var h1 := h + ToolMessages(Take(batch.value.0, kept));
            if kept < ran then Some((TurnResult(Aborted, step, total, h1, ""), batch.value.1))
            else SequentialTurn(input, stopAt, fuel, step + 1, check + StepChecks(g), h1, total, batch.value.1)
  }

  /** With enough fuel, the rest of the turn from a point is the whole turn. */
  ghost predicate OnTrack(input: TurnInput, stopAt: Option<nat>, w0: World, enough: nat, step: nat, check: nat,
                          history: seq<Message>, usage: TokenUsage, w: World)
    requires step >= 1
  {
    forall fuel: nat | enough <= fuel ::
      SequentialTurn(input, stopAt, fuel, 1, 0, input.history, NO_USAGE, w0)
      == SequentialTurn(input, stopAt, fuel, step, check, history, usage, w)
  }

  // ------------------------------------------------------------------
  // One batch
  // ------------------------------------------------------------------

  /** A run of the calls as one batch, from the world u to v, gave these results; each
      is what its tool returned in that run, or the refusal that its call met. */
  ghost predicate BatchRun(input: TurnInput, calls: seq<ToolCall>, u: World, moves: seq<Move>, results: seq<Scheduled>, v: World) {
    var job := Job(input.env, calls, input.maxConcurrentTools);
    && Run(job, u, moves).Some? && Run(job, u, moves).value.phase.Done?
    && Run(job, u, moves).value.results == results && Run(job, u, moves).value.world == v
    && |results| <= |calls| && Provenance.AllSourced(job, u, moves, results)
  }

  /** What a step's calls did to the world: nothing if none was run; otherwise they ran
      as one batch, whose first results are the answers and which, if the oracles keep to
      their own parts of the world, has the outcome of running its calls one by one. */
  ghost predicate StepRan(input: TurnInput, s: Step, u: World, v: World) {
    if !RunsTools(s.generation) then v == u && s.answers == []
    else exists moves, results: seq<Scheduled> ::
      && BatchRun(input, PendingCalls(s.generation), u, moves, results, v) && s.answers <= results
      && (Serial.Separate(input.env) ==>
            exists fuel: nat :: Serial.Sequential(input.env, PendingCalls(s.generation)[..|results|], fuel, u) == Some((results, v)))
  }

  /** The steps ran one after another, each on the world that the one before it left. */
  ghost predicate Course(input: TurnInput, w0: World, steps: seq<Step>, worlds: seq<World>, w: World) {
    && |worlds| == |steps| + 1 && worlds[0] == w0 && worlds[|steps|] == w
    && forall k | 0 <= k < |steps| :: StepRan(input, steps[k], worlds[k], worlds[k + 1])
  }

  /** After each of the first n steps either tools were run or the turn was let go on. */
  predicate WentOn(input: TurnInput, steps: seq<Step>, n: int) {
    forall k | 0 <= k < n && k < |steps| ::
      RunsTools(steps[k].generation) || (steps[k].generation.Streamed? && GoesOn(input, steps[k].generation, k + 1))
  }

  lemma CourseBegins(input: TurnInput, w0: World)
    ensures Course(input, w0, [], [w0], w0) && WentOn(input, [], 0)
  {
  }

  lemma CourseGoesOn(input: TurnInput, w0: World, steps: seq<Step>, worlds: seq<World>, w: World, s: Step, v: World)
    requires Course(input, w0, steps, worlds, w) && WentOn(input, steps, |steps|) && StepRan(input, s, w, v)
    ensures Course(input, w0, steps + [s], worlds + [v], v) && WentOn(input, steps + [s], |steps|)
    ensures RunsTools(s.generation) || (s.generation.Streamed? && GoesOn(input, s.generation, |steps| + 1))
            ==> WentOn(input, steps + [s], |steps| + 1)
  {
    hide StepRan, RunsTools, GoesOn;
    var (more, all) := (steps + [s], worlds + [v]);
    forall k | 0 <= k < |more| ensures StepRan(input, more[k], all[k], all[k + 1]) {
      if k < |steps| { assert StepRan(input, steps[k], worlds[k], worlds[k + 1]); }
    }
  }

  lemma TextRan(input: TurnInput, g: Generation, w: World)
    requires !RunsTools(g)
    ensures StepRan(input, Step(g, []), w, w)
  {
    hide RunsTools;
  }

  lemma BatchIsStep(input: TurnInput, g: Generation, u: World, moves: seq<Move>, results: seq<Scheduled>, answers: seq<Scheduled>,
                    fuel: nat, v: World)
    requires RunsTools(g) && BatchRun(input, PendingCalls(g), u, moves, results, v) && answers <= results
    requires Serial.Separate(input.env) ==>
               Serial.Sequential(input.env, PendingCalls(g)[..|results|], fuel, u) == Some((results, v))
    ensures StepRan(input, Step(g, answers), u, v)
  {
    hide RunsTools, PendingCalls, BatchRun, Serial.Separate, Serial.Sequential;
  }

  /** One batch, seen from the turn: results for the calls in front of the stop, and
      the sequential outcome of these calls. */
  method RunBatch(input: TurnInput, calls: seq<ToolCall>, w0: World, ghost rank: Local -> nat, stopAt: Option<nat>, check: nat)
      returns (results: seq<Scheduled>, w: World, ghost moves: seq<Move>, ghost fuel: nat)
    requires Runner.Terminating(input.env, rank)
    ensures |results| == Unseen(stopAt, check, |calls|)
    ensures forall j | 0 <= j < |results| :: results[j].call == calls[j]
    ensures BatchRun(input, calls, w0, moves, results, w)
    ensures calls != [] && Seen(stopAt, check) ==> w == w0
    ensures Serial.Separate(input.env) ==>
              Serial.Sequential(input.env, calls[..|results|], fuel, w0) == Some((results, w))
  {
    hide Runner.Terminating, Serial.Separate, Serial.Sequential, Resolve, Provenance.AllSourced;
    var job := Job(input.env, calls, input.maxConcurrentTools);
    var log: seq<Event>;
    results, w, log, moves := Runner.RunToolCallBatch(job, w0, rank, stopAt, check);
    ghost var s := Run(job, w0, moves).value;
    RunWellFormed(job, w0, moves);
    assert Reachable(job, w0, s);
    assert BatchRun(input, calls, w0, moves, results, w);
    hide Run;
    fuel := 0;
    if Serial.Separate(input.env) {
      Serial.Serializable(job, w0, s);
      fuel :| Serial.Sequential(job.env, job.calls[..|s.results|], fuel, w0) == Some((s.results, s.world));
    }
  }

  lemma SomeAnswers(g: Generation, results: seq<Scheduled>, n: nat)
    requires RunsTools(g) && n <= |results| <= |PendingCalls(g)|
    requires forall j | 0 <= j < |results| :: results[j].call == PendingCalls(g)[j]
    ensures StepOk(Step(g, results[..n]))
    ensures n == |PendingCalls(g)| ==> FullyAnswered(Step(g, results[..n]))
    ensures n < |results| ==> ToolMessages(results[..n + 1]) == ToolMessages(results[..n]) + [ToolMessage(results[n])]
  {
    if n < |results| { assert results[..n + 1][..n] == results[..n]; }
  }

  lemma NoToolMessages()
    ensures ToolMessages([]) == []
  {
  }

  /** The messages of a batch enter the history one by one; a stop seen before
      one of them ends the turn. */
  method AppendResults(h0: seq<Message>, g: Generation, results: seq<Scheduled>, stopAt: Option<nat>, check: nat)
      returns (history: seq<Message>, aborted: bool)
    requires RunsTools(g) && |results| <= |PendingCalls(g)|
    requires forall j | 0 <= j < |results| :: results[j].call == PendingCalls(g)[j]
    ensures var n := Unseen(stopAt, check, |results|);
            && history == h0 + ToolMessages(results[..n])
            && aborted == (n < |results|)
  {
    hide RunsTools, PendingCalls, StepOk, ToolMessages, ToolMessage, FullyAnswered;
    history, aborted := h0, false;
    var k := 0;
    NoToolMessages();
    assert results[..0] == [] && h0 + [] == h0;
    while k < |results|
      invariant k <= |results| && history == h0 + ToolMessages(results[..k])
      invariant k > 0 ==> !Seen(stopAt, check + k - 1)
    {
      if Seen(stopAt, check + k) {
        aborted := true;
        return;
      }
      SomeAnswers(g, results, k);
      history := history + [ToolMessage(results[k])];
      k := k + 1;
    }
  }

  lemma HasCalls(g: Generation)
    requires RunsTools(g)
    ensures g.Streamed? && PendingCalls(g) != []
  {
    hide PendingCalls;
  }

  /** The batch of a step as run one by one, and the answers that the stop lets in. */
  ghost predicate Answers(input: TurnInput, stopAt: Option<nat>, check: nat, g: Generation, w: World, fuel: nat,
                          results: seq<Scheduled>, answers: seq<Scheduled>, w1: World)
  {
    && RunsTools(g) && |results| == Unseen(stopAt, check, |PendingCalls(g)|)
    && answers == results[..AnswerCount(stopAt, check, |PendingCalls(g)|)]
    && Serial.Sequential(input.env, PendingCalls(g)[..|results|], fuel, w) == Some((results, w1))
  }

  /** The calls of one step: the results of their batch, and the history with those
      of them that the stop lets in. */
  method RunCalls(input: TurnInput, g: Generation, h0: seq<Message>, w0: World, ghost rank: Local -> nat,
                  stopAt: Option<nat>, check: nat)
      returns (history: seq<Message>, w: World, aborted: bool, ghost results: seq<Scheduled>,
               ghost answers: seq<Scheduled>, ghost fuel: nat)
    requires Runner.Terminating(input.env, rank) && RunsTools(g)
    ensures |results| == Unseen(stopAt, check, |PendingCalls(g)|)
    ensures answers == results[..AnswerCount(stopAt, check, |PendingCalls(g)|)]
    ensures StepOk(Step(g, answers)) && (|answers| == |PendingCalls(g)| ==> FullyAnswered(Step(g, answers)))
    ensures history == h0 + ToolMessages(answers)
    ensures |history| == |h0| + AnswerCount(stopAt, check, |PendingCalls(g)|)
    ensures aborted == (AnswerCount(stopAt, check, |PendingCalls(g)|) < Unseen(stopAt, check, |PendingCalls(g)|))
    ensures Serial.Separate(input.env) ==> Answers(input, stopAt, check, g, w0, fuel, results, answers, w)
    ensures StepRan(input, Step(g, answers), w0, w)
  {
    HasCalls(g);
    hide BatchRun, StepRan, Runner.Terminating, Serial.Separate, Serial.Sequential, StepOk, FullyAnswered, ToolMessages, PendingCalls, RunsTools;
    var batch: seq<Scheduled>;
    ghost var moves: seq<Move>;
    batch, w, moves, fuel := RunBatch(input, PendingCalls(g), w0, rank, stopAt, check);
    history, aborted := AppendResults(h0, g, batch, stopAt, check + |PendingCalls(g)|);
    results, answers := batch, batch[..AnswerCount(stopAt, check, |PendingCalls(g)|)];
    SomeAnswers(g, batch, |answers|);
    BatchIsStep(input, g, w0, moves, results, answers, fuel, w);
  }

  /** What the stop does to a batch of n calls behind an unseen check: all is answered
      and the stop comes later; or the turn is aborted; or the stop comes first of all
      and nothing is answered. */
  lemma BatchCases(stopAt: Option<nat>, check: nat, n: nat)
    requires n > 0 && !Seen(stopAt, check)
    ensures var (ran, kept) := (Unseen(stopAt, check + 1, n), AnswerCount(stopAt, check + 1, n));
            && kept <= ran <= n
            && (kept == n <==> !Seen(stopAt, check + 2 * n))
            && (kept < ran ==> Seen(stopAt, check + 2 * n) && stopAt != Some(check + 1))
            && (kept == ran < n ==> kept == 0 && stopAt == Some(check + 1))
  {
  }

  // ------------------------------------------------------------------
  // What a turn has done so far
  // ------------------------------------------------------------------

  lemma StepsGrow(input: TurnInput, steps: seq<Step>, history: seq<Message>, g: Generation, answers: seq<Scheduled>)
    requires StepsOk(steps) && Generated(input, steps) && history == input.history + Messages(steps)
    requires AllAnswered(steps)
    requires g == input.generate(history, |steps| + 1) && StepOk(Step(g, answers))
    ensures var s := steps + [Step(g, answers)];
            && StepsOk(s) && Generated(input, s) && Settled(s)
            && (FullyAnswered(Step(g, answers)) ==> AllAnswered(s))
            && input.history + Messages(s) == history + [AssistantMessage(g)] + ToolMessages(answers)
            && Usage(s) == AddUsage(Usage(steps), g.usage) && Checks(s) == Checks(steps) + StepChecks(g)
            && s[|s| - 1] == Step(g, answers) && s[..|s| - 1] == steps
  {
    hide StepOk, FullyAnswered, AssistantMessage, ToolMessages, Generated, StepChecks;
    StepsSnoc(steps, Step(g, answers));
    GeneratedSnoc(input, steps, Step(g, answers));
  }

  lemma NoAnswers(g: Generation)
    requires g.Streamed?
    ensures StepOk(Step(g, [])) && (!RunsTools(g) ==> FullyAnswered(Step(g, [])) && StepChecks(g) == 1)
    ensures ToolMessages([]) == []
  {
  }

  /** What the steps so far have made of the history, and what the stop has made of them. */
  ghost predicate SoFar(input: TurnInput, stopAt: Option<nat>, steps: seq<Step>, check: nat, history: seq<Message>,
                  usage: TokenUsage)
  {
    && StepsOk(steps) && Settled(steps) && Generated(input, steps)
    && history == input.history + Messages(steps) && usage == Usage(steps)
    && check == Checks(steps) && LastAnswers(steps, stopAt)
    && (!Seen(stopAt, check - 1) ==> AllAnswered(steps))
    && Laid(history, |input.history|, steps) && Summed(usage, steps)
  }

  lemma SoFarSays(input: TurnInput, stopAt: Option<nat>, steps: seq<Step>, check: nat, history: seq<Message>, usage: TokenUsage)
    requires SoFar(input, stopAt, steps, check, history, usage)
    ensures StepsOk(steps) && Settled(steps) && Generated(input, steps)
    ensures history == input.history + Messages(steps) && usage == Usage(steps) && input.history <= history
    ensures check == Checks(steps) && LastAnswers(steps, stopAt)
    ensures !Seen(stopAt, check - 1) ==> AllAnswered(steps)
    ensures steps == [] ==> check == 0
    ensures Laid(history, |input.history|, steps) && Summed(usage, steps)
  {
    hide Laid, Summed, StepsOk, Settled, Generated, Messages, Usage, LastAnswers, AllAnswered;
  }

  lemma SoFarIs(input: TurnInput, stopAt: Option<nat>, steps: seq<Step>, check: nat, history: seq<Message>, usage: TokenUsage)
    requires StepsOk(steps) && Settled(steps) && Generated(input, steps)
    requires history == input.history + Messages(steps) && usage == Usage(steps)
    requires check == Checks(steps) && LastAnswers(steps, stopAt)
    requires !Seen(stopAt, check - 1) ==> AllAnswered(steps)
    requires Laid(history, |input.history|, steps) && Summed(usage, steps)
    ensures SoFar(input, stopAt, steps, check, history, usage)
  {
    hide Laid, Summed, StepsOk, Settled, Generated, Messages, Usage, LastAnswers, AllAnswered;
  }

  lemma LastOf(steps: seq<Step>, s: Step, stopAt: Option<nat>)
    requires StepsOk(steps) && StepOk(s)
    ensures StepsOk(steps + [s])
    ensures LastAnswers(steps + [s], stopAt)
        <==> (RunsTools(s.generation) ==>
                |s.answers| == AnswerCount(stopAt, Checks(steps) + 1, |PendingCalls(s.generation)|))
    ensures StopBeforeLastBatch(steps + [s], stopAt) <==> RunsTools(s.generation) && stopAt == Some(Checks(steps) + 1)
  {
    hide StepOk, RunsTools, PendingCalls, Checks, AnswerCount;
    assert (steps + [s])[..|steps|] == steps;
  }

  /** A step without tools. */
  lemma TextStep(input: TurnInput, stopAt: Option<nat>, steps: seq<Step>, check: nat, history: seq<Message>,
                 usage: TokenUsage, g: Generation)
    requires SoFar(input, stopAt, steps, check, history, usage) && !Seen(stopAt, check)
    requires g == input.generate(history, |steps| + 1) && g.Streamed? && !RunsTools(g)
    ensures SoFar(input, stopAt, steps + [Step(g, [])], check + 1, history + [AssistantMessage(g)], AddUsage(usage, g.usage))
  {
    hide StepOk, FullyAnswered, AssistantMessage, ToolMessages, RunsTools, Generated, AddUsage, StepChecks;
    hide Usage, Messages, StepsOk, Settled, AllAnswered, Checks, LastAnswers;
    hide Laid, Summed;
    NoAnswers(g);
    StepsGrow(input, steps, history, g, []);
    LaidGrows(history, |input.history|, steps, g, []);
    SummedSnoc(usage, steps, Step(g, []));
    LastOf(steps, Step(g, []), stopAt);
    assert history + [AssistantMessage(g)] + [] == history + [AssistantMessage(g)];
  }

  /** Whether the calls of a step with tools are all answered, and if not, why. */
  lemma StepAnswered(stopAt: Option<nat>, steps: seq<Step>, check: nat, g: Generation, answers: seq<Scheduled>)
    requires StepsOk(steps) && check == Checks(steps) && !Seen(stopAt, check) && RunsTools(g)
    requires |answers| == AnswerCount(stopAt, check + 1, |PendingCalls(g)|) && StepOk(Step(g, answers))
    requires |answers| == |PendingCalls(g)| ==> FullyAnswered(Step(g, answers))
    ensures StepsOk(steps + [Step(g, answers)]) && LastAnswers(steps + [Step(g, answers)], stopAt)
    ensures !Seen(stopAt, check - 1) && (!Seen(stopAt, check + StepChecks(g) - 1) ==> FullyAnswered(Step(g, answers)))
  {
    hide StepOk, FullyAnswered, RunsTools, PendingCalls, Unseen, AnswerCount, StepsOk, Checks, LastAnswers, StepChecks, Seen;
    ToolChecks(g);
    BatchCases(stopAt, check, |PendingCalls(g)|);
    SeenLater(stopAt, check);
    LastOf(steps, Step(g, answers), stopAt);
  }

  /** A step with tools. */
  lemma ToolStep(input: TurnInput, stopAt: Option<nat>, steps: seq<Step>, check: nat, history: seq<Message>,
                 usage: TokenUsage, g: Generation, answers: seq<Scheduled>)
    requires SoFar(input, stopAt, steps, check, history, usage) && !Seen(stopAt, check)
    requires g == input.generate(history, |steps| + 1) && RunsTools(g)
    requires |answers| == AnswerCount(stopAt, check + 1, |PendingCalls(g)|) && StepOk(Step(g, answers))
    requires |answers| == |PendingCalls(g)| ==> FullyAnswered(Step(g, answers))
    ensures var (s, next) := (steps + [Step(g, answers)], check + StepChecks(g));
            SoFar(input, stopAt, s, next, history + [AssistantMessage(g)] + ToolMessages(answers), AddUsage(usage, g.usage))
  {
    hide StepOk, FullyAnswered, AssistantMessage, ToolMessages, RunsTools, PendingCalls, Generated, AddUsage, Unseen, AnswerCount;
    hide Usage, Messages, StepsOk, Settled, AllAnswered, Checks, LastAnswers, StepChecks, Seen, Laid, Summed, SoFar;
    SoFarSays(input, stopAt, steps, check, history, usage);
    StepAnswered(stopAt, steps, check, g, answers);
    LaidGrows(history, |input.history|, steps, g, answers);
    SummedSnoc(usage, steps, Step(g, answers));
    StepsGrow(input, steps, history, g, answers);
    SoFarIs(input, stopAt, steps + [Step(g, answers)], check + StepChecks(g),
            history + [AssistantMessage(g)] + ToolMessages(answers), AddUsage(usage, g.usage));
  }

  /** What the stop does to a step with tools. */
  lemma ToolStop(input: TurnInput, stopAt: Option<nat>, steps: seq<Step>, check: nat, history: seq<Message>,
                 usage: TokenUsage, g: Generation, answers: seq<Scheduled>)
    requires SoFar(input, stopAt, steps, check, history, usage) && !Seen(stopAt, check) && RunsTools(g)
    requires |answers| == AnswerCount(stopAt, check + 1, |PendingCalls(g)|) && StepOk(Step(g, answers))
    ensures var (s, next) := (steps + [Step(g, answers)], check + StepChecks(g));
            && StepsOk(s)
            && (if |answers| < Unseen(stopAt, check + 1, |PendingCalls(g)|)
                then Seen(stopAt, next - 1) && !StopBeforeLastBatch(s, stopAt)
                else Seen(stopAt, next - 1) ==> StopBeforeLastBatch(s, stopAt))
  {
    hide StepOk, RunsTools, PendingCalls, Generated, Unseen, AnswerCount;
    hide Usage, Messages, StepsOk, Settled, AllAnswered, Checks, LastAnswers, StopBeforeLastBatch, StepChecks, Seen;
    ToolChecks(g);
    BatchCases(stopAt, check, |PendingCalls(g)|);
    LastOf(steps, Step(g, answers), stopAt);
  }

  lemma ToolChecks(g: Generation)
    requires RunsTools(g)
    ensures g.Streamed? && PendingCalls(g) != [] && StepChecks(g) == 1 + 2 * |PendingCalls(g)|
  {
    hide PendingCalls;
  }

  lemma SeenLater(stopAt: Option<nat>, check: nat)
    ensures !Seen(stopAt, check) ==> !Seen(stopAt, check - 1)
  {
  }

  // ------------------------------------------------------------------
  // The turn stays on the sequential track
  // ------------------------------------------------------------------

  lemma TrackText(input: TurnInput, stopAt: Option<nat>, w0: World, enough: nat, step: nat, check: nat, h: seq<Message>,
                  usage: TokenUsage, w: World)
    requires 1 <= step <= input.maxSteps && OnTrack(input, stopAt, w0, enough, step, check, h, usage, w) && !Seen(stopAt, check)
    requires input.generate(h, step).Streamed?
    requires var g := input.generate(h, step); !RunsTools(g) && GoesOn(input, g, step)
    ensures var g := input.generate(h, step);
            OnTrack(input, stopAt, w0, enough, step + 1, check + 1, h + [AssistantMessage(g)], AddUsage(usage, g.usage), w)
  {
    hide RunsTools, GoesOn, AssistantMessage;
  }

  lemma AnswersMoreFuel(input: TurnInput, stopAt: Option<nat>, check: nat, g: Generation, w: World, fuel: nat,
                        results: seq<Scheduled>, answers: seq<Scheduled>, w1: World, f: nat)
    requires Answers(input, stopAt, check, g, w, fuel, results, answers, w1) && fuel <= f
    ensures Answers(input, stopAt, check, g, w, f, results, answers, w1)
  {
    hide Serial.Sequential, PendingCalls, RunsTools, Unseen, AnswerCount;
    HasCalls(g);
    Serial.MoreFuel(input.env, PendingCalls(g)[..|results|], fuel, f, w);
  }

  /** One step with tools of the reference. */
  lemma BatchUnfolds(input: TurnInput, stopAt: Option<nat>, f: nat, step: nat, check: nat, h: seq<Message>, usage: TokenUsage,
                     w: World, results: seq<Scheduled>, answers: seq<Scheduled>, w1: World)
    requires 1 <= step <= input.maxSteps && !Seen(stopAt, check)
    requires Answers(input, stopAt, check + 1, input.generate(h, step), w, f, results, answers, w1)
    ensures var g := input.generate(h, step);
            var h1 := h + [AssistantMessage(g)] + ToolMessages(answers);
            SequentialTurn(input, stopAt, f, step, check, h, usage, w)
            == if |answers| < |results| then Some((TurnResult(Aborted, step, AddUsage(usage, g.usage), h1, ""), w1))
               else SequentialTurn(input, stopAt, f, step + 1, check + StepChecks(g), h1, AddUsage(usage, g.usage), w1)
  {
    hide Serial.Sequential, AssistantMessage, ToolMessages, PendingCalls, StepChecks, Seen, AddUsage, GoesOn, Unseen, AnswerCount;
  }

  lemma TrackAt(input: TurnInput, stopAt: Option<nat>, w0: World, enough: nat, step: nat, check: nat, h: seq<Message>,
                usage: TokenUsage, w: World, fuel: nat, results: seq<Scheduled>, answers: seq<Scheduled>, w1: World, f: nat)
    requires 1 <= step <= input.maxSteps && OnTrack(input, stopAt, w0, enough, step, check, h, usage, w) && !Seen(stopAt, check)
    requires Answers(input, stopAt, check + 1, input.generate(h, step), w, fuel, results, answers, w1)
    requires enough <= f && fuel <= f
    ensures var g := input.generate(h, step);
            && g.Streamed?
            && var h1 := h + [AssistantMessage(g)] + ToolMessages(answers);
               SequentialTurn(input, stopAt, f, 1, 0, input.history, NO_USAGE, w0)
               == if |answers| < |results| then Some((TurnResult(Aborted, step, AddUsage(usage, g.usage), h1, ""), w1))
                  else SequentialTurn(input, stopAt, f, step + 1, check + StepChecks(g), h1, AddUsage(usage, g.usage), w1)
  {
    hide AssistantMessage, ToolMessages, StepChecks, Seen, AddUsage, SequentialTurn, Serial.Sequential, Unseen, AnswerCount;
    HasCalls(input.generate(h, step));
    hide Answers;
    AnswersMoreFuel(input, stopAt, check + 1, input.generate(h, step), w, fuel, results, answers, w1, f);
    BatchUnfolds(input, stopAt, f, step, check, h, usage, w, results, answers, w1);
  }

  lemma TrackBatch(input: TurnInput, stopAt: Option<nat>, w0: World, enough: nat, step: nat, check: nat, h: seq<Message>,
                   usage: TokenUsage, w: World, fuel: nat, results: seq<Scheduled>, answers: seq<Scheduled>, w1: World)
    requires 1 <= step <= input.maxSteps && OnTrack(input, stopAt, w0, enough, step, check, h, usage, w) && !Seen(stopAt, check)
    requires Answers(input, stopAt, check + 1, input.generate(h, step), w, fuel, results, answers, w1) && |answers| >= |results|
    ensures var g := input.generate(h, step);
            && g.Streamed?
            && OnTrack(input, stopAt, w0, Max(enough, fuel), step + 1, check + StepChecks(g),
                       h + [AssistantMessage(g)] + ToolMessages(answers), AddUsage(usage, g.usage), w1)
  {
    TrackAt(input, stopAt, w0, enough, step, check, h, usage, w, fuel, results, answers, w1, Max(enough, fuel));
    forall f: nat | Max(enough, fuel) <= f {
      TrackAt(input, stopAt, w0, enough, step, check, h, usage, w, fuel, results, answers, w1, f);
    }
    hide AssistantMessage, ToolMessages, StepChecks, Seen, AddUsage, SequentialTurn, Answers;
  }

  /** The result of a turn that ends at this step without running tools in it. */
  predicate Ends(input: TurnInput, stopAt: Option<nat>, step: nat, check: nat, h: seq<Message>, usage: TokenUsage,
                 result: TurnResult)
  {
    if step > input.maxSteps then result == TurnResult(MaxSteps, step - 1, usage, h, "")
    else if Seen(stopAt, check) then result == TurnResult(Aborted, step - 1, usage, h, "")
    else
      var g := input.generate(h, step);
      match g
      case Failed(message) => result == TurnResult(Error, step - 1, usage, h, message)
      case Streamed(_, _, _, _, used) =>
        && !RunsTools(g) && !GoesOn(input, g, step)
        && result == TurnResult(StopReason.Completed, step, AddUsage(usage, used), h + [AssistantMessage(g)], "")
  }

  lemma TrackEnd(input: TurnInput, stopAt: Option<nat>, w0: World, enough: nat, step: nat, check: nat, h: seq<Message>,
                 usage: TokenUsage, w: World, result: TurnResult)
    requires 1 <= step && OnTrack(input, stopAt, w0, enough, step, check, h, usage, w)
    requires Ends(input, stopAt, step, check, h, usage, result)
    ensures SequentialTurn(input, stopAt, enough, 1, 0, input.history, NO_USAGE, w0) == Some((result, w))
  {
    hide RunsTools, GoesOn, AssistantMessage, AddUsage, Seen;
    assert SequentialTurn(input, stopAt, enough, step, check, h, usage, w) == Some((result, w));
  }

  // ------------------------------------------------------------------
  // The loop
  // ------------------------------------------------------------------

  lemma Begin(input: TurnInput, stopAt: Option<nat>, w0: World)
    ensures SoFar(input, stopAt, [], 0, input.history, NO_USAGE)
    ensures OnTrack(input, stopAt, w0, 0, 1, 0, input.history, NO_USAGE, w0)
  {
    NothingLaid(input.history);
    hide Laid, Summed;
  }

  /** What has been done once the step has run without tools. */
  lemma AfterText(input: TurnInput, stopAt: Option<nat>, w0: World, steps: seq<Step>, worlds: seq<World>, check: nat,
                  history: seq<Message>, usage: TokenUsage, w: World, g: Generation)
    requires SoFar(input, stopAt, steps, check, history, usage) && !Seen(stopAt, check)
    requires Course(input, w0, steps, worlds, w) && WentOn(input, steps, |steps|)
    requires g == input.generate(history, |steps| + 1) && g.Streamed? && !RunsTools(g)
    ensures var s := steps + [Step(g, [])];
            && SoFar(input, stopAt, s, check + 1, history + [AssistantMessage(g)], AddUsage(usage, g.usage))
            && Course(input, w0, s, worlds + [w], w) && WentOn(input, s, |s| - 1)
            && (GoesOn(input, g, |s|) ==> WentOn(input, s, |s|))
  {
    hide SoFar, Course, WentOn, StepRan, RunsTools, GoesOn, AddUsage, AssistantMessage, Seen;
    TextStep(input, stopAt, steps, check, history, usage, g);
    TextRan(input, g, w);
    CourseGoesOn(input, w0, steps, worlds, w, Step(g, []), w);
  }

  /** What has been done once the step has run its tools. */
  lemma AfterTools(input: TurnInput, stopAt: Option<nat>, w0: World, steps: seq<Step>, worlds: seq<World>, check: nat,
                   history: seq<Message>, usage: TokenUsage, w: World, g: Generation, answers: seq<Scheduled>, v: World)
    requires SoFar(input, stopAt, steps, check, history, usage) && !Seen(stopAt, check)
    requires Course(input, w0, steps, worlds, w) && WentOn(input, steps, |steps|) && StepRan(input, Step(g, answers), w, v)
    requires g == input.generate(history, |steps| + 1) && RunsTools(g)
    requires |answers| == AnswerCount(stopAt, check + 1, |PendingCalls(g)|) && StepOk(Step(g, answers))
    requires |answers| == |PendingCalls(g)| ==> FullyAnswered(Step(g, answers))
    ensures var (s, next) := (steps + [Step(g, answers)], check + StepChecks(g));
            && SoFar(input, stopAt, s, next, history + [AssistantMessage(g)] + ToolMessages(answers), AddUsage(usage, g.usage))
            && Course(input, w0, s, worlds + [v], v) && WentOn(input, s, |s|)
            && StepsOk(s)
            && (if |answers| < Unseen(stopAt, check + 1, |PendingCalls(g)|)
                then Seen(stopAt, next - 1) && !StopBeforeLastBatch(s, stopAt)
                else Seen(stopAt, next - 1) ==> StopBeforeLastBatch(s, stopAt))
  {
    hide SoFar, Course, WentOn, StepRan, RunsTools, GoesOn, AddUsage, AssistantMessage, ToolMessages, Seen, StepOk, FullyAnswered;
    hide PendingCalls, StepChecks, StepsOk, Unseen, AnswerCount, StopBeforeLastBatch;
    ToolStep(input, stopAt, steps, check, history, usage, g, answers);
    ToolStop(input, stopAt, steps, check, history, usage, g, answers);
    CourseGoesOn(input, w0, steps, worlds, w, Step(g, answers), v);
  }

  /** RunTurn. stopAt is the number of the first check of the stop token that sees a
      stop. A turn that saw one is aborted, except when it was first seen in front of
      the first call of the last step's batch. */
  method RunTurn(input: TurnInput, w0: World, ghost rank: Local -> nat, stopAt: Option<nat>)
      returns (result: TurnResult, w: World, ghost steps: seq<Step>, ghost worlds: seq<World>)
    requires Runner.Terminating(input.env, rank)
    ensures input.history <= result.updatedHistory && 0 <= result.stepsExecuted <= Max(0, input.maxSteps)
    ensures StepsOk(steps) && Settled(steps) && Generated(input, steps) && LastAnswers(steps, stopAt)
    ensures result.updatedHistory == input.history + Messages(steps)
    ensures result.stepsExecuted == |steps| && result.totalUsage == Usage(steps)
    ensures Laid(result.updatedHistory, |input.history|, steps) && Summed(result.totalUsage, steps)
    ensures Course(input, w0, steps, worlds, w) && WentOn(input, steps, |steps| - if result.stopReason.Completed? then 1 else 0)
    ensures match result.stopReason
            case Completed => !Seen(stopAt, Checks(steps) - 1) && |steps| > 0 && !RunsTools(steps[|steps| - 1].generation)
                              && !GoesOn(input, steps[|steps| - 1].generation, |steps|)
            case MaxSteps => |steps| == Max(0, input.maxSteps)
            case Aborted => Seen(stopAt, Checks(steps))
            case Error => !Seen(stopAt, Checks(steps)) && |steps| < input.maxSteps
                          && input.generate(result.updatedHistory, |steps| + 1) == Failed(result.errorMessage)
    ensures if Seen(stopAt, Checks(steps) - 1)
            then result.stopReason == if |steps| == input.maxSteps && StopBeforeLastBatch(steps, stopAt) then MaxSteps else Aborted
            else AllAnswered(steps)
    ensures stopAt == Some(0) ==> steps == [] && result.stopReason == if input.maxSteps <= 0 then MaxSteps else Aborted
    ensures Serial.Separate(input.env) ==>
              exists fuel: nat :: SequentialTurn(input, stopAt, fuel, 1, 0, input.history, NO_USAGE, w0) == Some((result, w))
  {
    hide Runner.Terminating, Serial.Separate, Resolve, StepOk, FullyAnswered, AssistantMessage, ToolMessages, PendingCalls, RunsTools;
    hide StepsOk, AllAnswered, Generated, Messages, Usage, AddUsage, GoesOn, SequentialTurn, Settled, StepChecks, Checks;
    hide Course, WentOn, StepRan, StopBeforeLastBatch, LastAnswers, SoFar, Laid, Summed, OnTrack, Unseen, AnswerCount, Answers, Serial.Sequential;
    var history, usage := input.history, NO_USAGE;
    w, steps, worlds := w0, [], [w0];
    ghost var fuel: nat := 0;
    var step, check: nat := 1, 0;
    Begin(input, stopAt, w0);
    CourseBegins(input, w0);
    while step <= input.maxSteps
      invariant 1 <= step <= Max(0, input.maxSteps) + 1 && |steps| == step - 1
      invariant SoFar(input, stopAt, steps, check, history, usage)
      invariant Course(input, w0, steps, worlds, w) && WentOn(input, steps, |steps|)
      invariant Serial.Separate(input.env) ==> OnTrack(input, stopAt, w0, fuel, step, check, history, usage, w)
      invariant Seen(stopAt, check - 1) ==> StepsOk(steps) && StopBeforeLastBatch(steps, stopAt)
      invariant stopAt == Some(0) ==> step == 1
    {
      if Seen(stopAt, check) {
        result := TurnResult(Aborted, step - 1, usage, history, "");
        SoFarSays(input, stopAt, steps, check, history, usage);
        if Serial.Separate(input.env) { TrackEnd(input, stopAt, w0, fuel, step, check, history, usage, w, result); }
        return;
      }
      var g := input.generate(history, step);
      if g.Failed? {
        result := TurnResult(Error, step - 1, usage, history, g.message);
        SoFarSays(input, stopAt, steps, check, history, usage);
        if Serial.Separate(input.env) { TrackEnd(input, stopAt, w0, fuel, step, check, history, usage, w, result); }
        return;
      }
      var before := history;
      history := history + [AssistantMessage(g)];
      if !RunsTools(g) {
        AfterText(input, stopAt, w0, steps, worlds, check, before, usage, w, g);
        steps, worlds := steps + [Step(g, [])], worlds + [w];
        if !GoesOn(input, g, step) {
          result := TurnResult(StopReason.Completed, step, AddUsage(usage, g.usage), history, "");
          SoFarSays(input, stopAt, steps, check + 1, history, AddUsage(usage, g.usage));
          if Serial.Separate(input.env) { TrackEnd(input, stopAt, w0, fuel, step, check, before, usage, w, result); }
          return;
        }
        if Serial.Separate(input.env) { TrackText(input, stopAt, w0, fuel, step, check, before, usage, w); }
        usage, check := AddUsage(usage, g.usage), check + 1;
      } else {
        var w1: World, aborted: bool;
        ghost var results: seq<Scheduled>, answers: seq<Scheduled>, needed: nat;
        history, w1, aborted, results, answers, needed := RunCalls(input, g, history, w, rank, stopAt, check + 1);
        AfterTools(input, stopAt, w0, steps, worlds, check, before, usage, w, g, answers, w1);
        steps, worlds := steps + [Step(g, answers)], worlds + [w1];
        if aborted {
          result := TurnResult(Aborted, step, AddUsage(usage, g.usage), history, "");
          SoFarSays(input, stopAt, steps, check + StepChecks(g), history, AddUsage(usage, g.usage));
          if Serial.Separate(input.env) {
            TrackAt(input, stopAt, w0, fuel, step, check, before, usage, w, needed, results, answers, w1, Max(fuel, needed));
          }
          w := w1;
          return;
        }
        if Serial.Separate(input.env) {
          TrackBatch(input, stopAt, w0, fuel, step, check, before, usage, w, needed, results, answers, w1);
        }
        fuel := Max(fuel, needed);
        usage, w, check := AddUsage(usage, g.usage), w1, check + StepChecks(g);
      }
      step := step + 1;
    }
    result := TurnResult(MaxSteps, step - 1, usage, history, "");
    SoFarSays(input, stopAt, steps, check, history, usage);
    if Serial.Separate(input.env) { TrackEnd(input, stopAt, w0, fuel, step, check, history, usage, w, result); }
  }
}
