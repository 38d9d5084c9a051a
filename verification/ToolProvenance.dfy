/** Where every result of a batch comes from: from the tool, step by step on the
    worlds of the run, or from what refused the call; and what every move of a run
    does to the world. */
module ToolProvenance {
  import opened Basics
  import opened JsonValues
  import opened Llm
  import opened ToolEnv
  import opened ToolScheduler
  import Safety = SchedulerSafety

  // ------------------------------------------------------------------
  // Resolution
  // ------------------------------------------------------------------

  /** No arguments stand for null. */
  predicate ArgsOf(env: Env, tc: ToolCall, args: Json) {
    if tc.arguments == "" then args == JNull else env.parse(tc.arguments) == Ok(args)
  }

  /** The first tool of this name. */
  ghost predicate ToolFor(env: Env, name: string, tool: Tool) {
    exists i :: 0 <= i < |env.tools| && env.tools[i] == tool && tool.name == name
                && forall k | 0 <= k < i :: env.tools[k].name != name
  }

  ghost predicate ResolvesTo(env: Env, tc: ToolCall, args: Json, tool: Tool, x: Execution) {
    ArgsOf(env, tc, args) && ToolFor(env, tc.name, tool) && tool.resolve(args) == Ok(x)
  }

  /** A call that cannot be resolved, and what it is answered. */
  ghost predicate Unresolved(env: Env, tc: ToolCall, args: Json, r: ToolResult) {
    && r.isError
    && if tc.arguments != "" && env.parse(tc.arguments).Err? then
         args == JObj(map[]) && r.content == "invalid tool arguments: " + env.parse(tc.arguments).error
       else
         && ArgsOf(env, tc, args)
         && (((forall i | 0 <= i < |env.tools| :: env.tools[i].name != tc.name)
              && r.content == "tool '" + tc.name + "' not found")
             || exists tool :: ToolFor(env, tc.name, tool) && tool.resolve(args) == Err(r.content))
  }

  lemma {:induction false} FoundTool(tools: seq<Tool>, name: string)
    ensures match FindTool(tools, name)
            case None => forall i | 0 <= i < |tools| :: tools[i].name != name
            case Some(tool) => exists i :: 0 <= i < |tools| && tools[i] == tool && tool.name == name
                                           && forall k | 0 <= k < i :: tools[k].name != name
    decreases |tools|
  {
    if tools == [] {
    } else if tools[0].name == name {
      assert tools[0] == tools[0];
    } else {
      FoundTool(tools[1..], name);
      if FindTool(tools[1..], name).Some? {
        var i :| 0 <= i < |tools[1..]| && tools[1..][i] == FindTool(tools[1..], name).value && tools[1..][i].name == name
                 && forall k | 0 <= k < i :: tools[1..][k].name != name;
        assert tools[i + 1] == tools[1..][i];
        forall k | 0 <= k < i + 1 ensures tools[k].name != name { assert k > 0 ==> tools[k] == tools[1..][k - 1]; }
      } else {
        forall i | 0 <= i < |tools| ensures tools[i].name != name { assert i > 0 ==> tools[i] == tools[1..][i - 1]; }
      }
    }
  }

  /** A call resolves to the first tool of its name with its parsed arguments, or the
      error says what is missing. */
  lemma ResolveSays(env: Env, tc: ToolCall)
    ensures match Resolve(env, tc)
            case Refused(args, r) => Unresolved(env, tc, args, r)
            case Ready(args, tool, x) => ResolvesTo(env, tc, args, tool, x)
  {
    FoundTool(env.tools, tc.name);
    hide FindTool;
  }

  // ------------------------------------------------------------------
  // The gate and the hooks
  // ------------------------------------------------------------------

  /** What the gate says on the world w, and the world v it leaves: a call that needs
      no permission and Yolo mode pass unasked, a missing callback denies, and
      otherwise the callback's answer to the call's own arguments counts. */
  predicate GateSays(env: Env, tc: ToolCall, args: Json, x: Execution, w: World, allowed: bool, v: World) {
    if env.gate.None? || !x.requiresPermission || env.gate.value.mode == Yolo then allowed && v == w
    else if env.gate.value.callback.None? then !allowed && v == w
    else env.gate.value.callback.value(tc.name, args, x.description, w) == (allowed, v)
  }

  /** A matching hook runs and does not block; one that does not match is passed over. */
  predicate PassesBy(hook: PreHook, tc: ToolCall, args: Json, w: World, v: World) {
    if hook.matches(tc.name) then !hook.run(tc, args, w).0.HookBlock? && v == hook.run(tc, args, w).1 else v == w
  }

  /** The first |ws| - 1 hooks let the call pass one after another. */
  predicate LetPass(hooks: seq<PreHook>, tc: ToolCall, args: Json, ws: seq<World>)
    requires 0 < |ws| <= |hooks| + 1
  {
    forall k | 0 <= k < |ws| - 1 :: PassesBy(hooks[k], tc, args, ws[k], ws[k + 1])
  }

  /** What the pre-tool hooks say on the world w, and the world v they leave. */
  ghost predicate HooksSay(hooks: seq<PreHook>, tc: ToolCall, args: Json, w: World, block: Option<string>, v: World) {
    exists ws: seq<World> ::
      && 0 < |ws| <= |hooks| + 1 && ws[0] == w && LetPass(hooks, tc, args, ws)
      && var n := |ws| - 1;
         match block
         case None => n == |hooks| && v == ws[n]
         case Some(reason) =>
           n < |hooks| && hooks[n].matches(tc.name) && hooks[n].run(tc, args, ws[n]) == (HookBlock(reason), v)
  }

  /** The informational hooks that match the outcome run one after another. */
  ghost predicate HooksRan(hooks: seq<PostHook>, tc: ToolCall, r: ToolResult, w: World, v: World) {
    exists ws: seq<World> ::
      && |ws| == |hooks| + 1 && ws[0] == w && ws[|hooks|] == v
      && forall k | 0 <= k < |hooks| ::
           ws[k + 1] == if hooks[k].matches(r.isError, tc.name) then hooks[k].run(tc, r, ws[k]) else ws[k]
  }

  ghost predicate Denied(env: Env, tc: ToolCall, args: Json, x: Execution, w: World, v: World, r: ToolResult) {
    && GateSays(env, tc, args, x, w, false, v)
    && r == ToolResult("permission denied for tool '" + tc.name + "'", true)
  }

  ghost predicate Blocked(env: Env, tc: ToolCall, args: Json, x: Execution, w: World, v: World, r: ToolResult) {
    exists u, reason ::
      && GateSays(env, tc, args, x, w, true, u)
      && env.hooks.Some? && HooksSay(env.hooks.value.pre, tc, args, u, Some(reason), v)
      && r == ToolResult("blocked by hook: " + if reason == "" then "blocked by hook" else reason, true)
  }

  ghost predicate Passed(env: Env, tc: ToolCall, args: Json, x: Execution, w: World, v: World) {
    exists u ::
      && GateSays(env, tc, args, x, w, true, u)
      && if env.hooks.None? then v == u else HooksSay(env.hooks.value.pre, tc, args, u, None, v)
  }

  lemma LetPassOn(hooks: seq<PreHook>, tc: ToolCall, args: Json, w: World, rest: seq<World>)
    requires hooks != [] && 0 < |rest| <= |hooks| && LetPass(hooks[1..], tc, args, rest)
    requires PassesBy(hooks[0], tc, args, w, rest[0])
    ensures LetPass(hooks, tc, args, [w] + rest)
  {
    hide PassesBy;
    var ws := [w] + rest;
    forall k | 0 <= k < |ws| - 1 ensures PassesBy(hooks[k], tc, args, ws[k], ws[k + 1]) {
      if k > 0 {
        var j := k - 1;
        assert PassesBy(hooks[1..][j], tc, args, rest[j], rest[j + 1]);
      }
    }
  }

  /** TriggerBlock asks the matching hooks in order, each on the world the one before
      it left, up to the first that blocks. */
  lemma {:induction false} TriggerBlockSays(hooks: seq<PreHook>, tc: ToolCall, args: Json, w: World)
    ensures HooksSay(hooks, tc, args, w, TriggerBlock(hooks, tc, args, w).0, TriggerBlock(hooks, tc, args, w).1)
    decreases |hooks|
  {
    var (block, v) := TriggerBlock(hooks, tc, args, w);
    if hooks == [] || (hooks[0].matches(tc.name) && hooks[0].run(tc, args, w).0.HookBlock?) {
      assert LetPass(hooks, tc, args, [w]) && [w][0] == w;
    } else {
      var w' := if hooks[0].matches(tc.name) then hooks[0].run(tc, args, w).1 else w;
      TriggerBlockSays(hooks[1..], tc, args, w');
      assert TriggerBlock(hooks[1..], tc, args, w') == (block, v);
      hide TriggerBlock, LetPass;
      var rest: seq<World> :|
        && 0 < |rest| <= |hooks[1..]| + 1 && rest[0] == w' && LetPass(hooks[1..], tc, args, rest)
        && var n := |rest| - 1;
           match block
           case None => n == |hooks[1..]| && v == rest[n]
           case Some(reason) => n < |hooks[1..]| && hooks[1..][n].matches(tc.name)
                                && hooks[1..][n].run(tc, args, rest[n]) == (HookBlock(reason), v);
      LetPassOn(hooks, tc, args, w, rest);
      assert ([w] + rest)[0] == w && ([w] + rest)[|rest|] == rest[|rest| - 1];
      if block.Some? { assert hooks[|rest|] == hooks[1..][|rest| - 1]; }
    }
  }

  /** Trigger runs the matching hooks in order, each on the world the one before it left. */
  lemma {:induction false} TriggerSays(hooks: seq<PostHook>, tc: ToolCall, r: ToolResult, w: World)
    ensures HooksRan(hooks, tc, r, w, Trigger(hooks, tc, r, w))
    decreases |hooks|
  {
    if hooks == [] {
      assert [w][0] == w;
    } else {
      var w' := if hooks[0].matches(r.isError, tc.name) then hooks[0].run(tc, r, w) else w;
      TriggerSays(hooks[1..], tc, r, w');
      var v := Trigger(hooks, tc, r, w);
      assert Trigger(hooks[1..], tc, r, w') == v;
      hide Trigger;
      var rest: seq<World> :|
        && |rest| == |hooks[1..]| + 1 && rest[0] == w' && rest[|hooks[1..]|] == v
        && forall k | 0 <= k < |hooks[1..]| ::
             rest[k + 1] == if hooks[1..][k].matches(r.isError, tc.name) then hooks[1..][k].run(tc, r, rest[k]) else rest[k];
      var ws := [w] + rest;
      forall k | 0 <= k < |hooks|
        ensures ws[k + 1] == if hooks[k].matches(r.isError, tc.name) then hooks[k].run(tc, r, ws[k]) else ws[k]
      {
        if k > 0 { assert hooks[k] == hooks[1..][k - 1] && ws[k] == rest[k - 1] && ws[k + 1] == rest[k]; }
      }
      assert ws[0] == w && ws[|hooks|] == v;
    }
  }

  /** How the screening of a resolved call ended, and the result that stops it, if any. */
  ghost predicate Screened(env: Env, tc: ToolCall, args: Json, x: Execution, w: World, v: World, verdict: Option<ToolResult>) {
    match verdict
    case None => Passed(env, tc, args, x, w, v)
    case Some(r) => Denied(env, tc, args, x, w, v, r) || Blocked(env, tc, args, x, w, v, r)
  }

  lemma GateIs(env: Env, tc: ToolCall, args: Json, x: Execution, w: World)
    requires env.gate.Some? && x.requiresPermission
    ensures var (allowed, v) := ShouldRun(env.gate.value, true, tc.name, args, x.description, w);
            GateSays(env, tc, args, x, w, allowed, v)
  {
  }

  lemma HooksAre(env: Env, tc: ToolCall, args: Json, x: Execution, asked: Option<bool>, w: World, u: World)
    requires GateSays(env, tc, args, x, w, true, u)
    ensures var t := ScreenHooks(env, tc, args, asked, u);
            Screened(env, tc, args, x, w, t.world, t.verdict)
  {
    hide GateSays, HooksSay, TriggerBlock;
    if env.hooks.Some? {
      TriggerBlockSays(env.hooks.value.pre, tc, args, u);
    }
  }

  /** Screening leaves a call that cannot be resolved as it is; otherwise it is what the
      gate and then the hooks say. */
  lemma ScreenSays(env: Env, tc: ToolCall, w: World)
    ensures var t := Screen(env, tc, w);
            match Resolve(env, tc)
            case Refused(_, r) => t.verdict == Some(r) && t.world == w
            case Ready(args, _, x) => Screened(env, tc, args, x, w, t.world, t.verdict)
  {
    hide Resolve, GateSays, ScreenHooks, ShouldRun, Screened;
    var p := Resolve(env, tc);
    if p.Ready? {
      if env.gate.Some? && p.execution.requiresPermission {
        GateIs(env, tc, p.args, p.execution, w);
        var (allowed, u) := ShouldRun(env.gate.value, true, tc.name, p.args, p.execution.description, w);
        if allowed {
          HooksAre(env, tc, p.args, p.execution, Some(true), w, u);
        } else {
          DeniedIs(env, tc, p.args, p.execution, w, u);
        }
      } else {
        assert GateSays(env, tc, p.args, p.execution, w, true, w) by { Unasked(env, tc, p.args, p.execution, w); }
        HooksAre(env, tc, p.args, p.execution, None, w, w);
      }
    }
  }

  /** What is told about a screening: whether the gate was asked and what it said, and
      whether the hooks were and blocked. */
  lemma ScreeningTold(env: Env, tc: ToolCall, w: World, i: nat)
    ensures var t := Screen(env, tc, w);
            match Resolve(env, tc)
            case Refused(_, _) => AdmitEvents(i, t) == [Started(i)]
            case Ready(_, _, x) =>
              var needed := env.gate.Some? && x.requiresPermission;
              && (needed <==> exists b :: Asked(i, b) in AdmitEvents(i, t))
              && (Asked(i, false) in AdmitEvents(i, t) ==>
                    t.verdict == Some(ToolResult("permission denied for tool '" + tc.name + "'", true)))
              && (Asked(i, true) in AdmitEvents(i, t) || !needed ==>
                    (env.hooks.Some? <==> Hooked(i, t.verdict.Some?) in AdmitEvents(i, t))
                    && (t.verdict.Some? ==> env.hooks.Some?))
              && Hooked(i, t.verdict.None?) !in AdmitEvents(i, t)
              && !(Asked(i, true) in AdmitEvents(i, t) && Asked(i, false) in AdmitEvents(i, t))
  {
    hide Resolve, TriggerBlock, ShouldRun;
    var t := Screen(env, tc, w);
    if t.asked.Some? { assert Asked(i, t.asked.value) in AdmitEvents(i, t); }
  }

  lemma DeniedIs(env: Env, tc: ToolCall, args: Json, x: Execution, w: World, u: World)
    requires GateSays(env, tc, args, x, w, false, u)
    ensures Screened(env, tc, args, x, w, u, Some(ToolResult("permission denied for tool '" + tc.name + "'", true)))
  {
    hide GateSays;
  }

  lemma Unasked(env: Env, tc: ToolCall, args: Json, x: Execution, w: World)
    requires env.gate.None? || !x.requiresPermission
    ensures GateSays(env, tc, args, x, w, true, w)
  {
  }

  // ------------------------------------------------------------------
  // What a result may come from
  // ------------------------------------------------------------------

  /** The state after the first k moves. */
  function StateAt(job: Job, w: World, moves: seq<Move>, k: nat): State
    requires k <= |moves|
  {
    match Run(job, w, moves[..k])
    case Some(s) => s
    case None => Init(w)
  }

  /** What a reply becomes. */
  predicate Becomes(reply: Reply, r: ToolResult) {
    match reply
    case Success(result) => r == result
    case Failure(message) => r == ToolResult(message, true)
    case Threw(what) => r == ToolResult("tool threw exception: " + what, true)
    case ThrewUnknown => r == ToolResult("tool threw unknown exception", true)
  }

  /** Move m is a step of the execution of call i. */
  predicate WorksOn(s: State, m: Move, i: nat) {
    m.WorkMove? && i == if s.phase.Flush? then s.lo + m.k else s.next
  }

  /** An execution of call i that has begun: move ks[0] began it, and each move ks[n]
      behind it took the tool one step further, on the world it found and to the world
      it left. */
  ghost predicate Steps(job: Job, w: World, moves: seq<Move>, i: nat, tool: Tool, args: Json, ks: seq<nat>, locals: seq<Local>) {
    && |ks| == |locals| > 0
    && (forall n | 0 <= n < |ks| :: ks[n] < |moves| && WorksOn(StateAt(job, w, moves, ks[n]), moves[ks[n]], i))
    && (forall n | 0 < n < |ks| :: ks[n - 1] < ks[n])
    && locals[0] == tool.start(args)
    && (forall n | 0 < n < |ks| ::
          tool.step(args, locals[n - 1], StateAt(job, w, moves, ks[n]).world)
          == More(locals[n], StateAt(job, w, moves, ks[n] + 1).world))
  }

  /** Behind these steps, move k took the tool to its end, and r is what it replied. */
  ghost predicate Ended(job: Job, w: World, moves: seq<Move>, i: nat, tool: Tool, args: Json,
                        ks: seq<nat>, locals: seq<Local>, k: nat, r: ToolResult) {
    && |ks| == |locals| > 0 && ks[|ks| - 1] < k < |moves| && WorksOn(StateAt(job, w, moves, k), moves[k], i)
    && var o := tool.step(args, locals[|locals| - 1], StateAt(job, w, moves, k).world);
       o.Return? && o.world == StateAt(job, w, moves, k + 1).world && Becomes(o.reply, r)
  }

  /** Call i was executed in the run, and r is what the tool replied. */
  ghost predicate Executed(job: Job, w: World, moves: seq<Move>, i: nat, tool: Tool, args: Json, r: ToolResult) {
    exists ks, locals, k ::
      Steps(job, w, moves, i, tool, args, ks, locals) && Ended(job, w, moves, i, tool, args, ks, locals, k, r)
  }

  /** Call i was refused at its admission. */
  ghost predicate RefusedAt(job: Job, w: World, moves: seq<Move>, k: nat, i: nat, args: Json, x: Execution, r: ToolResult)
    requires i < |job.calls|
  {
    && k < |moves| && moves[k] == AdmitMove && StateAt(job, w, moves, k).next == i
    && Screened(job.env, job.calls[i], args, x,
                StateAt(job, w, moves, k).world, StateAt(job, w, moves, k + 1).world, Some(r))
  }

  /** The result of call i and its arguments: from the resolution, from the gate or the
      hooks at its admission, or from the tool. */
  ghost predicate Sourced(job: Job, w: World, moves: seq<Move>, i: nat, args: Json, r: ToolResult)
    requires i < |job.calls|
  {
    || Unresolved(job.env, job.calls[i], args, r)
    || exists tool, x ::
         && ResolvesTo(job.env, job.calls[i], args, tool, x)
         && ((exists k: nat :: RefusedAt(job, w, moves, k, i, args, x, r)) || Executed(job, w, moves, i, tool, args, r))
  }

  // ------------------------------------------------------------------
  // A run grows
  // ------------------------------------------------------------------

  lemma StateStays(job: Job, w: World, moves: seq<Move>, m: Move, k: nat)
    requires k <= |moves|
    ensures StateAt(job, w, moves + [m], k) == StateAt(job, w, moves, k)
  {
    hide Run;
    assert (moves + [m])[..k] == moves[..k];
  }

  lemma StepsStay(job: Job, w: World, moves: seq<Move>, m: Move, i: nat, tool: Tool, args: Json, ks: seq<nat>, locals: seq<Local>)
    requires Steps(job, w, moves, i, tool, args, ks, locals)
    ensures Steps(job, w, moves + [m], i, tool, args, ks, locals)
  {
    hide StateAt;
    var more := moves + [m];
    forall n | 0 <= n < |ks|
      ensures StateAt(job, w, more, ks[n]) == StateAt(job, w, moves, ks[n])
      ensures StateAt(job, w, more, ks[n] + 1) == StateAt(job, w, moves, ks[n] + 1)
      ensures more[ks[n]] == moves[ks[n]]
    {
      StateStays(job, w, moves, m, ks[n]);
      StateStays(job, w, moves, m, ks[n] + 1);
    }
  }

  lemma EndedStays(job: Job, w: World, moves: seq<Move>, m: Move, i: nat, tool: Tool, args: Json,
                   ks: seq<nat>, locals: seq<Local>, k: nat, r: ToolResult)
    requires Ended(job, w, moves, i, tool, args, ks, locals, k, r)
    ensures Ended(job, w, moves + [m], i, tool, args, ks, locals, k, r)
  {
    hide StateAt, Becomes, WorksOn;
    StateStays(job, w, moves, m, k);
    StateStays(job, w, moves, m, k + 1);
  }

  lemma ExecutedStays(job: Job, w: World, moves: seq<Move>, m: Move, i: nat, tool: Tool, args: Json, r: ToolResult)
    requires Executed(job, w, moves, i, tool, args, r)
    ensures Executed(job, w, moves + [m], i, tool, args, r)
  {
    hide Steps, Ended;
    var ks, locals, k :|
      Steps(job, w, moves, i, tool, args, ks, locals) && Ended(job, w, moves, i, tool, args, ks, locals, k, r);
    StepsStay(job, w, moves, m, i, tool, args, ks, locals);
    EndedStays(job, w, moves, m, i, tool, args, ks, locals, k, r);
  }

  lemma SourcedStays(job: Job, w: World, moves: seq<Move>, m: Move, i: nat, args: Json, r: ToolResult)
    requires i < |job.calls| && Sourced(job, w, moves, i, args, r)
    ensures Sourced(job, w, moves + [m], i, args, r)
  {
    hide Unresolved, ResolvesTo, Executed, Screened, StateAt;
    if !Unresolved(job.env, job.calls[i], args, r) {
      var tool, x :|
        && ResolvesTo(job.env, job.calls[i], args, tool, x)
        && ((exists k: nat :: RefusedAt(job, w, moves, k, i, args, x, r)) || Executed(job, w, moves, i, tool, args, r));
      if Executed(job, w, moves, i, tool, args, r) {
        ExecutedStays(job, w, moves, m, i, tool, args, r);
      } else {
        var k: nat :| RefusedAt(job, w, moves, k, i, args, x, r);
        StateStays(job, w, moves, m, k);
        StateStays(job, w, moves, m, k + 1);
        assert RefusedAt(job, w, moves + [m], k, i, args, x, r);
      }
    }
  }

  // ------------------------------------------------------------------
  // One execution
  // ------------------------------------------------------------------

  /** Steps of call i that have led to this local state. */
  ghost predicate Led(job: Job, w: World, moves: seq<Move>, i: nat, tool: Tool, args: Json, local: Local) {
    exists ks, locals ::
      Steps(job, w, moves, i, tool, args, ks, locals) && |locals| > 0 && locals[|locals| - 1] == local
  }

  /** What the cell of call i stands for in the run. */
  ghost predicate CellTraced(job: Job, w: World, moves: seq<Move>, i: nat, cell: Cell)
    requires i < |job.calls|
  {
    var p := Resolve(job.env, job.calls[i]);
    && p.Ready?
    && match cell
       case Waiting => true
       case Running(local) => Led(job, w, moves, i, p.tool, p.args, local)
       case Finished(r) => Executed(job, w, moves, i, p.tool, p.args, r)
  }

  lemma LedStays(job: Job, w: World, moves: seq<Move>, m: Move, i: nat, tool: Tool, args: Json, local: Local)
    requires Led(job, w, moves, i, tool, args, local)
    ensures Led(job, w, moves + [m], i, tool, args, local)
  {
    hide Steps;
    var ks, locals :| Steps(job, w, moves, i, tool, args, ks, locals) && |locals| > 0 && locals[|locals| - 1] == local;
    StepsStay(job, w, moves, m, i, tool, args, ks, locals);
  }

  lemma TracedStays(job: Job, w: World, moves: seq<Move>, m: Move, i: nat, cell: Cell)
    requires i < |job.calls| && CellTraced(job, w, moves, i, cell)
    ensures CellTraced(job, w, moves + [m], i, cell)
  {
    hide Resolve, Led, Executed;
    var p := Resolve(job.env, job.calls[i]);
    if cell.Running? {
      LedStays(job, w, moves, m, i, p.tool, p.args, cell.local);
    } else if cell.Finished? {
      ExecutedStays(job, w, moves, m, i, p.tool, p.args, cell.result);
    }
  }

  /** The last move of the run takes call i one step further, from the world u to v. */
  ghost predicate LastWorks(job: Job, w: World, moves: seq<Move>, i: nat, u: World, v: World) {
    && moves != []
    && var k := |moves| - 1;
       && WorksOn(StateAt(job, w, moves, k), moves[k], i)
       && StateAt(job, w, moves, k).world == u && StateAt(job, w, moves, k + 1).world == v
  }

  lemma Begins(job: Job, w: World, moves: seq<Move>, i: nat, tool: Tool, args: Json, u: World, v: World)
    requires LastWorks(job, w, moves, i, u, v)
    ensures Led(job, w, moves, i, tool, args, tool.start(args))
  {
    hide StateAt, WorksOn;
    assert Steps(job, w, moves, i, tool, args, [|moves| - 1], [tool.start(args)]);
  }

  lemma GoesFurther(job: Job, w: World, before: seq<Move>, m: Move, i: nat, tool: Tool, args: Json, local: Local,
                    next: Local, u: World, v: World)
    requires Led(job, w, before, i, tool, args, local) && LastWorks(job, w, before + [m], i, u, v)
    requires tool.step(args, local, u) == More(next, v)
    ensures Led(job, w, before + [m], i, tool, args, next)
  {
    hide StateAt, WorksOn;
    var moves := before + [m];
    var ks, locals :| Steps(job, w, before, i, tool, args, ks, locals) && |locals| > 0 && locals[|locals| - 1] == local;
    StepsStay(job, w, before, m, i, tool, args, ks, locals);
    StepsOn(job, w, moves, i, tool, args, ks, locals, next, u, v);
    assert (locals + [next])[|locals + [next]| - 1] == next;
  }

  lemma StepsOn(job: Job, w: World, moves: seq<Move>, i: nat, tool: Tool, args: Json, ks: seq<nat>, locals: seq<Local>,
                next: Local, u: World, v: World)
    requires Steps(job, w, moves, i, tool, args, ks, locals) && LastWorks(job, w, moves, i, u, v)
    requires ks[|ks| - 1] < |moves| - 1
    requires tool.step(args, locals[|locals| - 1], u) == More(next, v)
    ensures Steps(job, w, moves, i, tool, args, ks + [|moves| - 1], locals + [next])
  {
    hide StateAt, WorksOn;
  }

  lemma Returns(job: Job, w: World, before: seq<Move>, m: Move, i: nat, tool: Tool, args: Json, local: Local,
                reply: Reply, u: World, v: World)
    requires Led(job, w, before, i, tool, args, local) && LastWorks(job, w, before + [m], i, u, v)
    requires tool.step(args, local, u) == Return(reply, v)
    ensures Executed(job, w, before + [m], i, tool, args, ResultOf(reply))
  {
    hide StateAt, WorksOn;
    var ks, locals :| Steps(job, w, before, i, tool, args, ks, locals) && |locals| > 0 && locals[|locals| - 1] == local;
    StepsStay(job, w, before, m, i, tool, args, ks, locals);
    assert Ended(job, w, before + [m], i, tool, args, ks, locals, |before|, ResultOf(reply));
  }

  lemma CellWorks(job: Job, w: World, before: seq<Move>, m: Move, i: nat, cell: Cell, u: World)
    requires i < |job.calls| && CellTraced(job, w, before, i, cell) && !cell.Finished?
    requires LastWorks(job, w, before + [m], i, u, Work(job.env, job.calls[i], cell, u).1)
    ensures CellTraced(job, w, before + [m], i, Work(job.env, job.calls[i], cell, u).0)
  {
    hide Resolve, Led, Executed, LastWorks, ResultOf;
    var p := Resolve(job.env, job.calls[i]);
    var v := Work(job.env, job.calls[i], cell, u).1;
    if cell.Waiting? {
      Begins(job, w, before + [m], i, p.tool, p.args, u, v);
    } else {
      var o := p.tool.step(p.args, cell.local, u);
      if o.More? {
        GoesFurther(job, w, before, m, i, p.tool, p.args, cell.local, o.local, u, v);
      } else {
        Returns(job, w, before, m, i, p.tool, p.args, cell.local, o.reply, u, v);
      }
    }
  }

  // ------------------------------------------------------------------
  // The invariant of a run
  // ------------------------------------------------------------------

  /** The refusal that waits to be announced. */
  function Pending(s: State): Option<ToolResult> {
    match s.phase
    case Emit(r) => Some(r)
    case Flush(_, _, ToEmit(r)) => Some(r)
    case _ => None
  }

  /** Result j belongs to call j and comes from its refusal or from its tool. */
  ghost predicate AllSourced(job: Job, w: World, moves: seq<Move>, results: seq<Scheduled>) {
    forall j | 0 <= j < |results| ::
      j < |job.calls| && results[j].call == job.calls[j] && Sourced(job, w, moves, j, results[j].args, results[j].result)
  }

  ghost predicate CellsTraced(job: Job, w: World, moves: seq<Move>, s: State) {
    forall i: nat | Safety.CellOf(s, i).Some? :: i < |job.calls| && CellTraced(job, w, moves, i, Safety.CellOf(s, i).value)
  }

  ghost predicate PendingTraced(job: Job, w: World, moves: seq<Move>, s: State) {
    Pending(s).Some? ==>
      s.next < |job.calls| && Sourced(job, w, moves, s.next, Resolve(job.env, job.calls[s.next]).args, Pending(s).value)
  }

  ghost predicate FromRun(job: Job, w: World, moves: seq<Move>, s: State) {
    AllSourced(job, w, moves, s.results) && CellsTraced(job, w, moves, s) && PendingTraced(job, w, moves, s)
  }

  lemma ResultsStay(job: Job, w: World, moves: seq<Move>, m: Move, results: seq<Scheduled>)
    requires AllSourced(job, w, moves, results)
    ensures AllSourced(job, w, moves + [m], results)
  {
    hide Sourced;
    forall j | 0 <= j < |results| ensures Sourced(job, w, moves + [m], j, results[j].args, results[j].result) {
      SourcedStays(job, w, moves, m, j, results[j].args, results[j].result);
    }
  }

  lemma FromRunStays(job: Job, w: World, moves: seq<Move>, m: Move, s: State)
    requires FromRun(job, w, moves, s)
    ensures FromRun(job, w, moves + [m], s)
  {
    hide Sourced, CellTraced, Safety.CellOf, Resolve, Pending;
    ResultsStay(job, w, moves, m, s.results);
    hide AllSourced;
    forall i: nat | Safety.CellOf(s, i).Some? ensures CellTraced(job, w, moves + [m], i, Safety.CellOf(s, i).value) {
      TracedStays(job, w, moves, m, i, Safety.CellOf(s, i).value);
    }
    if Pending(s).Some? {
      SourcedStays(job, w, moves, m, s.next, Resolve(job.env, job.calls[s.next]).args, Pending(s).value);
    }
  }

  /** Nothing is announced, and every cell there is waits. */
  ghost predicate Launches(job: Job, s: State, t: State) {
    && t.results == s.results
    && forall i: nat | Safety.CellOf(t, i).Some? ::
         i < |job.calls| && Resolve(job.env, job.calls[i]).Ready? && Safety.CellOf(t, i) == Some(Waiting)
  }

  /** The calls of the pending window may run concurrently. */
  ghost predicate WindowSafe(job: Job, s: State) {
    s.lo <= s.next <= |job.calls| && forall i | s.lo <= i < s.next :: Concurrent(job, i)
  }

  lemma FlushLaunches(job: Job, s: State, after: After)
    requires WindowSafe(job, s)
    ensures Launches(job, s, BeginFlush(s, after)) && BeginFlush(s, after).next == s.next
    ensures Pending(BeginFlush(s, after)) == if after.ToEmit? then Some(after.result) else None
  {
    hide Resolve;
    var t := BeginFlush(s, after);
    forall i: nat | Safety.CellOf(t, i).Some?
      ensures i < |job.calls| && Resolve(job.env, job.calls[i]).Ready? && Safety.CellOf(t, i) == Some(Waiting)
    {
      assert Concurrent(job, i);
    }
  }

  lemma AdmittedLaunches(job: Job, s: State, t: Screening)
    requires WindowSafe(job, s) && s.phase.Admit? && s.next < |job.calls|
    requires t.verdict.None? ==> Resolve(job.env, job.calls[s.next]).Ready?
    ensures Launches(job, s, Admitted(job, s, t)) && Pending(Admitted(job, s, t)) == t.verdict
    ensures t.verdict.Some? ==> Admitted(job, s, t).next == s.next
  {
    hide Resolve, AdmitEvents;
    var s1 := s.(world := t.world, log := s.log + AdmitEvents(s.next, t));
    if t.verdict.Some? {
      FlushLaunches(job, s1, ToEmit(t.verdict.value));
    } else if Concurrent(job, s.next) {
      FlushLaunches(job, s1.(next := s.next + 1, phase := Fetch), ToFetch);
    }
  }

  /** A stop, the next call, its admission: what they launch and what they refuse. */
  lemma MoveLaunches(job: Job, s: State, m: Move)
    requires WellFormed(job, s) && Enabled(job, s, m) && (m.StopMove? || m.FetchMove? || m.AdmitMove?)
    ensures var t := Apply(job, s, m);
            && Launches(job, s, t)
            && (Pending(t).Some? ==> m == AdmitMove && t.next == s.next < |job.calls|
                                     && Pending(t) == Screen(job.env, job.calls[s.next], s.world).verdict
                                     && t.world == Screen(job.env, job.calls[s.next], s.world).world)
  {
    hide Resolve, Screen, Launches, BeginFlush, Pending, Admitted;
    match m
    case StopMove => StopLaunches(job, s);
    case FetchMove => FetchLaunches(job, s);
    case AdmitMove =>
      var t := Screen(job.env, job.calls[s.next], s.world);
      AdmittedLaunches(job, s, t);
      AdmittedWorld(job, s, t);
  }

  lemma StopLaunches(job: Job, s: State)
    requires WellFormed(job, s) && Enabled(job, s, StopMove)
    ensures Launches(job, s, Apply(job, s, StopMove)) && Pending(Apply(job, s, StopMove)).None?
  {
    hide Resolve, BeginFlush, Pending;
    FlushLaunches(job, s.(stopped := true), ToEnd);
  }

  lemma FetchLaunches(job: Job, s: State)
    requires WellFormed(job, s) && Enabled(job, s, FetchMove)
    ensures Launches(job, s, ApplyFetch(job, s)) && Pending(ApplyFetch(job, s)).None?
  {
    hide Resolve, Launches, BeginFlush, Pending;
    if s.next == |job.calls| {
      FlushLaunches(job, s, ToEnd);
    } else if !Concurrent(job, s.next) {
      FlushLaunches(job, s, ToAdmit);
    } else {
      FlushLaunches(job, s.(lo := s.next), ToAdmit);
      GotoLaunches(job, s);
    }
  }

  lemma GotoLaunches(job: Job, s: State)
    ensures Launches(job, s, Goto(s, ToAdmit)) && Pending(Goto(s, ToAdmit)).None?
  {
    hide Resolve;
  }

  lemma AdmittedWorld(job: Job, s: State, t: Screening)
    requires s.lo <= s.next < |job.calls|
    ensures Admitted(job, s, t).world == t.world
  {
    hide Resolve, AdmitEvents;
  }

  lemma LaunchTraced(job: Job, w: World, moves: seq<Move>, s: State, t: State)
    requires AllSourced(job, w, moves, s.results) && Launches(job, s, t) && PendingTraced(job, w, moves, t)
    ensures FromRun(job, w, moves, t)
  {
    hide Resolve, Safety.CellOf, AllSourced, PendingTraced;
  }

  /** The run ends with an admission of call i, which is answered the verdict. */
  ghost predicate LastAdmits(job: Job, w: World, moves: seq<Move>, i: nat, u: World, v: World) {
    && moves != [] && moves[|moves| - 1] == AdmitMove
    && var k := |moves| - 1;
       StateAt(job, w, moves, k).next == i && StateAt(job, w, moves, k).world == u && StateAt(job, w, moves, k + 1).world == v
  }

  lemma VerdictSourced(job: Job, w: World, moves: seq<Move>, i: nat, u: World)
    requires i < |job.calls| && Screen(job.env, job.calls[i], u).verdict.Some?
    requires LastAdmits(job, w, moves, i, u, Screen(job.env, job.calls[i], u).world)
    ensures Sourced(job, w, moves, i, Resolve(job.env, job.calls[i]).args, Screen(job.env, job.calls[i], u).verdict.value)
  {
    hide Resolve, Screen, Screened, Unresolved, ResolvesTo, StateAt, Executed;
    ScreenSays(job.env, job.calls[i], u);
    ResolveSays(job.env, job.calls[i]);
    var p := Resolve(job.env, job.calls[i]);
    if p.Ready? {
      assert RefusedAt(job, w, moves, |moves| - 1, i, p.args, p.execution, Screen(job.env, job.calls[i], u).verdict.value);
    }
  }

  /** The last move is m, from the state s to t. */
  ghost predicate LastMove(job: Job, w: World, before: seq<Move>, m: Move, s: State, t: State) {
    && WellFormed(job, s) && Enabled(job, s, m) && t == Apply(job, s, m)
    && StateAt(job, w, before + [m], |before|) == s && StateAt(job, w, before + [m], |before| + 1) == t
  }

  lemma LaunchKeeps(job: Job, w: World, before: seq<Move>, m: Move, s: State, t: State)
    requires LastMove(job, w, before, m, s, t) && FromRun(job, w, before, s)
    requires m.StopMove? || m.FetchMove? || m.AdmitMove?
    ensures FromRun(job, w, before + [m], t)
  {
    hide Resolve, Screen, Launches, Pending, Apply, WellFormed, StateAt, Sourced, CellsTraced, AllSourced, Safety.CellOf, Enabled;
    ResultsStay(job, w, before, m, s.results);
    MoveLaunches(job, s, m);
    if Pending(t).Some? {
      VerdictSourced(job, w, before + [m], s.next, s.world);
    }
    LaunchTraced(job, w, before + [m], s, t);
  }

  lemma WorkKeeps(job: Job, w: World, before: seq<Move>, m: Move, s: State, t: State)
    requires LastMove(job, w, before, m, s, t) && FromRun(job, w, before, s) && m.WorkMove?
    ensures FromRun(job, w, before + [m], t)
  {
    FromRunStays(job, w, before, m, s);
    var i := WorkShape(job, s, m.k, t);
    hide Resolve, Apply, WellFormed, StateAt, Sourced, AllSourced, Safety.CellOf, Enabled, Work, CellTraced, Pending;
    CellWorks(job, w, before, m, i, Safety.CellOf(s, i).value, s.world);
    forall j: nat | Safety.CellOf(t, j).Some?
      ensures j < |job.calls| && CellTraced(job, w, before + [m], j, Safety.CellOf(t, j).value)
    {
      if j != i { assert Safety.CellOf(t, j) == Safety.CellOf(s, j); }
    }
  }

  lemma WorkShape(job: Job, s: State, k: nat, t: State) returns (i: nat)
    requires WellFormed(job, s) && Enabled(job, s, WorkMove(k)) && t == Apply(job, s, WorkMove(k))
    ensures i < |job.calls| && WorksOn(s, WorkMove(k), i) && Resolve(job.env, job.calls[i]).Ready?
    ensures Safety.CellOf(s, i).Some? && !Safety.CellOf(s, i).value.Finished?
    ensures Work(job.env, job.calls[i], Safety.CellOf(s, i).value, s.world) == (Safety.CellOf(t, i).value, t.world)
    ensures Safety.CellOf(t, i).Some? && forall j: nat | j != i :: Safety.CellOf(t, j) == Safety.CellOf(s, j)
    ensures t.results == s.results && t.next == s.next && Pending(t) == Pending(s)
  {
    hide Resolve, Work;
    i := if s.phase.Flush? then s.lo + k else s.next;
  }

  /** The result of call i is announced, and all else stands. */
  ghost predicate Announces(job: Job, s: State, i: nat, r: ToolResult, t: State) {
    && i == |s.results| < |job.calls| && t.results == s.results + [Scheduled(job.calls[i], Resolve(job.env, job.calls[i]).args, r)]
    && (forall j: nat | Safety.CellOf(t, j).Some? :: Safety.CellOf(t, j) == Safety.CellOf(s, j))
    && (Pending(t).Some? ==> Pending(t) == Pending(s) && t.next == s.next)
    && (Safety.CellOf(s, i) == Some(Finished(r)) || (Pending(s) == Some(r) && i == s.next))
  }

  lemma CollectAnnounces(job: Job, s: State) returns (i: nat, r: ToolResult)
    requires WellFormed(job, s) && Enabled(job, s, CollectMove)
    ensures Announces(job, s, i, r, Apply(job, s, CollectMove))
  {
    hide Resolve, PostHooks;
    i, r := s.lo + s.phase.collected, s.phase.cells[s.phase.collected].result;
  }

  lemma EmitAnnounces(job: Job, s: State) returns (i: nat, r: ToolResult)
    requires WellFormed(job, s) && Enabled(job, s, EmitMove)
    ensures Announces(job, s, i, r, Apply(job, s, EmitMove))
  {
    hide Resolve, PostHooks;
    i, r := s.next, if s.phase.Emit? then s.phase.result else s.phase.cell.result;
  }

  lemma FinishedSourced(job: Job, w: World, moves: seq<Move>, i: nat, r: ToolResult)
    requires i < |job.calls| && CellTraced(job, w, moves, i, Finished(r))
    ensures Sourced(job, w, moves, i, Resolve(job.env, job.calls[i]).args, r)
  {
    hide Resolve, Executed, ResolvesTo, Unresolved;
    ResolveSays(job.env, job.calls[i]);
  }

  lemma AnnounceTraced(job: Job, w: World, moves: seq<Move>, s: State, i: nat, r: ToolResult, t: State)
    requires FromRun(job, w, moves, s) && Announces(job, s, i, r, t)
    ensures FromRun(job, w, moves, t)
  {
    hide Resolve, Sourced, CellTraced, Safety.CellOf, Pending;
    if Safety.CellOf(s, i) == Some(Finished(r)) {
      FinishedSourced(job, w, moves, i, r);
    }
    assert Sourced(job, w, moves, i, Resolve(job.env, job.calls[i]).args, r);
  }

  lemma AnnounceKeeps(job: Job, w: World, before: seq<Move>, m: Move, s: State, t: State)
    requires LastMove(job, w, before, m, s, t) && FromRun(job, w, before, s) && (m.CollectMove? || m.EmitMove?)
    ensures FromRun(job, w, before + [m], t)
  {
    hide Apply, Enabled, WellFormed, StateAt, FromRun, Announces;
    FromRunStays(job, w, before, m, s);
    var i, r;
    if m.CollectMove? { i, r := CollectAnnounces(job, s); } else { i, r := EmitAnnounces(job, s); }
    AnnounceTraced(job, w, before + [m], s, i, r, t);
  }

  lemma MoveKeeps(job: Job, w: World, before: seq<Move>, m: Move, s: State, t: State)
    requires LastMove(job, w, before, m, s, t) && FromRun(job, w, before, s)
    ensures FromRun(job, w, before + [m], t)
  {
    hide LastMove, FromRun;
    match m
    case WorkMove(_) => WorkKeeps(job, w, before, m, s, t);
    case CollectMove => AnnounceKeeps(job, w, before, m, s, t);
    case EmitMove => AnnounceKeeps(job, w, before, m, s, t);
    case _ => LaunchKeeps(job, w, before, m, s, t);
  }

  /** The last move of a run. */
  lemma LastOfRun(job: Job, w: World, moves: seq<Move>) returns (before: seq<Move>, m: Move)
    requires moves != [] && Run(job, w, moves).Some?
    ensures moves == before + [m] && Run(job, w, before).Some?
    ensures LastMove(job, w, before, m, Run(job, w, before).value, Run(job, w, moves).value)
  {
    hide Enabled, Apply, WellFormed;
    before, m := moves[..|moves| - 1], moves[|moves| - 1];
    RunWellFormed(job, w, before);
    assert moves == before + [m] && moves[..|before|] == before && moves[..|before| + 1] == moves;
  }

  lemma {:induction false} RunTraced(job: Job, w: World, moves: seq<Move>)
    requires Run(job, w, moves).Some?
    ensures FromRun(job, w, moves, Run(job, w, moves).value)
    decreases |moves|
  {
    if moves == [] {
      assert forall i: nat :: Safety.CellOf(Init(w), i).None?;
    } else {
      var before, m := LastOfRun(job, w, moves);
      hide Run, FromRun, LastMove;
      RunTraced(job, w, before);
      MoveKeeps(job, w, before, m, Run(job, w, before).value, Run(job, w, moves).value);
    }
  }

  /** In every state of every interleaving each result is the one its tool returned in
      the run, or the refusal that its own call met. */
  lemma ResultsSourced(job: Job, w: World, moves: seq<Move>)
    requires Run(job, w, moves).Some?
    ensures AllSourced(job, w, moves, Run(job, w, moves).value.results)
  {
    hide Run, AllSourced, CellsTraced, PendingTraced;
    RunTraced(job, w, moves);
  }

  // ------------------------------------------------------------------
  // What every move leaves
  // ------------------------------------------------------------------

  /** Admission: a call that cannot be resolved leaves the world alone; otherwise the
      gate and the hooks act. A refusal waits to be announced, and a call that passed
      joins the window or executes. */
  ghost predicate AdmissionLeaves(job: Job, s: State, t: State)
    requires s.next < |job.calls|
  {
    var (env, tc) := (job.env, job.calls[s.next]);
    && (|| (t.world == s.world && exists args, r :: Unresolved(env, tc, args, r) && Pending(t) == Some(r))
        || exists args, tool, x ::
             ResolvesTo(env, tc, args, tool, x) && Screened(env, tc, args, x, s.world, t.world, Pending(t)))
    && (Pending(t).None? ==>
          if t.phase == Exec(Waiting) then t.next == s.next
          else t.next == s.next + 1 && (t.phase.Fetch? || Safety.CellOf(t, s.next) == Some(Waiting)))
  }

  /** One step of one execution: it begins, or the tool's own step acts on the world. */
  ghost predicate WorkLeaves(job: Job, s: State, i: nat, t: State)
    requires i < |job.calls|
  {
    exists args, tool, x ::
      && ResolvesTo(job.env, job.calls[i], args, tool, x)
      && match Safety.CellOf(s, i)
         case Some(Waiting) => t.world == s.world && Safety.CellOf(t, i) == Some(Running(tool.start(args)))
         case Some(Running(local)) =>
           (match tool.step(args, local, s.world)
            case More(next, v) => t.world == v && Safety.CellOf(t, i) == Some(Running(next))
            case Return(reply, v) =>
              && t.world == v && Safety.CellOf(t, i).Some? && Safety.CellOf(t, i).value.Finished?
              && Becomes(reply, Safety.CellOf(t, i).value.result))
         case _ => false
  }

  /** An announcement: the informational hooks run on the result. */
  ghost predicate AnnouncementLeaves(job: Job, s: State, t: State) {
    && |t.results| == |s.results| + 1 <= |job.calls|
    && var (i, r) := (|s.results|, t.results[|s.results|].result);
       && Announces(job, s, i, r, t)
       && if job.env.hooks.None? then t.world == s.world
          else HooksRan(job.env.hooks.value.post, job.calls[i], r, s.world, t.world)
  }

  ghost predicate Leaves(job: Job, s: State, m: Move, t: State) {
    match m
    case AdmitMove => s.next < |job.calls| && AdmissionLeaves(job, s, t)
    case WorkMove(_) => exists i: nat :: i < |job.calls| && WorksOn(s, m, i) && WorkLeaves(job, s, i, t)
    case CollectMove => AnnouncementLeaves(job, s, t)
    case EmitMove => AnnouncementLeaves(job, s, t)
    case _ => t.world == s.world && t.results == s.results
  }

  lemma AdmittedGoesOn(job: Job, s: State, t: Screening)
    requires WindowSafe(job, s) && s.phase.Admit? && s.next < |job.calls| && t.verdict.None?
    ensures var u := Admitted(job, s, t);
            if u.phase == Exec(Waiting) then u.next == s.next
            else u.next == s.next + 1 && (u.phase.Fetch? || Safety.CellOf(u, s.next) == Some(Waiting))
  {
    hide Resolve, AdmitEvents;
  }

  lemma AdmissionIs(job: Job, s: State)
    requires WellFormed(job, s) && Enabled(job, s, AdmitMove)
    ensures AdmissionLeaves(job, s, Apply(job, s, AdmitMove))
  {
    var (env, tc) := (job.env, job.calls[s.next]);
    var t := Screen(env, tc, s.world);
    hide Resolve, Screen, Screened, Unresolved, ResolvesTo, Admitted, Pending, Safety.CellOf;
    ResolveSays(env, tc);
    ScreenSays(env, tc, s.world);
    AdmittedLaunches(job, s, t);
    AdmittedWorld(job, s, t);
    if t.verdict.None? { AdmittedGoesOn(job, s, t); }
  }

  lemma WorkIs(job: Job, s: State, k: nat)
    requires WellFormed(job, s) && Enabled(job, s, WorkMove(k))
    ensures Leaves(job, s, WorkMove(k), Apply(job, s, WorkMove(k)))
  {
    var t := Apply(job, s, WorkMove(k));
    var i := WorkShape(job, s, k, t);
    ResolveSays(job.env, job.calls[i]);
    hide Resolve, ResolvesTo, Unresolved, Safety.CellOf, Apply, Enabled, WellFormed, WorksOn;
    assert WorkLeaves(job, s, i, t);
  }

  lemma PostHooksSay(env: Env, tc: ToolCall, r: ToolResult, w: World)
    ensures if env.hooks.None? then PostHooks(env, tc, r, w) == w
            else HooksRan(env.hooks.value.post, tc, r, w, PostHooks(env, tc, r, w))
  {
    hide HooksRan, Trigger;
    if env.hooks.Some? { TriggerSays(env.hooks.value.post, tc, r, w); }
  }

  lemma AnnouncedWorld(job: Job, s: State, m: Move)
    requires WellFormed(job, s) && Enabled(job, s, m) && (m.CollectMove? || m.EmitMove?)
    ensures var t := Apply(job, s, m); var i := |s.results|;
            && |t.results| == i + 1 <= |job.calls|
            && t.world == PostHooks(job.env, job.calls[i], t.results[i].result, s.world)
  {
    hide Resolve, PostHooks;
  }

  lemma AnnouncementIs(job: Job, s: State, m: Move)
    requires WellFormed(job, s) && Enabled(job, s, m) && (m.CollectMove? || m.EmitMove?)
    ensures AnnouncementLeaves(job, s, Apply(job, s, m))
  {
    hide HooksRan, PostHooks, Apply, Enabled, WellFormed, Safety.CellOf, Pending, Resolve;
    AnnouncedWorld(job, s, m);
    var i, r;
    if m.CollectMove? { i, r := CollectAnnounces(job, s); } else { i, r := EmitAnnounces(job, s); }
    PostHooksSay(job.env, job.calls[i], r, s.world);
  }

  lemma OthersLeave(job: Job, s: State, m: Move)
    requires WellFormed(job, s) && Enabled(job, s, m) && (m.StopMove? || m.FetchMove?)
    ensures Apply(job, s, m).world == s.world && Apply(job, s, m).results == s.results
  {
    hide Resolve;
  }

  /** Every possible move of every interleaving leaves the world and the results that
      the gate, the hooks and the tools make of them. */
  lemma MoveLeaves(job: Job, w: World, s: State, m: Move)
    requires Reachable(job, w, s) && Enabled(job, s, m)
    ensures Leaves(job, s, m, Apply(job, s, m))
  {
    var moves :| Run(job, w, moves) == Some(s);
    RunWellFormed(job, w, moves);
    hide Run, Enabled, Apply, WellFormed, AnnouncementLeaves, AdmissionLeaves, WorkLeaves;
    match m
    case AdmitMove => AdmissionIs(job, s); AdmitHasCall(job, s);
    case WorkMove(k) => WorkIs(job, s, k);
    case CollectMove => AnnouncementIs(job, s, m);
    case EmitMove => AnnouncementIs(job, s, m);
    case _ => OthersLeave(job, s, m);
  }

  lemma AdmitHasCall(job: Job, s: State)
    requires Enabled(job, s, AdmitMove)
    ensures s.next < |job.calls|
  {
  }
}
