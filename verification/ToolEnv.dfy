/** The oracles a batch of tool calls meets: argument parsing, tools, the
    permission gate and the hooks. The world they act on has three parts: the
    files the tools see, the state of whoever answers approvals and runs the
    pre-tool hooks, and the state that the informational hooks leave behind. */
module ToolEnv {
  import opened Basics
  import opened JsonValues
  import opened Llm

  datatype World = World(files: map<string, string>, approver: seq<string>, observers: seq<string>)

  datatype Execution = Execution(description: string, requiresPermission: bool, canRunConcurrently: bool)

  /** What a tool has read and computed so far; private to one execution. */
  type Local = seq<string>

  /** How an execution ends: a result, an error status, or an exception. */
  datatype Reply = Success(result: ToolResult) | Failure(message: string) | Threw(what: string) | ThrewUnknown

  /** One step of an execution: it goes on with new local state, or returns. */
  datatype Outcome = More(local: Local, world: World) | Return(reply: Reply, world: World)

  datatype Tool = Tool(
    name: string,
    resolve: Json -> Result<Execution, string>,
    start: Json -> Local,
    step: (Json, Local, World) -> Outcome)

  datatype PermissionMode = Manual | Auto | Yolo

  datatype Gate = Gate(
    mode: PermissionMode,
    callback: Option<(string, Json, string, World) -> (bool, World)>)

  /** RunOne's outcome. A hook that cannot run, times out or exits non-zero has failed. */
  datatype HookOutcome = HookFailed | HookAllow | HookBlock(reason: string)

  datatype PreHook = PreHook(
    matches: string -> bool,
    run: (ToolCall, Json, World) -> (HookOutcome, World))

  datatype PostHook = PostHook(
    matches: (bool, string) -> bool,
    run: (ToolCall, ToolResult, World) -> World)

  /** hooks is None when no hook engine is installed. */
  datatype Hooks = Hooks(pre: seq<PreHook>, post: seq<PostHook>)

  datatype Env = Env(
    parse: string -> Result<Json, string>,
    tools: seq<Tool>,
    gate: Option<Gate>,
    hooks: Option<Hooks>)

  function FindTool(tools: seq<Tool>, name: string): Option<Tool> {
    if tools == [] then None
    else if tools[0].name == name then Some(tools[0])
    else FindTool(tools[1..], name)
  }

  datatype Prepared =
    | Refused(args: Json, result: ToolResult)
    | Ready(args: Json, tool: Tool, execution: Execution)

  /** Empty arguments are not parsed and stand for JSON null. */
  function Resolve(env: Env, tc: ToolCall): Prepared {
    var parsed := if tc.arguments == "" then Ok(JNull) else env.parse(tc.arguments);
    if parsed.Err? then
      Refused(JObj(map[]), ToolResult("invalid tool arguments: " + parsed.error, true))
    else
      var found := FindTool(env.tools, tc.name);
      if found.None? then
        Refused(parsed.value, ToolResult("tool '" + tc.name + "' not found", true))
      else
        match found.value.resolve(parsed.value)
        case Err(message) => Refused(parsed.value, ToolResult(message, true))
        case Ok(execution) => Ready(parsed.value, found.value, execution)
  }

  /** PermissionGate::ShouldRun. Auto is treated as Manual; a missing callback denies. */
  function ShouldRun(gate: Gate, needed: bool, name: string, args: Json, description: string, w: World): (bool, World) {
    if !needed then (true, w)
    else if gate.mode == Yolo then (true, w)
    else match gate.callback
      case None => (false, w)
      case Some(ask) => ask(name, args, description, w)
  }

  /** HookEngine::TriggerBlock: the first matching hook that blocks decides;
      failed hooks and explicit allows fall through to the next one. */
  function TriggerBlock(hooks: seq<PreHook>, tc: ToolCall, args: Json, w: World): (Option<string>, World)
    decreases |hooks|
  {
    if hooks == [] then (None, w)
    else if !hooks[0].matches(tc.name) then TriggerBlock(hooks[1..], tc, args, w)
    else
      var (outcome, w') := hooks[0].run(tc, args, w);
      match outcome
      case HookBlock(reason) => (Some(reason), w')
      case _ => TriggerBlock(hooks[1..], tc, args, w')
  }

  function Trigger(hooks: seq<PostHook>, tc: ToolCall, r: ToolResult, w: World): World
    decreases |hooks|
  {
    if hooks == [] then w
    else if !hooks[0].matches(r.isError, tc.name) then Trigger(hooks[1..], tc, r, w)
    else Trigger(hooks[1..], tc, r, hooks[0].run(tc, r, w))
  }

  /** What screening one call found: the answers it was given, and the error
      result that stops it from executing, if any. */
  datatype Screening = Screening(
    asked: Option<bool>, hooked: Option<bool>,
    verdict: Option<ToolResult>, world: World)

  /** ApplyPermissionAndPreHook on a resolved call. */
  function Screen(env: Env, tc: ToolCall, w: World): (t: Screening)
    ensures t.verdict.None? ==> Resolve(env, tc).Ready?
  {
    match Resolve(env, tc)
    case Refused(_, result) => Screening(None, None, Some(result), w)
    case Ready(args, _, x) =>
      if env.gate.Some? && x.requiresPermission then
        var (allowed, w') := ShouldRun(env.gate.value, true, tc.name, args, x.description, w);
        if !allowed then
          Screening(Some(false), None, Some(ToolResult("permission denied for tool '" + tc.name + "'", true)), w')
        else
          ScreenHooks(env, tc, args, Some(true), w')
      else
        ScreenHooks(env, tc, args, None, w)
  }

  function ScreenHooks(env: Env, tc: ToolCall, args: Json, asked: Option<bool>, w: World): Screening {
    match env.hooks
    case None => Screening(asked, None, None, w)
    case Some(hooks) =>
      var (block, w') := TriggerBlock(hooks.pre, tc, args, w);
      match block
      case None => Screening(asked, Some(false), None, w')
      case Some(reason) =>
        var shown := if reason == "" then "blocked by hook" else reason;
        Screening(asked, Some(true), Some(ToolResult("blocked by hook: " + shown, true)), w')
  }

  /** EmitPostToolHook. */
  function PostHooks(env: Env, tc: ToolCall, r: ToolResult, w: World): World {
    match env.hooks
    case None => w
    case Some(hooks) => Trigger(hooks.post, tc, r, w)
  }

  /** One execution as seen from outside. */
  datatype Cell = Waiting | Running(local: Local) | Finished(result: ToolResult)

  /** ExecutePreparedTool turns error statuses and exceptions into error results. */
  function ResultOf(reply: Reply): ToolResult {
    match reply
    case Success(result) => result
    case Failure(message) => ToolResult(message, true)
    case Threw(what) => ToolResult("tool threw exception: " + what, true)
    case ThrewUnknown => ToolResult("tool threw unknown exception", true)
  }

  /** The next step of an execution. Beginning is a step of its own. */
  function Work(env: Env, tc: ToolCall, cell: Cell, w: World): (Cell, World)
    requires Resolve(env, tc).Ready?
  {
    var p := Resolve(env, tc);
    match cell
    case Waiting => (Running(p.tool.start(p.args)), w)
    case Finished(_) => (cell, w)
    case Running(local) =>
      match p.tool.step(p.args, local, w)
      case More(local', w') => (Running(local'), w')
      case Return(reply, w') => (Finished(ResultOf(reply)), w')
  }

  /** A failing hook never blocks, and a blocked call names the first matching
      hook that blocked it. */
  lemma {:induction false} BlockComesFromAHook(hooks: seq<PreHook>, tc: ToolCall, args: Json, w: World)
    ensures TriggerBlock(hooks, tc, args, w).0.Some? <==>
            exists i: nat, v: World ::
              i < |hooks| && hooks[i].matches(tc.name) && TriggerBlock(hooks[..i], tc, args, w) == (None, v)
              && hooks[i].run(tc, args, v).0.HookBlock?
              && Some(hooks[i].run(tc, args, v).0.reason) == TriggerBlock(hooks, tc, args, w).0
  {
    forall i: nat, v: World | i < |hooks| && hooks[i].matches(tc.name)
                              && TriggerBlock(hooks[..i], tc, args, w) == (None, v) && hooks[i].run(tc, args, v).0.HookBlock?
      ensures TriggerBlock(hooks, tc, args, w).0 == Some(hooks[i].run(tc, args, v).0.reason)
    {
      BlockAt(hooks, tc, args, w, i, v);
    }
    if TriggerBlock(hooks, tc, args, w).0.Some? {
      var i, v := FindBlocker(hooks, tc, args, w);
    }
  }

  lemma {:induction false} BlockAt(hooks: seq<PreHook>, tc: ToolCall, args: Json, w: World, i: nat, v: World)
    requires i < |hooks| && hooks[i].matches(tc.name)
    requires TriggerBlock(hooks[..i], tc, args, w) == (None, v) && hooks[i].run(tc, args, v).0.HookBlock?
    ensures TriggerBlock(hooks, tc, args, w).0 == Some(hooks[i].run(tc, args, v).0.reason)
    decreases i
  {
    if i > 0 {
      assert hooks[..i][1..] == hooks[1..][..i - 1];
      var w' := if hooks[0].matches(tc.name) then hooks[0].run(tc, args, w).1 else w;
      BlockAt(hooks[1..], tc, args, w', i - 1, v);
    }
  }

  lemma {:induction false} FindBlocker(hooks: seq<PreHook>, tc: ToolCall, args: Json, w: World) returns (i: nat, v: World)
    requires TriggerBlock(hooks, tc, args, w).0.Some?
    ensures i < |hooks| && hooks[i].matches(tc.name)
    ensures TriggerBlock(hooks[..i], tc, args, w) == (None, v)
    ensures hooks[i].run(tc, args, v).0.HookBlock?
    ensures Some(hooks[i].run(tc, args, v).0.reason) == TriggerBlock(hooks, tc, args, w).0
    decreases |hooks|
  {
    var matched := hooks[0].matches(tc.name);
    if matched && hooks[0].run(tc, args, w).0.HookBlock? {
      i, v := 0, w;
    } else {
      var w' := if matched then hooks[0].run(tc, args, w).1 else w;
      i, v := FindBlocker(hooks[1..], tc, args, w');
      i := i + 1;
      assert hooks[..i][1..] == hooks[1..][..i - 1];
    }
  }
}
