/** Admission of one call, step by step: the call is resolved, the permission
    gate is asked, the blocking hooks run. */
module Gatekeeper {
  import opened Basics
  import opened JsonValues
  import opened Llm
  import opened ToolEnv

  class PermissionGate {
    const gate: Gate
    /** Auto mode warns once and is Manual mode otherwise. */
    var autoWarned: bool

    constructor (gate: Gate)
      ensures this.gate == gate && !autoWarned
    {
      this.gate, autoWarned := gate, false;
    }

    method ShouldRun(needed: bool, name: string, args: Json, description: string, w: World)
      returns (allowed: bool, w': World, warned: bool)
      modifies this`autoWarned
      ensures (allowed, w') == ToolEnv.ShouldRun(gate, needed, name, args, description, w)
      ensures warned == (needed && gate.mode == Auto && !old(autoWarned))
      ensures autoWarned == (old(autoWarned) || warned)
    {
      w', warned := w, false;
      if !needed { return true, w', warned; }
      var effective := gate.mode;
      if effective == Auto {
        if !autoWarned {
          autoWarned, warned := true, true;
        }
        effective := Manual;
      }
      if effective == Yolo { return true, w', warned; }
      if gate.callback.None? { return false, w', warned; }
      var answer := gate.callback.value(name, args, description, w);
      allowed, w' := answer.0, answer.1;
    }
  }

  /** HookEngine::TriggerBlock. */
  method RunPreHooks(hooks: seq<PreHook>, tc: ToolCall, args: Json, w: World) returns (block: Option<string>, w': World)
    ensures (block, w') == TriggerBlock(hooks, tc, args, w)
  {
    w' := w;
    assert hooks[0..] == hooks;
    for i := 0 to |hooks|
      invariant TriggerBlock(hooks, tc, args, w) == TriggerBlock(hooks[i..], tc, args, w')
    {
      assert hooks[i..][0] == hooks[i] && hooks[i..][1..] == hooks[i + 1..];
      if !hooks[i].matches(tc.name) { continue; }
      var ran := hooks[i].run(tc, args, w');
      w' := ran.1;
      if ran.0.HookBlock? { return Some(ran.0.reason), w'; }
    }
    block := None;
  }

  /** HookEngine::Trigger, of which only the effects on the world are kept. */
  method RunPostHooks(hooks: seq<PostHook>, tc: ToolCall, r: ToolResult, w: World) returns (w': World)
    ensures w' == Trigger(hooks, tc, r, w)
  {
    w' := w;
    assert hooks[0..] == hooks;
    for i := 0 to |hooks|
      invariant Trigger(hooks, tc, r, w) == Trigger(hooks[i..], tc, r, w')
    {
      assert hooks[i..][0] == hooks[i] && hooks[i..][1..] == hooks[i + 1..];
      if !hooks[i].matches(r.isError, tc.name) { continue; }
      w' := hooks[i].run(tc, r, w');
    }
  }

  class PreparedToolCall {
    const call: ToolCall
    var args: Json
    var execution: Option<Execution>
    var result: ToolResult
    var hasResult: bool

    /** The fields hold what resolution found. */
    ghost predicate Holds(p: Prepared)
      reads this
    {
      match p
      case Refused(a, r) => hasResult && result == r && args == a
      case Ready(a, _, x) => !hasResult && execution == Some(x) && args == a
    }

    /** ResolveToolCall. */
    constructor (tc: ToolCall, env: Env)
      ensures call == tc && Holds(Resolve(env, tc))
    {
      call := tc;
      args, execution, result, hasResult := JNull, None, ToolResult("", false), false;
      new;
      if tc.arguments != "" {
        var parsed := env.parse(tc.arguments);
        if parsed.Err? {
          result, hasResult, args := ToolResult("invalid tool arguments: " + parsed.error, true), true, JObj(map[]);
          return;
        }
        args := parsed.value;
      }
      var tool := FindTool(env.tools, tc.name);
      if tool.None? {
        result, hasResult := ToolResult("tool '" + tc.name + "' not found", true), true;
        return;
      }
      var resolution := tool.value.resolve(args);
      if resolution.Err? {
        result, hasResult := ToolResult(resolution.error, true), true;
        return;
      }
      execution := Some(resolution.value);
    }

    /** ApplyPermissionAndPreHook: what the gate and the hooks answered, and the
        error result if the call may not run. */
    method ApplyPermissionAndPreHook(env: Env, gate: PermissionGate?, w: World)
      returns (asked: Option<bool>, hooked: Option<bool>, w': World)
      requires Holds(Resolve(env, call)) && env.gate == if gate == null then None else Some(gate.gate)
      modifies this, gate
      ensures Screen(env, call, w) == Screening(asked, hooked, if hasResult then Some(result) else None, w')
      ensures args == old(args) && execution == old(execution)
    {
      hide Resolve, ToolEnv.ShouldRun, TriggerBlock;
      asked, hooked, w' := None, None, w;
      if hasResult { return; }
      if gate != null && execution.value.requiresPermission {
        var allowed, warned;
        allowed, w', warned := gate.ShouldRun(true, call.name, args, execution.value.description, w);
        asked := Some(allowed);
        if !allowed {
          result, hasResult := ToolResult("permission denied for tool '" + call.name + "'", true), true;
          return;
        }
      }
      if env.hooks.Some? {
        var block;
        block, w' := RunPreHooks(env.hooks.value.pre, call, args, w');
        hooked := Some(block.Some?);
        if block.Some? {
          var reason := if block.value == "" then "blocked by hook" else block.value;
          result, hasResult := ToolResult("blocked by hook: " + reason, true), true;
        }
      }
    }
  }
}
