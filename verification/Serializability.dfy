/** Every interleaving of a batch gives the results and the final world of
    running its calls one by one, when executions, screenings and informational
    hooks each keep to their own part of the world and concurrency-safe tools
    only read. */
module Serializability {
  import opened Basics
  import opened Llm
  import opened ToolEnv
  import opened ToolScheduler

  // ------------------------------------------------------------------
  // The sequential reference
  // ------------------------------------------------------------------

  /** The first n steps of one undisturbed execution. */
  function Iterate(env: Env, tc: ToolCall, n: nat, w: World): (Cell, World)
    requires Resolve(env, tc).Ready?
  {
    if n == 0 then (Waiting, w)
    else
      var (cell, v) := Iterate(env, tc, n - 1, w);
      Work(env, tc, cell, v)
  }

  /** Screen one call and, if it passes, execute it alone; None if that takes more than fuel steps. */
  function Settle(env: Env, tc: ToolCall, fuel: nat, w: World): Option<(ToolResult, World)> {
    var t := Screen(env, tc, w);
    if t.verdict.Some? then Some((t.verdict.value, t.world))
    else
      var (cell, v) := Iterate(env, tc, fuel, t.world);
      if cell.Finished? then Some((cell.result, v)) else None
  }

  /** The calls one by one, each with its informational hooks before the next. */
  function Sequential(env: Env, calls: seq<ToolCall>, fuel: nat, w: World): Option<(seq<Scheduled>, World)> {
    if calls == [] then Some(([], w))
    else
      var n := |calls| - 1;
      var before := Sequential(env, calls[..n], fuel, w);
      if before.None? then None
      else
        var one := Settle(env, calls[n], fuel, before.value.1);
        if one.None? then None
        else
          var r := one.value.0;
          Some((before.value.0 + [Scheduled(calls[n], Resolve(env, calls[n]).args, r)],
                PostHooks(env, calls[n], r, one.value.1)))
  }

  lemma {:induction false} IterateStays(env: Env, tc: ToolCall, n: nat, m: nat, w: World)
    requires Resolve(env, tc).Ready? && n <= m && Iterate(env, tc, n, w).0.Finished?
    ensures Iterate(env, tc, m, w) == Iterate(env, tc, n, w)
    decreases m - n
  {
    if n < m {
      hide Resolve;
      IterateStays(env, tc, n, m - 1, w);
    }
  }

  lemma {:induction false} MoreFuel(env: Env, calls: seq<ToolCall>, f: nat, g: nat, w: World)
    requires f <= g && Sequential(env, calls, f, w).Some?
    ensures Sequential(env, calls, g, w) == Sequential(env, calls, f, w)
    decreases |calls|
  {
    if calls != [] {
      var n := |calls| - 1;
      MoreFuel(env, calls[..n], f, g, w);
      var v := Sequential(env, calls[..n], f, w).value.1;
      hide Resolve, Work;
      if Screen(env, calls[n], v).verdict.None? {
        IterateStays(env, calls[n], f, g, Screen(env, calls[n], v).world);
      }
    }
  }

  /** The sequential outcome does not depend on the fuel that found it. */
  lemma OneSequentialOutcome(env: Env, calls: seq<ToolCall>, f: nat, g: nat, w: World)
    requires Sequential(env, calls, f, w).Some? && Sequential(env, calls, g, w).Some?
    ensures Sequential(env, calls, f, w) == Sequential(env, calls, g, w)
  {
    MoreFuel(env, calls, f, Max(f, g), w);
    MoreFuel(env, calls, g, Max(f, g), w);
  }

  lemma SequentialSnoc(env: Env, calls: seq<ToolCall>, i: nat, fuel: nat, w: World)
    requires i < |calls| && Sequential(env, calls[..i], fuel, w).Some?
    ensures var v := Sequential(env, calls[..i], fuel, w).value.1;
            var one := Settle(env, calls[i], fuel, v);
            one.Some? ==>
              (Sequential(env, calls[..i + 1], fuel, w) ==
                Some((Sequential(env, calls[..i], fuel, w).value.0 + [Scheduled(calls[i], Resolve(env, calls[i]).args, one.value.0)],
                      PostHooks(env, calls[i], one.value.0, one.value.1))))
  {
    assert calls[..i + 1][..i] == calls[..i];
    hide Resolve, Settle, PostHooks;
  }

  // ------------------------------------------------------------------
  // What is assumed of the oracles
  // ------------------------------------------------------------------

  /** Approvals and pre-tool hooks act on, and depend on, the approver part only. */
  ghost predicate ScreeningSeparate(env: Env) {
    && (forall tc, w :: var t := Screen(env, tc, w); t.world.files == w.files && t.world.observers == w.observers)
    && (forall tc, v: World, w: World | v.approver == w.approver ::
          && Screen(env, tc, v).verdict == Screen(env, tc, w).verdict
          && Screen(env, tc, v).world.approver == Screen(env, tc, w).world.approver)
  }

  /** Informational hooks act on, and depend on, the observers part only. */
  ghost predicate HooksSeparate(env: Env) {
    && (forall tc, r, w :: var u := PostHooks(env, tc, r, w); u.files == w.files && u.approver == w.approver)
    && (forall tc, r, v: World, w: World | v.observers == w.observers ::
          PostHooks(env, tc, r, v).observers == PostHooks(env, tc, r, w).observers)
  }

  /** Executions act on, and depend on, the files only. */
  ghost predicate ToolsSeparate(env: Env) {
    && (forall tc, cell, w | Resolve(env, tc).Ready? ::
          var u := Work(env, tc, cell, w).1; u.approver == w.approver && u.observers == w.observers)
    && (forall tc, cell, v: World, w: World | Resolve(env, tc).Ready? && v.files == w.files ::
          && Work(env, tc, cell, v).0 == Work(env, tc, cell, w).0
          && Work(env, tc, cell, v).1.files == Work(env, tc, cell, w).1.files)
  }

  /** An execution that resolved as concurrency-safe changes no file. */
  ghost predicate SafeToolsRead(env: Env) {
    forall tc, cell, w | Resolve(env, tc).Ready? && Resolve(env, tc).execution.canRunConcurrently ::
      Work(env, tc, cell, w).1.files == w.files
  }

  ghost predicate Separate(env: Env) {
    ScreeningSeparate(env) && HooksSeparate(env) && ToolsSeparate(env) && SafeToolsRead(env)
  }

  lemma {:induction false} IterateLocal(env: Env, tc: ToolCall, n: nat, v: World, w: World)
    requires Separate(env) && Resolve(env, tc).Ready? && v.files == w.files
    ensures Iterate(env, tc, n, v).0 == Iterate(env, tc, n, w).0
    ensures Iterate(env, tc, n, v).1.files == Iterate(env, tc, n, w).1.files
    ensures Iterate(env, tc, n, w).1.approver == w.approver && Iterate(env, tc, n, w).1.observers == w.observers
  {
    hide Resolve, Work, ScreeningSeparate, HooksSeparate;
    if n > 0 { IterateLocal(env, tc, n - 1, v, w); }
  }

  lemma {:induction false} IterateReads(env: Env, tc: ToolCall, n: nat, w: World)
    requires Separate(env) && Resolve(env, tc).Ready? && Resolve(env, tc).execution.canRunConcurrently
    ensures Iterate(env, tc, n, w).1 == w
  {
    hide Resolve, Work, ScreeningSeparate, HooksSeparate;
    if n > 0 { IterateReads(env, tc, n - 1, w); }
  }

  // ------------------------------------------------------------------
  // Calls that have been screened but not executed yet
  // ------------------------------------------------------------------

  function Vet(env: Env, calls: seq<ToolCall>, w: World): World {
    if calls == [] then w
    else Screen(env, calls[|calls| - 1], Vet(env, calls[..|calls| - 1], w)).world
  }

  /** Every call passes the screening, asked in order. */
  predicate AllPass(env: Env, calls: seq<ToolCall>, w: World) {
    calls == [] ||
    (var n := |calls| - 1;
     AllPass(env, calls[..n], w) && Screen(env, calls[n], Vet(env, calls[..n], w)).verdict.None?)
  }

  lemma VetSnoc(env: Env, calls: seq<ToolCall>, tc: ToolCall, w: World)
    ensures Vet(env, calls + [tc], w) == Screen(env, tc, Vet(env, calls, w)).world
    ensures AllPass(env, calls + [tc], w) <==> AllPass(env, calls, w) && Screen(env, tc, Vet(env, calls, w)).verdict.None?
  {
    assert (calls + [tc])[..|calls|] == calls;
    hide Screen;
  }

  lemma {:induction false} VetLocal(env: Env, calls: seq<ToolCall>, v: World, w: World)
    requires Separate(env) && v.approver == w.approver
    ensures Vet(env, calls, v).approver == Vet(env, calls, w).approver
    ensures AllPass(env, calls, v) <==> AllPass(env, calls, w)
    ensures Vet(env, calls, w).files == w.files && Vet(env, calls, w).observers == w.observers
    decreases |calls|
  {
    hide Screen, HooksSeparate, ToolsSeparate, SafeToolsRead;
    if calls != [] { VetLocal(env, calls[..|calls| - 1], v, w); }
  }

  /** Take the first call off a vetted window. */
  lemma {:induction false} VetCons(env: Env, calls: seq<ToolCall>, w: World)
    requires Separate(env) && calls != []
    ensures Vet(env, calls, w) == Vet(env, calls[1..], Screen(env, calls[0], w).world)
    ensures AllPass(env, calls, w) <==>
              Screen(env, calls[0], w).verdict.None? && AllPass(env, calls[1..], Screen(env, calls[0], w).world)
    decreases |calls|
  {
    hide Screen, HooksSeparate, ToolsSeparate, SafeToolsRead, ScreeningSeparate;
    var n := |calls| - 1;
    if n > 0 {
      VetCons(env, calls[..n], w);
      assert calls[..n][1..] == calls[1..][..n - 1];
    } else {
      assert Vet(env, calls[..0], w) == w;
    }
  }

  // ------------------------------------------------------------------
  // The invariant of a run
  // ------------------------------------------------------------------

  /** The calls that are screened and wait for their result. */
  function Window(job: Job, s: State): seq<ToolCall>
    requires |s.results| <= s.next <= |job.calls|
  {
    job.calls[|s.results|..s.next]
  }

  /** cell is what an execution of tc on w's files has reached after some number of steps. */
  ghost predicate Reached(env: Env, tc: ToolCall, cell: Cell, w: World) {
    Resolve(env, tc).Ready? && exists n: nat :: Iterate(env, tc, n, w).0 == cell
  }

  ghost predicate CellsReached(job: Job, s: State)
    requires s.next <= |job.calls|
  {
    s.phase.Flush? ==>
      forall k | s.phase.collected <= k < |s.phase.cells| && s.lo + k < s.next ::
        Reached(job.env, job.calls[s.lo + k], s.phase.cells[k], s.world)
  }

  /** The answers given so far, seen from the world v in which the first
      |s.results| calls have run one by one. */
  ghost predicate Answered(job: Job, s: State, v: World)
    requires |s.results| <= s.next <= |job.calls|
  {
    var env := job.env;
    var u := Vet(env, Window(job, s), v);
    && AllPass(env, Window(job, s), v)
    && match s.phase
       case Exec(cell) =>
         s.next < |job.calls| && Resolve(env, job.calls[s.next]).Ready? && Screen(env, job.calls[s.next], v).verdict.None?
         && exists n: nat :: Iterate(env, job.calls[s.next], n, Screen(env, job.calls[s.next], v).world) == (cell, s.world)
       case Emit(r) =>
         s.next < |job.calls| && Screen(env, job.calls[s.next], v).verdict == Some(r)
         && s.world == Screen(env, job.calls[s.next], v).world
       case Flush(_, _, ToEmit(r)) =>
         s.next < |job.calls| && Screen(env, job.calls[s.next], u).verdict == Some(r)
         && s.world == v.(approver := Screen(env, job.calls[s.next], u).world.approver)
       case _ => s.world == v.(approver := u.approver)
  }

  ghost predicate Follows(job: Job, w0: World, s: State, fuel: nat, v: World) {
    && WellFormed(job, s)
    && Sequential(job.env, job.calls[..|s.results|], fuel, w0) == Some((s.results, v))
    && Answered(job, s, v)
    && CellsReached(job, s)
  }

  lemma EmptyWindow(job: Job, s: State)
    requires |s.results| == s.next <= |job.calls|
    ensures Window(job, s) == []
  {
  }

  /** Launching the window, or going on at once when it is empty. */
  lemma FlushFollows(job: Job, w0: World, s: State, after: After, fuel: nat, v: World)
    requires Separate(job.env) && Follows(job, w0, s, fuel, v) && (s.phase.Fetch? || s.phase.Admit?)
    requires !after.ToEmit? && WellFormed(job, BeginFlush(s, after))
    ensures Follows(job, w0, BeginFlush(s, after), fuel, v)
  {
    hide Resolve, Screen, Sequential, Separate, Vet, AllPass;
    var t := BeginFlush(s, after);
    assert Window(job, t) == Window(job, s);
    WaitingReached(job, t);
  }

  lemma WaitingReached(job: Job, t: State)
    requires WellFormed(job, t) && (t.phase.Flush? ==> forall k | 0 <= k < |t.phase.cells| :: t.phase.cells[k].Waiting?)
    ensures CellsReached(job, t)
  {
    hide Resolve;
    if t.phase.Flush? {
      forall k | t.phase.collected <= k < |t.phase.cells| && t.lo + k < t.next
        ensures Reached(job.env, job.calls[t.lo + k], t.phase.cells[k], t.world)
      {
        assert Concurrent(job, t.lo + k);
        assert Iterate(job.env, job.calls[t.lo + k], 0, t.world).0 == Waiting;
      }
    }
  }

  lemma AdmitFollows(job: Job, w0: World, s: State, fuel: nat, v: World)
    requires Separate(job.env) && Follows(job, w0, s, fuel, v) && Enabled(job, s, AdmitMove)
    ensures Follows(job, w0, Apply(job, s, AdmitMove), fuel, v)
  {
    hide Resolve, Screen, Sequential, Separate, Vet, AllPass, Concurrent, Window, WellFormed, Admitted;
    var env, tc := job.env, job.calls[s.next];
    StepWellFormed(job, s, AdmitMove);
    AdmitWorld(job, w0, s, fuel, v);
    ScreenAgain(env, tc, s.world, Vet(env, Window(job, s), v));
    var scr := Screen(env, tc, s.world);
    if scr.verdict.Some? {
      AdmitRefused(job, w0, s, scr, fuel, v);
    } else if Concurrent(job, s.next) {
      AdmitWaiting(job, w0, s, scr, fuel, v);
    } else {
      AdmitAlone(job, w0, s, scr, fuel, v);
    }
  }

  lemma AdmitWorld(job: Job, w0: World, s: State, fuel: nat, v: World)
    requires Follows(job, w0, s, fuel, v) && s.phase.Admit?
    ensures |s.results| <= s.next <= |job.calls| && s.world.approver == Vet(job.env, Window(job, s), v).approver
  {
    hide Sequential, Vet, AllPass, Window;
  }

  /** A call that runs by itself is admitted with no call waiting. */
  lemma AdmitAlone(job: Job, w0: World, s: State, scr: Screening, fuel: nat, v: World)
    requires Follows(job, w0, s, fuel, v) && s.phase.Admit? && s.next < |job.calls| && !Concurrent(job, s.next)
    requires scr == Screen(job.env, job.calls[s.next], s.world) && scr.verdict.None?
    requires WellFormed(job, Admitted(job, s, scr))
    ensures Follows(job, w0, Admitted(job, s, scr), fuel, v)
  {
    var t := Admitted(job, s, scr);
    hide Resolve, Screen, Sequential, AdmitEvents;
    EmptyWindow(job, s);
    EmptyWindow(job, t);
    assert Vet(job.env, [], v) == v;
    assert Iterate(job.env, job.calls[s.next], 0, scr.world) == (Waiting, t.world);
    hide Iterate, Vet, AllPass, Window;
  }

  lemma ScreenAgain(env: Env, tc: ToolCall, w: World, u: World)
    requires Separate(env) && w.approver == u.approver
    ensures Screen(env, tc, w).verdict == Screen(env, tc, u).verdict
    ensures Screen(env, tc, w).world == w.(approver := Screen(env, tc, u).world.approver)
  {
    hide Screen, HooksSeparate, ToolsSeparate, SafeToolsRead;
  }

  lemma AdmitRefused(job: Job, w0: World, s: State, scr: Screening, fuel: nat, v: World)
    requires Separate(job.env) && Follows(job, w0, s, fuel, v) && s.phase.Admit? && scr.verdict.Some?
    requires WellFormed(job, Admitted(job, s, scr))
    requires var u := Vet(job.env, Window(job, s), v); var t := Screen(job.env, job.calls[s.next], u);
             t.verdict == scr.verdict && scr.world == s.world.(approver := t.world.approver)
    ensures Follows(job, w0, Admitted(job, s, scr), fuel, v)
  {
    var t := Admitted(job, s, scr);
    assert Window(job, t) == Window(job, s);
    WaitingReached(job, t);
    if s.lo == s.next {
      EmptyWindow(job, s);
      ScreenAgain(job.env, job.calls[s.next], v, v);
    }
    hide Resolve, Screen, Sequential, Separate, AdmitEvents;
  }

  lemma WindowGrows(job: Job, s: State, t: State, v: World)
    requires |s.results| <= s.next < |job.calls| && Answered(job, s, v) && s.phase.Admit?
    requires t.results == s.results && t.next == s.next + 1
    requires t.phase.Fetch? || (t.phase.Flush? && t.phase.after.ToFetch?)
    requires var scr := Screen(job.env, job.calls[s.next], Vet(job.env, Window(job, s), v));
             scr.verdict.None? && t.world == s.world.(approver := scr.world.approver)
    ensures Answered(job, t, v)
  {
    assert Window(job, t) == Window(job, s) + [job.calls[s.next]];
    VetSnoc(job.env, Window(job, s), job.calls[s.next], v);
    hide Resolve, Screen, Vet, AllPass, Window;
  }

  lemma AdmitWaiting(job: Job, w0: World, s: State, scr: Screening, fuel: nat, v: World)
    requires Separate(job.env) && Follows(job, w0, s, fuel, v) && s.phase.Admit? && scr.verdict.None?
    requires Concurrent(job, s.next) && WellFormed(job, Admitted(job, s, scr))
    requires var u := Vet(job.env, Window(job, s), v); var t := Screen(job.env, job.calls[s.next], u);
             t.verdict == scr.verdict && scr.world == s.world.(approver := t.world.approver)
    ensures Follows(job, w0, Admitted(job, s, scr), fuel, v)
  {
    hide Resolve, Screen, Sequential, Separate, AdmitEvents, Vet, AllPass, Answered, Window;
    var t := Admitted(job, s, scr);
    WaitingReached(job, t);
    WindowGrows(job, s, t, v);
  }

  // Executing

  lemma ReachedStep(env: Env, tc: ToolCall, cell: Cell, w: World)
    requires Separate(env) && Reached(env, tc, cell, w) && Resolve(env, tc).execution.canRunConcurrently
    ensures Reached(env, tc, Work(env, tc, cell, w).0, w)
    ensures Work(env, tc, cell, w).1 == w
  {
    var n: nat :| Iterate(env, tc, n, w).0 == cell;
    IterateReads(env, tc, n, w);
    IterateReads(env, tc, n + 1, w);
    hide Resolve, Work, Separate;
    assert Iterate(env, tc, n + 1, w) == Work(env, tc, cell, w);
  }

  lemma WorkReaches(job: Job, s: State, k: nat)
    requires Separate(job.env) && WellFormed(job, s) && CellsReached(job, s) && Enabled(job, s, WorkMove(k)) && s.phase.Flush?
    ensures CellsReached(job, Apply(job, s, WorkMove(k))) && Apply(job, s, WorkMove(k)).world == s.world
  {
    hide Resolve, Separate, Reached, Work;
    assert Concurrent(job, s.lo + k);
    assert Reached(job.env, job.calls[s.lo + k], s.phase.cells[k], s.world);
    hide WellFormed;
    ReachedStep(job.env, job.calls[s.lo + k], s.phase.cells[k], s.world);
  }

  lemma WorkInWindow(job: Job, w0: World, s: State, k: nat, fuel: nat, v: World)
    requires Separate(job.env) && Follows(job, w0, s, fuel, v) && Enabled(job, s, WorkMove(k)) && s.phase.Flush?
    ensures Follows(job, w0, Apply(job, s, WorkMove(k)), fuel, v)
  {
    StepWellFormed(job, s, WorkMove(k));
    WorkReaches(job, s, k);
    var t := Apply(job, s, WorkMove(k));
    hide Resolve, Screen, Sequential, Separate, Work, CellsReached, WellFormed;
    assert Window(job, t) == Window(job, s);
  }

  lemma WorkAlone(job: Job, w0: World, s: State, fuel: nat, v: World)
    requires Separate(job.env) && Follows(job, w0, s, fuel, v) && Enabled(job, s, WorkMove(0)) && s.phase.Exec?
    ensures Follows(job, w0, Apply(job, s, WorkMove(0)), fuel, v)
  {
    StepWellFormed(job, s, WorkMove(0));
    var t := Apply(job, s, WorkMove(0));
    var tc := job.calls[s.next];
    var u := Screen(job.env, tc, v).world;
    var n: nat :| Iterate(job.env, tc, n, u) == (s.phase.cell, s.world);
    hide Resolve, Screen, Sequential, Separate, Work;
    assert Iterate(job.env, tc, n + 1, u) == Work(job.env, tc, s.phase.cell, s.world);
    assert Window(job, t) == Window(job, s);
  }

  // Results

  /** The next call of the sequential run, once more fuel is allowed for it. */
  lemma SequentialNext(job: Job, w0: World, s: State, fuel: nat, n: nat, v: World, r: ToolResult, u: World)
      returns (g: nat)
    requires |s.results| < |job.calls|
    requires Sequential(job.env, job.calls[..|s.results|], fuel, w0) == Some((s.results, v))
    requires Settle(job.env, job.calls[|s.results|], n, v) == Some((r, u))
    ensures var i := |s.results|; var tc := job.calls[i];
            Sequential(job.env, job.calls[..i + 1], g, w0) ==
              Some((s.results + [Scheduled(tc, Resolve(job.env, tc).args, r)], PostHooks(job.env, tc, r, u)))
  {
    var i := |s.results|;
    g := Max(fuel, n);
    MoreFuel(job.env, job.calls[..i], fuel, g, w0);
    SettleMore(job.env, job.calls[i], n, g, v);
    hide Resolve, Settle, PostHooks, Sequential;
    SequentialSnoc(job.env, job.calls, i, g, w0);
  }

  lemma SettleMore(env: Env, tc: ToolCall, n: nat, g: nat, v: World)
    requires n <= g && Settle(env, tc, n, v).Some?
    ensures Settle(env, tc, g, v) == Settle(env, tc, n, v)
  {
    hide Resolve, Work, Screen;
    if Screen(env, tc, v).verdict.None? {
      IterateStays(env, tc, n, g, Screen(env, tc, v).world);
    }
  }

  /** A finished execution of the window's first call settles it as it would alone. */
  lemma SettlesAs(env: Env, tc: ToolCall, v: World, w: World, r: ToolResult) returns (n: nat)
    requires Separate(env) && Screen(env, tc, v).verdict.None? && w.files == v.files
    requires Resolve(env, tc).Ready? && Resolve(env, tc).execution.canRunConcurrently
    requires Reached(env, tc, Finished(r), w)
    ensures Settle(env, tc, n, v) == Some((r, Screen(env, tc, v).world))
  {
    n :| Iterate(env, tc, n, w).0 == Finished(r);
    var u := Screen(env, tc, v).world;
    assert u.files == v.files by { hide Screen, Resolve; }
    IterateLocal(env, tc, n, w, u);
    IterateReads(env, tc, n, u);
    hide Resolve, Work, Screen, Separate, Iterate;
  }

  lemma PostAgain(env: Env, tc: ToolCall, r: ToolResult, u: World, w: World)
    requires Separate(env) && u.observers == w.observers && u.files == w.files
    ensures PostHooks(env, tc, r, w) == PostHooks(env, tc, r, u).(approver := w.approver)
    ensures PostHooks(env, tc, r, u).approver == u.approver && PostHooks(env, tc, r, u).files == u.files
  {
    hide PostHooks, ScreeningSeparate, ToolsSeparate, SafeToolsRead;
  }

  lemma ReachedLocal(env: Env, tc: ToolCall, cell: Cell, v: World, w: World)
    requires Separate(env) && Reached(env, tc, cell, v) && v.files == w.files
    ensures Reached(env, tc, cell, w)
  {
    var n: nat :| Iterate(env, tc, n, v).0 == cell;
    IterateLocal(env, tc, n, v, w);
  }

  /** Where the main thread is after a result was collected. */
  ghost predicate Continues(job: Job, s: State, t: State) {
    && s.phase.Flush? && t.next == s.next <= |job.calls|
    && |t.results| == |s.results| + 1 <= s.next
    && (if t.phase.Flush? then t.phase.after == s.phase.after
        else |t.results| == s.next && t.phase == Goto(s, s.phase.after).phase)
  }

  /** The first call of a vetted window passes, and the rest is vetted as before. */
  lemma WindowRest(env: Env, win: seq<ToolCall>, v: World, v': World)
    requires Separate(env) && win != [] && AllPass(env, win, v)
    requires v'.approver == Screen(env, win[0], v).world.approver
    ensures Screen(env, win[0], v).verdict.None? && AllPass(env, win[1..], v')
    ensures Vet(env, win[1..], v').approver == Vet(env, win, v).approver
  {
    hide Screen, Vet, AllPass, Separate;
    VetCons(env, win, v);
    VetLocal(env, win[1..], Screen(env, win[0], v).world, v');
  }

  /** A refused call behind the window is refused alike after a collection. */
  lemma RefusalStays(job: Job, s: State, t: State, v: World, v': World, r: ToolResult)
    requires Separate(job.env) && |s.results| <= s.next == t.next < |job.calls| && |t.results| <= t.next
    requires var (tc, u, u') := (job.calls[s.next], Vet(job.env, Window(job, s), v), Vet(job.env, Window(job, t), v'));
             && u.approver == u'.approver && Screen(job.env, tc, u).verdict == Some(r)
             && t.world == v'.(approver := Screen(job.env, tc, u).world.approver)
    requires AllPass(job.env, Window(job, t), v')
    requires (t.phase.Flush? && t.phase.after == ToEmit(r)) || (t.phase == Emit(r) && |t.results| == t.next)
    ensures Answered(job, t, v')
  {
    hide Resolve, Screen, Separate, AllPass;
    var (tc, u, u') := (job.calls[s.next], Vet(job.env, Window(job, s), v), Vet(job.env, Window(job, t), v'));
    ScreenAgain(job.env, tc, u, u');
    if t.phase.Emit? {
      EmptyWindow(job, t);
      assert u' == v';
      ScreenAgain(job.env, tc, v', v');
    }
    hide Vet, Window;
  }

  lemma CollectAnswered(job: Job, s: State, t: State, v: World, v': World)
    requires Separate(job.env) && Continues(job, s, t) && Answered(job, s, v)
    requires v'.approver == Screen(job.env, job.calls[|s.results|], v).world.approver
    requires t.world == v'.(approver := s.world.approver)
    ensures Answered(job, t, v') && Screen(job.env, job.calls[|s.results|], v).verdict.None?
    ensures s.world.files == v.files && s.world.observers == v.observers
  {
    hide Resolve, Screen, Separate, Vet, AllPass;
    var win := Window(job, s);
    assert win[0] == job.calls[|s.results|] && Window(job, t) == win[1..];
    hide Window;
    WindowRest(job.env, win, v, v');
    if s.phase.after.ToEmit? { RefusalStays(job, s, t, v, v', s.phase.after.result); }
  }

  lemma LaterReached(job: Job, s: State, t: State)
    requires Separate(job.env) && s.next == t.next <= |job.calls| && CellsReached(job, s)
    requires s.phase.Flush? && t.world.files == s.world.files && t.lo == s.lo
    requires t.phase.Flush? && t.phase.cells == s.phase.cells && t.phase.collected >= s.phase.collected
    ensures CellsReached(job, t)
  {
    hide Resolve, Separate, Reached;
    forall k | t.phase.collected <= k < |t.phase.cells| && t.lo + k < t.next
      ensures Reached(job.env, job.calls[t.lo + k], t.phase.cells[k], t.world)
    {
      ReachedLocal(job.env, job.calls[s.lo + k], s.phase.cells[k], s.world, t.world);
    }
  }

  lemma CollectReached(job: Job, s: State)
    requires Separate(job.env) && WellFormed(job, s) && CellsReached(job, s) && Enabled(job, s, CollectMove)
    requires Apply(job, s, CollectMove).world.files == s.world.files
    ensures CellsReached(job, Apply(job, s, CollectMove))
  {
    var t := Apply(job, s, CollectMove);
    hide Resolve, Separate, PostHooks, Reached;
    if t.phase.Flush? {
      hide CellsReached;
      LaterReached(job, s, t);
    }
  }

  /** What collecting does to the results and the world. */
  ghost predicate CollectShape(job: Job, s: State, t: State)
    requires s.phase.Flush? && s.phase.collected < |s.phase.cells| && s.phase.cells[s.phase.collected].Finished?
  {
    var i := |s.results|; var r := s.phase.cells[s.phase.collected].result;
    && Continues(job, s, t) && i == s.lo + s.phase.collected && i < |job.calls| && Concurrent(job, i)
    && t.results == s.results + [Scheduled(job.calls[i], Resolve(job.env, job.calls[i]).args, r)]
    && t.world == PostHooks(job.env, job.calls[i], r, s.world)
  }

  lemma CollectContinues(job: Job, s: State)
    requires WellFormed(job, s) && Enabled(job, s, CollectMove)
    ensures CollectShape(job, s, Apply(job, s, CollectMove))
  {
    hide Resolve, PostHooks;
  }

  /** The call to collect has settled in the sequential run too. */
  lemma CollectSettles(job: Job, w0: World, s: State, fuel: nat, v: World) returns (n: nat, v': World)
    requires Separate(job.env) && Follows(job, w0, s, fuel, v) && Enabled(job, s, CollectMove)
    requires CollectShape(job, s, Apply(job, s, CollectMove))
    ensures var t := Apply(job, s, CollectMove);
            var tc := job.calls[|s.results|]; var r := s.phase.cells[s.phase.collected].result;
            && Answered(job, t, v') && CellsReached(job, t)
            && v' == PostHooks(job.env, tc, r, Screen(job.env, tc, v).world)
            && Settle(job.env, tc, n, v) == Some((r, Screen(job.env, tc, v).world))
  {
    var t := Apply(job, s, CollectMove);
    var tc := job.calls[|s.results|];
    var r := s.phase.cells[s.phase.collected].result;
    var v1 := Screen(job.env, tc, v).world;
    v' := PostHooks(job.env, tc, r, v1);
    ScreenAgain(job.env, tc, v, v);
    assert s.world.files == v.files && s.world.observers == v.observers;
    PostAgain(job.env, tc, r, v1, s.world);
    CollectAnswered(job, s, t, v, v');
    CollectReached(job, s);
    assert Reached(job.env, tc, Finished(r), s.world);
    hide Resolve, Screen, PostHooks, Sequential, Separate, Settle, Answered, CellsReached, Reached, Apply, WellFormed;
    n := SettlesAs(job.env, tc, v, s.world, r);
  }

  lemma CollectFollows(job: Job, w0: World, s: State, fuel: nat, v: World) returns (g: nat, v': World)
    requires Separate(job.env) && Follows(job, w0, s, fuel, v) && Enabled(job, s, CollectMove)
    ensures Follows(job, w0, Apply(job, s, CollectMove), g, v')
  {
    hide Resolve, Screen, PostHooks, Sequential, Separate, Settle, Answered, CellsReached, Apply, WellFormed;
    StepWellFormed(job, s, CollectMove);
    CollectContinues(job, s);
    var n;
    n, v' := CollectSettles(job, w0, s, fuel, v);
    var r := s.phase.cells[s.phase.collected].result;
    g := SequentialNext(job, w0, s, fuel, n, v, r, Screen(job.env, job.calls[|s.results|], v).world);
  }

  lemma EmitShape(job: Job, s: State)
    requires WellFormed(job, s) && Enabled(job, s, EmitMove)
    ensures var t := Apply(job, s, EmitMove);
            var i := |s.results|;
            var r := if s.phase.Emit? then s.phase.result else s.phase.cell.result;
            && i == s.next && t.phase.Fetch? && t.next == i + 1
            && t.results == s.results + [Scheduled(job.calls[i], Resolve(job.env, job.calls[i]).args, r)]
            && t.world == PostHooks(job.env, job.calls[i], r, s.world)
  {
    hide Resolve, PostHooks;
  }

  lemma EmitFollows(job: Job, w0: World, s: State, fuel: nat, v: World) returns (g: nat, v': World)
    requires Separate(job.env) && Follows(job, w0, s, fuel, v) && Enabled(job, s, EmitMove)
    ensures Follows(job, w0, Apply(job, s, EmitMove), g, v')
  {
    hide Resolve, Screen, PostHooks, Sequential, Separate, Settle, Apply, WellFormed, Answered, CellsReached;
    var t := Apply(job, s, EmitMove);
    var tc := job.calls[s.next];
    var r := if s.phase.Emit? then s.phase.result else s.phase.cell.result;
    StepWellFormed(job, s, EmitMove);
    EmitShape(job, s);
    var n := EmitSettles(job, w0, s, fuel, v);
    v' := PostHooks(job.env, tc, r, s.world);
    g := SequentialNext(job, w0, s, fuel, n, v, r, s.world);
    FetchAnswered(job, t);
  }

  /** With no call waiting for its result nothing is left to answer. */
  lemma FetchAnswered(job: Job, t: State)
    requires |t.results| == t.next <= |job.calls| && t.phase.Fetch?
    ensures Answered(job, t, t.world) && CellsReached(job, t)
  {
    hide Resolve, Screen;
    EmptyWindow(job, t);
    assert Vet(job.env, [], t.world) == t.world;
  }

  lemma EmitSettles(job: Job, w0: World, s: State, fuel: nat, v: World) returns (n: nat)
    requires Follows(job, w0, s, fuel, v) && Enabled(job, s, EmitMove)
    ensures var r := if s.phase.Emit? then s.phase.result else s.phase.cell.result;
            Settle(job.env, job.calls[s.next], n, v) == Some((r, s.world))
  {
    hide Resolve, Screen, Sequential, Iterate;
    if s.phase.Exec? {
      n :| Iterate(job.env, job.calls[s.next], n, Screen(job.env, job.calls[s.next], v).world) == (s.phase.cell, s.world);
    } else {
      n := 0;
    }
  }

  lemma StepFollows(job: Job, w0: World, s: State, m: Move, fuel: nat, v: World) returns (g: nat, v': World)
    requires Separate(job.env) && Follows(job, w0, s, fuel, v) && Enabled(job, s, m)
    ensures Follows(job, w0, Apply(job, s, m), g, v')
  {
    g, v' := fuel, v;
    StepWellFormed(job, s, m);
    match m
    case StopMove =>
      StopFollows(job, w0, s, fuel, v);
    case FetchMove =>
      FetchFollows(job, w0, s, fuel, v);
    case AdmitMove => AdmitFollows(job, w0, s, fuel, v);
    case WorkMove(k) =>
      if s.phase.Flush? { WorkInWindow(job, w0, s, k, fuel, v); } else { WorkAlone(job, w0, s, fuel, v); }
    case CollectMove => g, v' := CollectFollows(job, w0, s, fuel, v);
    case EmitMove => g, v' := EmitFollows(job, w0, s, fuel, v);
  }

  lemma StopFollows(job: Job, w0: World, s: State, fuel: nat, v: World)
    requires Separate(job.env) && Follows(job, w0, s, fuel, v) && Enabled(job, s, StopMove)
    ensures Follows(job, w0, Apply(job, s, StopMove), fuel, v)
  {
    hide Resolve, Screen, Sequential, Separate, WellFormed, Answered, CellsReached;
    StepWellFormed(job, s, StopMove);
    StoppedFollows(job, w0, s, fuel, v);
    FlushFollows(job, w0, s.(stopped := true), ToEnd, fuel, v);
  }

  lemma StoppedFollows(job: Job, w0: World, s: State, fuel: nat, v: World)
    requires Follows(job, w0, s, fuel, v) && s.phase.Fetch?
    ensures Follows(job, w0, s.(stopped := true), fuel, v)
  {
    hide Resolve, Screen, Sequential, Vet, AllPass;
    assert Window(job, s.(stopped := true)) == Window(job, s);
  }

  lemma FetchFollows(job: Job, w0: World, s: State, fuel: nat, v: World)
    requires Separate(job.env) && Follows(job, w0, s, fuel, v) && Enabled(job, s, FetchMove)
    ensures Follows(job, w0, Apply(job, s, FetchMove), fuel, v)
  {
    StepWellFormed(job, s, FetchMove);
    hide Resolve, Screen, Sequential, Separate;
    if s.next == |job.calls| { FlushFollows(job, w0, s, ToEnd, fuel, v); }
    else if Concurrent(job, s.next) { assert Window(job, Goto(s, ToAdmit)) == Window(job, s); }
    else { FlushFollows(job, w0, s, ToAdmit, fuel, v); }
  }

  lemma {:induction false} RunFollows(job: Job, w0: World, moves: seq<Move>) returns (fuel: nat, v: World)
    requires Separate(job.env) && Run(job, w0, moves).Some?
    ensures Follows(job, w0, Run(job, w0, moves).value, fuel, v)
    decreases |moves|
  {
    if moves == [] {
      fuel, v := 0, w0;
      var s := Init(w0);
      assert job.calls[..0] == [];
      EmptyWindow(job, s);
      assert Vet(job.env, [], w0) == w0;
    } else {
      var n := |moves| - 1;
      fuel, v := RunFollows(job, w0, moves[..n]);
      hide Apply, Enabled, Separate, Follows;
      fuel, v := StepFollows(job, w0, Run(job, w0, moves[..n]).value, moves[n], fuel, v);
    }
  }

  // ------------------------------------------------------------------
  // Main statements
  // ------------------------------------------------------------------

  /** Serializability. A run that has ended gives exactly what its calls give one
      by one: all of them if no stop was seen, a prefix of them otherwise. */
  lemma Serializable(job: Job, w0: World, s: State)
    requires Separate(job.env) && Reachable(job, w0, s) && s.phase.Done?
    ensures |s.results| <= |job.calls| && (!s.stopped ==> |s.results| == |job.calls|)
    ensures exists fuel: nat :: Sequential(job.env, job.calls[..|s.results|], fuel, w0) == Some((s.results, s.world))
  {
    var moves :| Run(job, w0, moves) == Some(s);
    var fuel, v := RunFollows(job, w0, moves);
    hide Resolve, Screen, Sequential, Separate, Run;
    EmptyWindow(job, s);
    assert Vet(job.env, [], v) == v;
  }

  /** Two interleavings of one batch that were not stopped end with the same
      results and in the same world. */
  lemma InterleavingsAgree(job: Job, w0: World, s: State, t: State)
    requires Separate(job.env) && Reachable(job, w0, s) && Reachable(job, w0, t)
    requires s.phase.Done? && t.phase.Done? && !s.stopped && !t.stopped
    ensures s.results == t.results && s.world == t.world
  {
    Serializable(job, w0, s);
    Serializable(job, w0, t);
    var f: nat :| Sequential(job.env, job.calls[..|s.results|], f, w0) == Some((s.results, s.world));
    var g: nat :| Sequential(job.env, job.calls[..|t.results|], g, w0) == Some((t.results, t.world));
    hide Separate, Sequential, Reachable;
    OneSequentialOutcome(job.env, job.calls[..|s.results|], f, g, w0);
  }
}
