/** What every interleaving of a batch keeps, whatever the oracles do: the
    order and pairing of events, the permission barrier in front of every
    execution, and which executions can overlap. */
module SchedulerSafety {
  import opened Basics
  import opened Llm
  import opened ToolEnv
  import opened ToolScheduler

  /** The events of one kind, in order. */
  function Pick(log: seq<Event>, p: Event -> bool): seq<Event> {
    if log == [] then []
    else Pick(log[..|log| - 1], p) + (if p(log[|log| - 1]) then [log[|log| - 1]] else [])
  }

  lemma PickSnoc(log: seq<Event>, e: Event, p: Event -> bool)
    ensures Pick(log + [e], p) == Pick(log, p) + (if p(e) then [e] else [])
  {
    assert (log + [e])[..|log|] == log;
  }

  lemma {:induction false} PickConcat(a: seq<Event>, b: seq<Event>, p: Event -> bool)
    ensures Pick(a + b, p) == Pick(a, p) + Pick(b, p)
    decreases |b|
  {
    if b == [] {
      assert a + b == a;
    } else {
      var n := |b| - 1;
      PickConcat(a, b[..n], p);
      assert a + b == (a + b[..n]) + [b[n]];
      PickSnoc(a + b[..n], b[n], p);
    }
  }

  const STARTS: Event -> bool := (e: Event) => e.Started?
  const EMITS: Event -> bool := (e: Event) => e.Emitted?

  function StartEvents(n: nat): seq<Event> {
    seq(n, (i: nat) => Started(i))
  }

  function EmitEvents(results: seq<Scheduled>): seq<Event> {
    seq(|results|, (i: nat) requires i < |results| => Emitted(i, results[i].result))
  }

  /** Call i has begun executing and has not returned yet. */
  predicate Executing(log: seq<Event>, i: nat) {
    Began(i) in log && Returned(i) !in log
  }

  /** Every answer that call i needs before it may execute was given, and none against it. */
  predicate Cleared(job: Job, log: seq<Event>, i: nat)
    requires i < |job.calls|
  {
    var p := Resolve(job.env, job.calls[i]);
    && p.Ready?
    && (job.env.gate.Some? && p.execution.requiresPermission ==> Asked(i, true) in log)
    && (job.env.hooks.Some? ==> Hooked(i, false) in log)
    && Asked(i, false) !in log
    && Hooked(i, true) !in log
  }

  function CellOf(s: State, i: nat): Option<Cell> {
    if s.phase.Flush? && s.lo <= i < s.lo + |s.phase.cells| then Some(s.phase.cells[i - s.lo])
    else if s.phase.Exec? && i == s.next then Some(s.phase.cell)
    else None
  }

  /** The log says of call i what its execution's state says. */
  predicate Traced(s: State, i: nat) {
    match CellOf(s, i)
    case Some(Waiting) => Began(i) !in s.log && Returned(i) !in s.log
    case Some(Running(_)) => Began(i) in s.log && Returned(i) !in s.log
    case Some(Finished(_)) => Began(i) in s.log && Returned(i) in s.log
    case None =>
      if s.lo <= i < s.next then Began(i) !in s.log && Returned(i) !in s.log
      else Began(i) in s.log <==> Returned(i) in s.log
  }

  /** Starts and results are announced in call order, each once. */
  ghost predicate InOrder(s: State) {
    && Pick(s.log, STARTS) == StartEvents(StartedCount(s))
    && Pick(s.log, EMITS) == EmitEvents(s.results)
    && (forall e | e in s.log :: e.i < StartedCount(s))
  }

  ghost predicate AllTraced(s: State) {
    forall i: nat :: Traced(s, i)
  }

  /** Call i may still execute. */
  predicate Live(s: State, i: nat) {
    s.lo <= i < s.next || (s.phase.Exec? && i == s.next)
  }

  /** Calls that may still execute are cleared, and every execution began cleared. */
  ghost predicate AllCleared(job: Job, s: State) {
    && (forall i: nat | Live(s, i) :: i < |job.calls| && Cleared(job, s.log, i))
    && (forall i: nat | Began(i) in s.log :: i < |job.calls| && Cleared(job, s.log, i))
    && (forall p: nat | p < |s.log| && s.log[p].Began? ::
          s.log[p].i < |job.calls| && Cleared(job, s.log[..p], s.log[p].i))
  }

  ghost predicate LogInv(job: Job, s: State) {
    InOrder(s) && AllTraced(s) && AllCleared(job, s)
  }

  /** Cleared is not affected by events of other calls or of other kinds. */
  predicate Harmless(e: Event, i: nat) {
    e != Asked(i, false) && e != Hooked(i, true)
  }

  lemma ClearedExtends(job: Job, log: seq<Event>, more: seq<Event>, i: nat)
    requires i < |job.calls| && Cleared(job, log, i)
    requires forall e | e in more :: Harmless(e, i)
    ensures Cleared(job, log + more, i)
  {
    hide Resolve;
  }

  /** Appending events keeps every execution cleared if the begun ones are cleared. */
  lemma HistoryExtends(job: Job, log: seq<Event>, more: seq<Event>)
    requires forall p: nat | p < |log| && log[p].Began? :: log[p].i < |job.calls| && Cleared(job, log[..p], log[p].i)
    requires forall e | e in more && e.Began? :: more == [e] && e.i < |job.calls| && Cleared(job, log, e.i)
    ensures forall p: nat | p < |log + more| && (log + more)[p].Began? ::
              (log + more)[p].i < |job.calls| && Cleared(job, (log + more)[..p], (log + more)[p].i)
  {
    hide Cleared;
    forall p: nat | p < |log + more| && (log + more)[p].Began?
      ensures (log + more)[p].i < |job.calls| && Cleared(job, (log + more)[..p], (log + more)[p].i)
    {
      if p < |log| {
        assert (log + more)[..p] == log[..p];
      } else {
        assert (log + more)[p] in more;
        assert (log + more)[..p] == log;
      }
    }
  }

  // Flushing and continuing change no log.

  lemma GotoKeeps(job: Job, s: State, after: After)
    requires LogInv(job, s) && s.lo == s.next && (s.phase.Fetch? || s.phase.Admit?)
    requires !after.ToEmit?
    ensures LogInv(job, Goto(s, after))
  {
    hide Cleared, Pick;
    var t := Goto(s, after);
    forall i: nat ensures Traced(t, i) { assert Traced(s, i); }
  }

  lemma FlushKeeps(job: Job, s: State, after: After)
    requires LogInv(job, s) && s.lo <= s.next && (s.phase.Fetch? || s.phase.Admit?)
    requires !after.ToEmit?
    ensures LogInv(job, BeginFlush(s, after))
  {
    hide Cleared, Pick;
    if s.lo == s.next {
      GotoKeeps(job, s, after);
    } else {
      var t := BeginFlush(s, after);
      forall i: nat ensures Traced(t, i) { assert Traced(s, i); }
      forall i: nat | Live(t, i) ensures i < |job.calls| && Cleared(job, t.log, i) { assert Live(s, i); }
    }
  }

  // Admission

  lemma AdmitEventsOf(job: Job, i: nat, w: World)
    requires i < |job.calls|
    ensures var t := Screen(job.env, job.calls[i], w);
            && (t.verdict.None? ==> Cleared(job, AdmitEvents(i, t), i))
            && (forall e | e in AdmitEvents(i, t) :: e.i == i && (e.Started? || e.Asked? || e.Hooked?))
            && Pick(AdmitEvents(i, t), STARTS) == [Started(i)]
            && Pick(AdmitEvents(i, t), EMITS) == []
  {
    hide Resolve, TriggerBlock, Pick;
    AdmitPicks(i, Screen(job.env, job.calls[i], w));
  }

  lemma AdmitPicks(i: nat, t: Screening)
    ensures Pick(AdmitEvents(i, t), STARTS) == [Started(i)] && Pick(AdmitEvents(i, t), EMITS) == []
  {
    var a: seq<Event> := if t.asked.Some? then [Asked(i, t.asked.value)] else [];
    var h: seq<Event> := if t.hooked.Some? then [Hooked(i, t.hooked.value)] else [];
    PickConcat([Started(i)] + a, h, STARTS);
    PickConcat([Started(i)], a, STARTS);
    PickConcat([Started(i)] + a, h, EMITS);
    PickConcat([Started(i)], a, EMITS);
  }

  /** What announcing and screening call s.next does to a state, as far as the log goes. */
  ghost predicate Admits(job: Job, s: State, more: seq<Event>, t: State) {
    && s.phase.Admit? && t.log == s.log + more && t.results == s.results
    && StartedCount(t) == s.next + 1 == StartedCount(s) + 1
    && t.lo == s.lo
    && (forall j: nat | Live(t, j) && j != s.next :: Live(s, j))
    && (Live(t, s.next) ==> s.next < |job.calls| && Cleared(job, more, s.next))
    && (forall j: nat | CellOf(t, j).Some? :: CellOf(t, j).value.Waiting? && (s.lo <= j < s.next || j == s.next))
  }

  lemma AdmittedAdmits(job: Job, s: State, t: Screening)
    requires WellFormed(job, s) && s.phase.Admit?
    requires t.verdict.None? ==> Cleared(job, AdmitEvents(s.next, t), s.next)
    ensures Admits(job, s, AdmitEvents(s.next, t), Admitted(job, s, t))
  {
    hide Resolve, Cleared, Pick, AdmitEvents;
  }

  lemma AdmitAdmits(job: Job, s: State)
    requires WellFormed(job, s) && Enabled(job, s, AdmitMove)
    ensures Admits(job, s, AdmitEvents(s.next, Screen(job.env, job.calls[s.next], s.world)), Apply(job, s, AdmitMove))
  {
    AdmitEventsOf(job, s.next, s.world);
    hide Resolve, Screen, Cleared, Pick, AdmitEvents, Admitted, Admits;
    AdmittedAdmits(job, s, Screen(job.env, job.calls[s.next], s.world));
  }

  lemma AdmitInOrder(job: Job, s: State, more: seq<Event>, t: State)
    requires InOrder(s) && Admits(job, s, more, t)
    requires Pick(more, STARTS) == [Started(s.next)] && Pick(more, EMITS) == []
    requires forall e | e in more :: e.i == s.next
    ensures InOrder(t)
  {
    PickConcat(s.log, more, STARTS);
    PickConcat(s.log, more, EMITS);
    hide Cleared, Pick, CellOf;
    assert StartEvents(s.next + 1) == StartEvents(s.next) + [Started(s.next)];
  }

  lemma AdmitTraced(job: Job, s: State, more: seq<Event>, t: State)
    requires InOrder(s) && AllTraced(s) && Admits(job, s, more, t)
    requires forall e | e in more :: e.Started? || e.Asked? || e.Hooked?
    ensures AllTraced(t)
  {
    hide Cleared, Pick;
    forall i: nat ensures Traced(t, i) {
      assert Traced(s, i);
      assert Began(i) in t.log <==> Began(i) in s.log;
      assert Returned(i) in t.log <==> Returned(i) in s.log;
    }
  }

  lemma AdmitCleared(job: Job, s: State, more: seq<Event>, t: State)
    requires InOrder(s) && AllCleared(job, s) && Admits(job, s, more, t)
    requires forall e | e in more :: e.i == s.next && (e.Started? || e.Asked? || e.Hooked?)
    ensures AllCleared(job, t)
  {
    hide Pick, CellOf;
    if Live(t, s.next) {
      assert forall e | e in s.log :: e.i < s.next;
      assert Cleared(job, t.log, s.next) by { hide Resolve; }
    }
    hide Cleared;
    HistoryExtends(job, s.log, more);
    forall i: nat | (Live(t, i) && i != s.next) || Began(i) in t.log
      ensures i < |job.calls| && Cleared(job, t.log, i)
    {
      assert Live(s, i) || Began(i) in s.log;
      ClearedExtends(job, s.log, more, i);
    }
  }

  lemma AdmitKeeps(job: Job, s: State)
    requires WellFormed(job, s) && LogInv(job, s) && Enabled(job, s, AdmitMove)
    ensures LogInv(job, Apply(job, s, AdmitMove))
  {
    var more := AdmitEvents(s.next, Screen(job.env, job.calls[s.next], s.world));
    var t := Apply(job, s, AdmitMove);
    AdmitEventsOf(job, s.next, s.world);
    AdmitAdmits(job, s);
    hide Cleared, Pick, Resolve, Screen, Apply, AdmitEvents, Admits, InOrder, AllTraced, AllCleared;
    AdmitInOrder(job, s, more, t);
    AdmitTraced(job, s, more, t);
    AdmitCleared(job, s, more, t);
  }

  // Work

  /** What one step of call i's execution does to a state, as far as the log goes. */
  ghost predicate Works(s: State, i: nat, more: seq<Event>, t: State) {
    && CellOf(s, i).Some? && CellOf(t, i).Some?
    && (if CellOf(s, i).value.Waiting? then CellOf(t, i).value.Running? && more == [Began(i)]
        else CellOf(s, i).value.Running?
             && (if CellOf(t, i).value.Finished? then more == [Returned(i)] else CellOf(t, i).value.Running? && more == []))
    && (forall j: nat | j != i :: CellOf(t, j) == CellOf(s, j))
    && t.log == s.log + more
    && StartedCount(t) == StartedCount(s) && t.results == s.results
    && t.lo == s.lo && t.next == s.next && Live(s, i)
    && (forall j: nat :: Live(t, j) <==> Live(s, j))
    && i < StartedCount(s)
  }

  lemma WorkWorks(job: Job, s: State, k: nat) returns (i: nat, more: seq<Event>)
    requires WellFormed(job, s) && Enabled(job, s, WorkMove(k))
    ensures Works(s, i, more, Apply(job, s, WorkMove(k)))
  {
    hide Resolve;
    var t := Apply(job, s, WorkMove(k));
    i := if s.phase.Flush? then s.lo + k else s.next;
    more := WorkEvents(i, CellOf(s, i).value, CellOf(t, i).value);
  }

  lemma WorkTraced(s: State, i: nat, more: seq<Event>, t: State)
    requires AllTraced(s) && Works(s, i, more, t)
    ensures AllTraced(t)
  {
    hide Pick, CellOf;
    forall j: nat ensures Traced(t, j) {
      assert Traced(s, j);
    }
  }

  lemma WorkCleared(job: Job, s: State, i: nat, more: seq<Event>, t: State)
    requires AllCleared(job, s) && Works(s, i, more, t)
    ensures AllCleared(job, t)
  {
    hide Cleared, Pick, CellOf, Live;
    HistoryExtends(job, s.log, more);
    forall j: nat | Live(t, j) || Began(j) in t.log
      ensures j < |job.calls| && Cleared(job, t.log, j)
    {
      ClearedExtends(job, s.log, more, j);
    }
  }

  lemma WorkInOrder(s: State, i: nat, more: seq<Event>, t: State)
    requires InOrder(s) && Works(s, i, more, t)
    ensures InOrder(t)
  {
    if more != [] {
      PickSnoc(s.log, more[0], STARTS);
      PickSnoc(s.log, more[0], EMITS);
    } else {
      assert s.log + more == s.log;
    }
    hide Pick, CellOf, Live;
  }

  lemma WorkKeeps(job: Job, s: State, k: nat)
    requires WellFormed(job, s) && LogInv(job, s) && Enabled(job, s, WorkMove(k))
    ensures LogInv(job, Apply(job, s, WorkMove(k)))
  {
    var i, more := WorkWorks(job, s, k);
    hide Works, InOrder, AllTraced, AllCleared, Apply, Enabled, WellFormed;
    WorkInOrder(s, i, more, Apply(job, s, WorkMove(k)));
    WorkTraced(s, i, more, Apply(job, s, WorkMove(k)));
    WorkCleared(job, s, i, more, Apply(job, s, WorkMove(k)));
  }

  // Results

  /** What emitting call i's result does to a state, as far as the log goes. */
  ghost predicate Emits(s: State, i: nat, r: ToolResult, t: State) {
    && i == |s.results| < StartedCount(s)
    && t.log == s.log + [Emitted(i, r)]
    && |t.results| == i + 1 && t.results[..i] == s.results && t.results[i].result == r
    && StartedCount(t) == StartedCount(s)
    && (forall j: nat | Live(t, j) :: Live(s, j))
    && (forall j: nat :: Traced(s, j) ==> Traced(t.(log := s.log), j))
  }

  lemma EmitInOrder(job: Job, s: State, i: nat, r: ToolResult, t: State)
    requires LogInv(job, s) && Emits(s, i, r, t)
    ensures InOrder(t)
  {
    PickSnoc(s.log, Emitted(i, r), STARTS);
    PickSnoc(s.log, Emitted(i, r), EMITS);
    hide Resolve, Cleared, Pick, Traced;
    assert EmitEvents(t.results) == EmitEvents(s.results) + [Emitted(i, r)];
  }

  lemma EmitTraced(s: State, i: nat, r: ToolResult, t: State)
    requires AllTraced(s) && Emits(s, i, r, t)
    ensures AllTraced(t)
  {
    forall j: nat ensures Traced(t, j) {
      assert Traced(s, j) && Traced(t.(log := s.log), j);
      assert CellOf(t, j) == CellOf(t.(log := s.log), j);
    }
  }

  lemma EmitKeeps(job: Job, s: State, i: nat, r: ToolResult, t: State)
    requires LogInv(job, s) && Emits(s, i, r, t)
    ensures LogInv(job, t)
  {
    hide Resolve, Cleared, Pick, Traced;
    EmitInOrder(job, s, i, r, t);
    EmitTraced(s, i, r, t);
    hide InOrder, AllTraced;
    HistoryExtends(job, s.log, [Emitted(i, r)]);
    forall j: nat | Live(t, j) || Began(j) in t.log
      ensures j < |job.calls| && Cleared(job, t.log, j)
    {
      ClearedExtends(job, s.log, [Emitted(i, r)], j);
    }
  }

  lemma CollectKeeps(job: Job, s: State)
    requires WellFormed(job, s) && LogInv(job, s) && Enabled(job, s, CollectMove)
    ensures LogInv(job, Apply(job, s, CollectMove))
  {
    hide Resolve, Cleared, Pick, PostHooks;
    var t := Apply(job, s, CollectMove);
    var i := s.lo + s.phase.collected;
    var r := s.phase.cells[s.phase.collected].result;
    forall j: nat | Traced(s, j) ensures Traced(t.(log := s.log), j) {
      if s.lo <= j < s.next { assert CellOf(s, j) == Some(s.phase.cells[j - s.lo]); }
    }
    EmitKeeps(job, s, i, r, t);
  }

  lemma EmitMoveKeeps(job: Job, s: State)
    requires WellFormed(job, s) && LogInv(job, s) && Enabled(job, s, EmitMove)
    ensures LogInv(job, Apply(job, s, EmitMove))
  {
    hide Resolve, Cleared, Pick, PostHooks;
    var t := Apply(job, s, EmitMove);
    var r := if s.phase.Emit? then s.phase.result else s.phase.cell.result;
    forall j: nat | Traced(s, j) ensures Traced(t.(log := s.log), j) { }
    EmitKeeps(job, s, s.next, r, t);
  }

  lemma StepKeeps(job: Job, s: State, m: Move)
    requires WellFormed(job, s) && LogInv(job, s) && Enabled(job, s, m)
    ensures LogInv(job, Apply(job, s, m))
  {
    match m
    case StopMove =>
      var u := s.(stopped := true);
      assert LogInv(job, u) by {
        hide Resolve, Cleared, Pick;
        forall i: nat ensures Traced(u, i) { assert Traced(s, i); }
      }
      FlushKeeps(job, u, ToEnd);
    case FetchMove =>
      if s.next == |job.calls| { FlushKeeps(job, s, ToEnd); }
      else if Concurrent(job, s.next) { FetchAdmitKeeps(job, s); }
      else { FlushKeeps(job, s, ToAdmit); }
    case AdmitMove =>
      AdmitKeeps(job, s);
    case WorkMove(k) => WorkKeeps(job, s, k);
    case CollectMove => CollectKeeps(job, s);
    case EmitMove => EmitMoveKeeps(job, s);
  }

  lemma FetchAdmitKeeps(job: Job, s: State)
    requires LogInv(job, s) && s.phase.Fetch?
    ensures LogInv(job, Goto(s, ToAdmit))
  {
    hide Cleared, Pick;
    var t := Goto(s, ToAdmit);
    forall i: nat ensures Traced(t, i) { assert Traced(s, i); }
    forall i: nat | Live(t, i) ensures i < |job.calls| && Cleared(job, t.log, i) { assert Live(s, i); }
  }

  lemma {:induction false} RunKeeps(job: Job, w: World, moves: seq<Move>)
    requires Run(job, w, moves).Some?
    ensures WellFormed(job, Run(job, w, moves).value) && LogInv(job, Run(job, w, moves).value)
    decreases |moves|
  {
    if moves != [] {
      var n := |moves| - 1;
      RunKeeps(job, w, moves[..n]);
      hide Cleared, Pick, Resolve, LogInv, WellFormed, Apply;
      StepWellFormed(job, Run(job, w, moves[..n]).value, moves[n]);
      StepKeeps(job, Run(job, w, moves[..n]).value, moves[n]);
    }
  }

  // ------------------------------------------------------------------
  // Main statements, about every state of every interleaving
  // ------------------------------------------------------------------

  /** Every started call gets exactly one result event, in call order, and the
      results returned are the ones announced. At most max(1, limit) started
      calls are without a result, and none when the batch has ended. */
  lemma ResultsInOrder(job: Job, w: World, s: State)
    requires Reachable(job, w, s)
    ensures Pick(s.log, STARTS) == StartEvents(StartedCount(s))
    ensures Pick(s.log, EMITS) == EmitEvents(s.results)
    ensures forall j | 0 <= j < |s.results| :: j < |job.calls| && s.results[j].call == job.calls[j]
    ensures |s.results| <= StartedCount(s) <= |s.results| + Max(1, job.limit)
    ensures s.phase.Done? ==> StartedCount(s) == |s.results|
    ensures s.phase.Done? && !s.stopped ==> |s.results| == |job.calls|
  {
    var moves :| Run(job, w, moves) == Some(s);
    RunKeeps(job, w, moves);
    hide Cleared, Pick, Resolve, Run;
  }

  /** Executions i < j overlap only inside one window: every call from i to j is
      concurrency-safe and cleared, and fewer than maxConcurrentTools apart. */
  lemma OverlapOnlyInWindow(job: Job, w: World, s: State, i: nat, j: nat)
    requires Reachable(job, w, s) && i < j && Executing(s.log, i) && Executing(s.log, j)
    ensures j < |job.calls| && j - i < job.limit
    ensures forall k | i <= k <= j :: Concurrent(job, k) && Cleared(job, s.log, k)
  {
    var moves :| Run(job, w, moves) == Some(s);
    RunKeeps(job, w, moves);
    hide Cleared, Pick, Resolve, Run;
    assert Traced(s, i) && Traced(s, j);
    assert CellOf(s, i).Some? && CellOf(s, j).Some?;
  }

  /** With a limit of 1 or less no two executions ever overlap. */
  lemma SerialLimit(job: Job, w: World, s: State, i: nat, j: nat)
    requires Reachable(job, w, s) && job.limit <= 1
    requires Executing(s.log, i) && Executing(s.log, j)
    ensures i == j
  {
    if i < j { OverlapOnlyInWindow(job, w, s, i, j); }
    if j < i { OverlapOnlyInWindow(job, w, s, j, i); }
  }

  /** When an execution begins, the gate has already allowed that very call if it
      needs permission, a hook engine has already let it pass, and no answer
      against it is given before or after. */
  lemma PermissionBeforeExecution(job: Job, w: World, s: State, p: nat)
    requires Reachable(job, w, s) && p < |s.log| && s.log[p].Began?
    ensures var i := s.log[p].i;
            && i < |job.calls|
            && Cleared(job, s.log[..p], i)
            && Asked(i, false) !in s.log && Hooked(i, true) !in s.log
  {
    var moves :| Run(job, w, moves) == Some(s);
    RunKeeps(job, w, moves);
    hide Pick, Resolve, Run;
    assert s.log[p] == Began(s.log[p].i);
  }

  /** The gate answered the question about call i at some admission of the run. */
  ghost predicate AnsweredAt(job: Job, w: World, moves: seq<Move>, k: nat, i: nat, allowed: bool) {
    && k < |moves| && i < |job.calls|
    && Run(job, w, moves[..k]).Some? && moves[k] == AdmitMove
    && var u := Run(job, w, moves[..k]).value;
       u.next == i && Screen(job.env, job.calls[i], u.world).asked == Some(allowed)
  }

  lemma LogGrowsBy(job: Job, s: State, m: Move, e: Event)
    requires Enabled(job, s, m) && e.Asked? && e in Apply(job, s, m).log && e !in s.log
    ensures m == AdmitMove && e.i == s.next < |job.calls|
    ensures Screen(job.env, job.calls[s.next], s.world).asked == Some(e.allowed)
  {
    hide Resolve, Screen, PostHooks, Work;
  }

  lemma {:induction false} FindAdmission(job: Job, w: World, moves: seq<Move>, i: nat, allowed: bool) returns (k: nat)
    requires Run(job, w, moves).Some? && Asked(i, allowed) in Run(job, w, moves).value.log
    ensures AnsweredAt(job, w, moves, k, i, allowed)
    decreases |moves|
  {
    var n := |moves| - 1;
    var s := Run(job, w, moves[..n]).value;
    hide Resolve, Screen, Apply, Enabled;
    if Asked(i, allowed) in s.log {
      k := FindAdmission(job, w, moves[..n], i, allowed);
      assert moves[..n][..k] == moves[..k];
    } else {
      LogGrowsBy(job, s, moves[n], Asked(i, allowed));
      k := n;
    }
  }

  /** The gate's own rule: in Manual and Auto mode it lets a call that needs
      permission pass only when a callback is installed and said yes. */
  lemma GateRule(env: Env, tc: ToolCall, w: World)
    requires env.gate.Some? && Screen(env, tc, w).asked == Some(true)
    ensures var g := env.gate.value; var p := Resolve(env, tc);
            && p.Ready? && p.execution.requiresPermission
            && (g.mode == Yolo || (g.callback.Some? && g.callback.value(tc.name, p.args, p.execution.description, w).0))
  {
    hide TriggerBlock;
  }

  /** At move k the approval callback was asked about call i with its own arguments and said yes. */
  ghost predicate ApprovedAt(job: Job, w: World, moves: seq<Move>, k: nat, i: nat) {
    && AnsweredAt(job, w, moves, k, i, true)
    && var p := Resolve(job.env, job.calls[i]);
       && p.Ready? && job.env.gate.Some? && job.env.gate.value.callback.Some?
       && job.env.gate.value.callback.value(
            job.calls[i].name, p.args, p.execution.description, Run(job, w, moves[..k]).value.world).0
  }

  /** In Manual or Auto mode a call that needs permission begins executing only
      if, earlier in the run, the approval callback said yes to it. */
  lemma ApprovalBehindExecution(job: Job, w: World, moves: seq<Move>, i: nat)
    requires Run(job, w, moves).Some? && Began(i) in Run(job, w, moves).value.log
    requires job.env.gate.Some? && job.env.gate.value.mode != Yolo
    ensures i < |job.calls| && Resolve(job.env, job.calls[i]).Ready?
    ensures Resolve(job.env, job.calls[i]).execution.requiresPermission ==>
              exists k: nat :: ApprovedAt(job, w, moves, k, i)
  {
    RunKeeps(job, w, moves);
    assert Cleared(job, Run(job, w, moves).value.log, i);
    hide Resolve, Screen, Run, LogInv, WellFormed;
    if Resolve(job.env, job.calls[i]).execution.requiresPermission {
      var k := FindAdmission(job, w, moves, i, true);
      GateRule(job.env, job.calls[i], Run(job, w, moves[..k]).value.world);
      assert ApprovedAt(job, w, moves, k, i);
    }
  }

  // ------------------------------------------------------------------
  // Concurrency happens
  // ------------------------------------------------------------------

  /** No more calls than may run at once, all of them concurrency-safe, and none refused. */
  ghost predicate AllMayRun(job: Job) {
    && 0 < |job.calls| <= job.limit && 1 < job.limit
    && (forall i | 0 <= i < |job.calls| ::
          Resolve(job.env, job.calls[i]).Ready? && Resolve(job.env, job.calls[i]).execution.canRunConcurrently)
    && (forall i, v: World | 0 <= i < |job.calls| :: Screen(job.env, job.calls[i], v).verdict.None?)
  }

  /** One more call joins the window. */
  lemma Joins(job: Job, w: World, moves: seq<Move>, s: State) returns (more: seq<Move>, t: State)
    requires AllMayRun(job) && Run(job, w, moves) == Some(s)
    requires s.phase.Fetch? && s.lo == 0 && s.next < |job.calls|
    ensures Run(job, w, more) == Some(t) && t.next == s.next + 1 && t.lo == 0
    ensures if t.next < job.limit then t.phase.Fetch? else t.phase == Flush(seq(t.next, _ => Waiting), 0, ToFetch)
  {
    hide Resolve, Screen, AdmitEvents, Run;
    assert Concurrent(job, s.next);
    RunStep(job, w, moves, FetchMove);
    var u := Apply(job, s, FetchMove);
    RunStep(job, w, moves + [FetchMove], AdmitMove);
    more, t := moves + [FetchMove] + [AdmitMove], Apply(job, u, AdmitMove);
  }

  /** The window grows up to n calls. */
  lemma {:induction false} WindowGrows(job: Job, w: World, n: nat) returns (moves: seq<Move>, s: State)
    requires AllMayRun(job) && n <= |job.calls| && n < job.limit
    ensures Run(job, w, moves) == Some(s) && s.phase.Fetch? && s.lo == 0 && s.next == n
    decreases n
  {
    if n == 0 {
      moves, s := [], Init(w);
    } else {
      hide AllMayRun, Run;
      moves, s := WindowGrows(job, w, n - 1);
      assert |job.calls| > n - 1;
      moves, s := Joins(job, w, moves, s);
    }
  }

  lemma AllLaunched(job: Job, w: World) returns (moves: seq<Move>, s: State)
    requires AllMayRun(job)
    ensures Run(job, w, moves) == Some(s) && s.phase.Flush? && s.lo == 0 && s.next == |job.calls|
    ensures s.phase.cells == seq(|job.calls|, _ => Waiting)
  {
    hide Run, Resolve, Screen;
    if |job.calls| < job.limit {
      moves, s := WindowGrows(job, w, |job.calls|);
      RunStep(job, w, moves, FetchMove);
      moves, s := moves + [FetchMove], Apply(job, s, FetchMove);
    } else {
      moves, s := WindowGrows(job, w, job.limit - 1);
      moves, s := Joins(job, w, moves, s);
    }
  }

  lemma BeginsNext(job: Job, w: World, moves: seq<Move>, s: State, k: nat)
    requires AllMayRun(job) && Run(job, w, moves) == Some(s) && s.phase.Flush? && s.lo == 0 && s.next == |job.calls|
    requires k < |s.phase.cells| == |job.calls| && s.phase.cells[k].Waiting?
    ensures Run(job, w, moves + [WorkMove(k)]).Some?
    ensures var t := Run(job, w, moves + [WorkMove(k)]).value;
            && t.phase.Flush? && t.lo == 0 && t.next == s.next && |t.phase.cells| == |job.calls| && t.phase.cells[k].Running?
            && forall i | 0 <= i < |job.calls| && i != k :: t.phase.cells[i] == s.phase.cells[i]
  {
    hide Run, Resolve, Screen;
    RunStep(job, w, moves, WorkMove(k));
  }

  lemma {:induction false} FirstBegin(job: Job, w: World, k: nat) returns (moves: seq<Move>, s: State)
    requires AllMayRun(job) && k <= |job.calls|
    ensures Run(job, w, moves) == Some(s) && s.phase.Flush? && s.lo == 0 && s.next == |job.calls| == |s.phase.cells|
    ensures forall i | 0 <= i < |job.calls| :: if i < k then s.phase.cells[i].Running? else s.phase.cells[i].Waiting?
    decreases k
  {
    hide AllMayRun, Run;
    if k == 0 {
      moves, s := AllLaunched(job, w);
    } else {
      moves, s := FirstBegin(job, w, k - 1);
      BeginsNext(job, w, moves, s, k - 1);
      moves := moves + [WorkMove(k - 1)];
      s := Run(job, w, moves).value;
    }
  }

  /** Calls that may all run at once can be executing all at once. */
  lemma AllTogether(job: Job, w: World) returns (s: State)
    requires AllMayRun(job)
    ensures Reachable(job, w, s) && forall i | 0 <= i < |job.calls| :: Executing(s.log, i)
  {
    hide AllMayRun, Run;
    var moves;
    moves, s := FirstBegin(job, w, |job.calls|);
    RunKeeps(job, w, moves);
    hide Cleared, Pick, WellFormed;
    forall i | 0 <= i < |job.calls| ensures Executing(s.log, i) {
      assert Traced(s, i);
    }
  }
}
