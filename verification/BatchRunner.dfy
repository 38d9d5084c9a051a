/** RunToolCallBatch as it is written: a loop over the calls with the pending
    batch, the results and the event log as variables. Threads are modelled by
    letting any unfinished execution step next; the stop token can be set by
    someone else at any moment and stays set. Whatever is chosen, the outcome is
    that of a run of the machine. */
module BatchRunner {
  import opened Basics
  import opened Llm
  import opened ToolEnv
  import opened ToolScheduler
  import Provenance = ToolProvenance

  /** Every execution ends: rank bounds the steps it still takes. */
  ghost predicate Terminating(env: Env, rank: Local -> nat) {
    forall tc, local, w | Resolve(env, tc).Ready? ::
      var o := Work(env, tc, Running(local), w).0;
      o.Running? ==> rank(o.local) < rank(local)
  }

  ghost function CellRank(env: Env, rank: Local -> nat, tc: ToolCall, cell: Cell): nat {
    match cell
    case Finished(_) => 0
    case Running(local) => rank(local) + 1
    case Waiting =>
      var p := Resolve(env, tc);
      if p.Ready? then rank(p.tool.start(p.args)) + 2 else 0
  }

  ghost function TotalRank(env: Env, rank: Local -> nat, calls: seq<ToolCall>, cells: seq<Cell>): nat
    requires |calls| == |cells|
  {
    if cells == [] then 0
    else CellRank(env, rank, calls[0], cells[0]) + TotalRank(env, rank, calls[1..], cells[1..])
  }

  lemma WorkRanks(env: Env, rank: Local -> nat, tc: ToolCall, cell: Cell, w: World)
    requires Terminating(env, rank) && Resolve(env, tc).Ready? && !cell.Finished?
    ensures CellRank(env, rank, tc, Work(env, tc, cell, w).0) < CellRank(env, rank, tc, cell)
  {
    hide Resolve;
  }

  lemma {:induction false} TotalRankFalls(env: Env, rank: Local -> nat, calls: seq<ToolCall>, cells: seq<Cell>, k: nat, cell: Cell)
    requires k < |calls| == |cells|
    requires CellRank(env, rank, calls[k], cell) < CellRank(env, rank, calls[k], cells[k])
    ensures TotalRank(env, rank, calls, cells[k := cell]) < TotalRank(env, rank, calls, cells)
    decreases k
  {
    hide CellRank;
    if k > 0 {
      assert cells[k := cell][1..] == cells[1..][k - 1 := cell];
      TotalRankFalls(env, rank, calls[1..], cells[1..], k - 1, cell);
    } else {
      assert cells[k := cell][1..] == cells[1..];
    }
  }

  /** The machine has made these moves and stands in state t. */
  ghost predicate At(job: Job, w0: World, moves: seq<Move>, t: State) {
    Run(job, w0, moves) == Some(t) && WellFormed(job, t)
  }

  lemma Advance(job: Job, w0: World, moves: seq<Move>, t: State, m: Move)
    requires At(job, w0, moves, t) && Enabled(job, t, m)
    ensures At(job, w0, moves + [m], Apply(job, t, m))
  {
    RunStep(job, w0, moves, m);
    StepWellFormed(job, t, m);
  }

  lemma WindowReady(job: Job, w0: World, moves: seq<Move>, t: State, k: nat)
    requires At(job, w0, moves, t) && t.phase.Flush? && k < |t.phase.cells|
    ensures t.lo + k < t.next <= |job.calls| && Resolve(job.env, job.calls[t.lo + k]).Ready?
  {
    hide Run, Resolve;
    assert Concurrent(job, t.lo + k);
  }

  lemma FlushWork(job: Job, w0: World, moves: seq<Move>, t: State, k: nat, cell: Cell, w: World)
    requires At(job, w0, moves, t) && t.phase.Flush? && k < |t.phase.cells| && !t.phase.cells[k].Finished?
    requires t.lo + k < |job.calls| && Resolve(job.env, job.calls[t.lo + k]).Ready?
    requires (cell, w) == Work(job.env, job.calls[t.lo + k], t.phase.cells[k], t.world)
    ensures At(job, w0, moves + [WorkMove(k)],
               t.(phase := t.phase.(cells := t.phase.cells[k := cell]), world := w,
                  log := t.log + WorkEvents(t.lo + k, t.phase.cells[k], cell)))
  {
    hide At, Run, Resolve, Work, WellFormed;
    Standing(job, w0, moves, t);
    WorkShape(job, t, k, cell, w);
    Advance(job, w0, moves, t, WorkMove(k));
  }

  lemma Standing(job: Job, w0: World, moves: seq<Move>, t: State)
    requires At(job, w0, moves, t)
    ensures WellFormed(job, t)
  {
  }

  lemma WorkShape(job: Job, t: State, k: nat, cell: Cell, w: World)
    requires WellFormed(job, t) && t.phase.Flush? && k < |t.phase.cells| && !t.phase.cells[k].Finished?
    requires t.lo + k < |job.calls| && Resolve(job.env, job.calls[t.lo + k]).Ready?
    requires (cell, w) == Work(job.env, job.calls[t.lo + k], t.phase.cells[k], t.world)
    ensures Enabled(job, t, WorkMove(k))
    ensures Apply(job, t, WorkMove(k))
         == t.(phase := t.phase.(cells := t.phase.cells[k := cell]), world := w,
               log := t.log + WorkEvents(t.lo + k, t.phase.cells[k], cell))
  {
    hide Resolve, Work, WorkEvents;
  }

  lemma FlushCollect(job: Job, w0: World, moves: seq<Move>, t: State, t': State)
    requires At(job, w0, moves, t) && t.phase.Flush? && t.phase.cells[t.phase.collected].Finished?
    requires t.lo + t.phase.collected < |job.calls|
    requires t' == EmitOne(job, t, t.lo + t.phase.collected, t.phase.cells[t.phase.collected].result)
    ensures At(job, w0, moves + [CollectMove],
               if t.phase.collected + 1 < |t.phase.cells| then t'.(phase := t.phase.(collected := t.phase.collected + 1))
               else Goto(t'.(lo := t.next), t.phase.after))
  {
    hide At, Run, Resolve, WellFormed, EmitOne, Goto;
    Standing(job, w0, moves, t);
    CollectShape(job, t, t');
    Advance(job, w0, moves, t, CollectMove);
  }

  lemma CollectShape(job: Job, t: State, t': State)
    requires WellFormed(job, t) && t.phase.Flush? && t.phase.collected < |t.phase.cells|
    requires t.phase.cells[t.phase.collected].Finished? && t.lo + t.phase.collected < |job.calls|
    requires t' == EmitOne(job, t, t.lo + t.phase.collected, t.phase.cells[t.phase.collected].result)
    ensures Enabled(job, t, CollectMove)
    ensures Apply(job, t, CollectMove)
         == if t.phase.collected + 1 < |t.phase.cells| then t'.(phase := t.phase.(collected := t.phase.collected + 1))
            else Goto(t'.(lo := t.next), t.phase.after)
  {
    hide Resolve, Goto;
  }

  /** A non-empty batch: the executions step in any order
      while results are collected in call order. */
  method LaunchAndCollect(job: Job, w0: World, ghost rank: Local -> nat, batch: seq<ToolCall>, lo: nat,
                         results0: seq<Scheduled>, world0: World, log0: seq<Event>,
                         ghost s: State, ghost moves0: seq<Move>)
      returns (results: seq<Scheduled>, world: World, log: seq<Event>, ghost moves: seq<Move>)
    requires Terminating(job.env, rank)
    requires At(job, w0, moves0, s) && s.lo + |batch| == s.next <= |job.calls| && batch == job.calls[s.lo..s.next]
    requires s.results == results0 && s.world == world0 && s.log == log0 && s.lo == lo
    requires s.phase.Flush? && s.phase.collected == 0 && s.phase.cells == seq(|batch|, _ => Waiting) && batch != []
    ensures At(job, w0, moves, Goto(s.(lo := s.next, results := results, world := world, log := log), s.phase.after))
  {
    hide At, Terminating, Resolve, CellRank, TotalRank, WorkEvents;
    var cells := seq(|batch|, _ => Waiting);
    var c := 0;
    results, world, log, moves := results0, world0, log0, moves0;
    while c < |batch|
      invariant 0 <= c <= |batch| == |cells|
      invariant c < |batch| ==>
        At(job, w0, moves, s.(phase := Flush(cells, c, s.phase.after), results := results, world := world, log := log))
      invariant c == |batch| ==>
        At(job, w0, moves, Goto(s.(lo := s.next, results := results, world := world, log := log), s.phase.after))
      decreases TotalRank(job.env, rank, batch, cells), |batch| - c
    {
      ghost var t := s.(phase := Flush(cells, c, s.phase.after), results := results, world := world, log := log);
      var k :| 0 <= k <= |batch|;
      if k == |batch| || cells[k].Finished? {
        k := c;
      }
      assert batch[k] == job.calls[lo + k];
      if cells[k].Finished? {
        var r := cells[c].result;
        FlushCollect(job, w0, moves, t, EmitOne(job, t, lo + c, r));
        moves := moves + [CollectMove];
        results := results + [Scheduled(batch[c], Resolve(job.env, batch[c]).args, r)];
        log := log + [Emitted(lo + c, r)];
        world := PostHooks(job.env, batch[c], r, world);
        c := c + 1;
      } else {
        WindowReady(job, w0, moves, t, k);
        var (cell, w) := Work(job.env, batch[k], cells[k], world);
        FlushWork(job, w0, moves, t, k, cell, w);
        moves := moves + [WorkMove(k)];
        WorkRanks(job.env, rank, batch[k], cells[k], world);
        TotalRankFalls(job.env, rank, batch, cells, k, cell);
        log := log + WorkEvents(lo + k, cells[k], cell);
        cells, world := cells[k := cell], w;
      }
    }
  }

  /** flushConcurrent: nothing happens when the batch is empty. */
  method FlushConcurrent(job: Job, w0: World, ghost rank: Local -> nat, batch: seq<ToolCall>, lo: nat,
               results0: seq<Scheduled>, world0: World, log0: seq<Event>,
               ghost s: State, ghost after: After, ghost moves0: seq<Move>)
      returns (results: seq<Scheduled>, world: World, log: seq<Event>, ghost moves: seq<Move>)
    requires Terminating(job.env, rank) && s.lo <= s.next <= |job.calls|
    requires At(job, w0, moves0, BeginFlush(s, after)) && batch == job.calls[s.lo..s.next]
    requires s.results == results0 && s.world == world0 && s.log == log0 && s.lo == lo
    ensures At(job, w0, moves, Goto(s.(lo := s.next, results := results, world := world, log := log), after))
    ensures batch == [] ==> results == results0 && world == world0 && log == log0
  {
    hide At, Terminating, Resolve;
    if batch == [] {
      results, world, log, moves := results0, world0, log0, moves0;
    } else {
      assert BeginFlush(s, after).phase.cells == seq(|batch|, _ => Waiting);
      results, world, log, moves := LaunchAndCollect(job, w0, rank, batch, lo, results0, world0, log0, BeginFlush(s, after), moves0);
    }
  }

  lemma ExecWork(job: Job, w0: World, moves: seq<Move>, t: State, cell: Cell, w: World)
    requires At(job, w0, moves, t) && t.phase.Exec? && !t.phase.cell.Finished?
    requires t.next < |job.calls| && Resolve(job.env, job.calls[t.next]).Ready?
    requires (cell, w) == Work(job.env, job.calls[t.next], t.phase.cell, t.world)
    ensures At(job, w0, moves + [WorkMove(0)],
               t.(phase := Exec(cell), world := w, log := t.log + WorkEvents(t.next, t.phase.cell, cell)))
  {
    assert WellFormed(job, t);
    Advance(job, w0, moves, t, WorkMove(0)) by { hide Resolve, Run; }
    hide Resolve, Run, WellFormed, Work, At;
  }

  /** ExecuteSerial on a call that was not refused. */
  method ExecuteSerial(job: Job, w0: World, ghost rank: Local -> nat, i: nat, world0: World, log0: seq<Event>,
                       ghost s: State, ghost moves0: seq<Move>)
      returns (r: ToolResult, world: World, log: seq<Event>, ghost moves: seq<Move>)
    requires Terminating(job.env, rank)
    requires At(job, w0, moves0, s) && s.phase == Exec(Waiting) && s.world == world0 && s.log == log0
    requires i == s.next < |job.calls| && Resolve(job.env, job.calls[i]).Ready?
    ensures At(job, w0, moves, s.(phase := Exec(Finished(r)), world := world, log := log))
  {
    hide At, Terminating, Resolve, CellRank, WorkEvents;
    var cell := Waiting;
    world, log, moves := world0, log0, moves0;
    while !cell.Finished?
      invariant At(job, w0, moves, s.(phase := Exec(cell), world := world, log := log))
      decreases CellRank(job.env, rank, job.calls[i], cell)
    {
      var (cell', w) := Work(job.env, job.calls[i], cell, world);
      ExecWork(job, w0, moves, s.(phase := Exec(cell), world := world, log := log), cell', w);
      moves := moves + [WorkMove(0)];
      WorkRanks(job.env, rank, job.calls[i], cell, world);
      log := log + WorkEvents(i, cell, cell');
      cell, world := cell', w;
    }
    r := cell.result;
  }

  lemma FetchNext(job: Job, w0: World, moves: seq<Move>, s: State)
    requires At(job, w0, moves, s) && s.phase.Fetch? && s.lo <= s.next < |job.calls|
    ensures At(job, w0, moves + [FetchMove],
               if Concurrent(job, s.next) then Goto(s, ToAdmit) else BeginFlush(s, ToAdmit))
    ensures At(job, w0, moves + [StopMove], BeginFlush(s.(stopped := true), ToEnd))
  {
    hide Resolve, Run;
    Advance(job, w0, moves, s, FetchMove);
    Advance(job, w0, moves, s, StopMove);
  }

  lemma FetchEnd(job: Job, w0: World, moves: seq<Move>, s: State)
    requires At(job, w0, moves, s) && s.phase.Fetch? && s.lo <= s.next == |job.calls|
    ensures At(job, w0, moves + [FetchMove], BeginFlush(s, ToEnd))
  {
    hide Resolve, Run;
    Advance(job, w0, moves, s, FetchMove);
  }

  lemma AdmitNext(job: Job, w0: World, moves: seq<Move>, s: State)
    requires At(job, w0, moves, s) && s.phase.Admit? && s.lo <= s.next < |job.calls|
    ensures At(job, w0, moves + [AdmitMove], Admitted(job, s, Screen(job.env, job.calls[s.next], s.world)))
  {
    Advance(job, w0, moves, s, AdmitMove) by { hide Resolve, Run, Screen; }
    hide Resolve, Run, Screen, At, WellFormed, Admitted;
  }

  lemma EmitNext(job: Job, w0: World, moves: seq<Move>, s: State, r: ToolResult)
    requires At(job, w0, moves, s) && s.lo <= s.next < |job.calls| && (s.phase == Emit(r) || s.phase == Exec(Finished(r)))
    ensures At(job, w0, moves + [EmitMove],
               EmitOne(job, s, s.next, r).(phase := Fetch, lo := s.next + 1, next := s.next + 1))
  {
    Advance(job, w0, moves, s, EmitMove) by { hide Resolve, Run, PostHooks; }
    hide Resolve, Run, PostHooks, At, WellFormed;
  }

  /** EmitResult and results.push_back for call i, which ran on the main thread. */
  method EmitSerial(job: Job, w0: World, i: nat, r: ToolResult, results0: seq<Scheduled>, world0: World, log0: seq<Event>,
                    ghost s: State, ghost moves0: seq<Move>)
      returns (results: seq<Scheduled>, world: World, log: seq<Event>, ghost moves: seq<Move>)
    requires At(job, w0, moves0, s) && s.lo <= s.next == i < |job.calls|
    requires s.phase == Emit(r) || s.phase == Exec(Finished(r))
    requires !s.stopped && s.results == results0 && s.world == world0 && s.log == log0
    ensures At(job, w0, moves, State(Fetch, i + 1, i + 1, false, results, world, log))
  {
    hide At, Resolve, PostHooks;
    EmitNext(job, w0, moves0, s, r);
    moves := moves0 + [EmitMove];
    var tc := job.calls[i];
    results, log := results0 + [Scheduled(tc, Resolve(job.env, tc).args, r)], log0 + [Emitted(i, r)];
    world := PostHooks(job.env, tc, r, world0);
  }

  /** One round of the loop, once call i is not preceded by a stop. */
  method HandleCall(job: Job, w0: World, ghost rank: Local -> nat, batch0: seq<ToolCall>, lo0: nat, i0: nat,
                    results0: seq<Scheduled>, world0: World, log0: seq<Event>, ghost moves0: seq<Move>)
      returns (batch: seq<ToolCall>, lo: nat, i: nat,
               results: seq<Scheduled>, world: World, log: seq<Event>, ghost moves: seq<Move>)
    requires Terminating(job.env, rank) && lo0 <= i0 < |job.calls| && batch0 == job.calls[lo0..i0]
    requires At(job, w0, moves0, State(Fetch, lo0, i0, false, results0, world0, log0))
    ensures i == i0 + 1 && lo <= i && batch == job.calls[lo..i]
    ensures At(job, w0, moves, State(Fetch, lo, i, false, results, world, log))
  {
    hide At, Terminating, Resolve, Screen, Concurrent, AdmitEvents;
    batch, lo, i, results, world, log := batch0, lo0, i0, results0, world0, log0;
    ghost var s := State(Fetch, lo, i, false, results, world, log);
    FetchNext(job, w0, moves0, s);
    moves := moves0 + [FetchMove];
    var tc := job.calls[i];
    var canRunConcurrently := Concurrent(job, i);
    if !canRunConcurrently {
      results, world, log, moves := FlushConcurrent(job, w0, rank, batch, lo, results, world, log, s, ToAdmit, moves);
      batch, lo := [], i;
    }
    s := State(Admit, lo, i, false, results, world, log);
    AdmitNext(job, w0, moves, s);
    moves := moves + [AdmitMove];
    var screening := Screen(job.env, tc, world);
    world, log := screening.world, log + AdmitEvents(i, screening);
    s := s.(world := world, log := log);
    if screening.verdict.Some? {
      var r := screening.verdict.value;
      results, world, log, moves := FlushConcurrent(job, w0, rank, batch, lo, results, world, log, s, ToEmit(r), moves);
      s := State(Emit(r), i, i, false, results, world, log);
      results, world, log, moves := EmitSerial(job, w0, i, r, results, world, log, s, moves);
      i := i + 1;
      batch, lo := [], i;
    } else if canRunConcurrently {
      i := i + 1;
      batch := batch + [tc];
      assert batch == job.calls[lo..i];
      if |batch| >= job.limit {
        s := State(Fetch, lo, i, false, results, world, log);
        results, world, log, moves := FlushConcurrent(job, w0, rank, batch, lo, results, world, log, s, ToFetch, moves);
        batch, lo := [], i;
      }
    } else {
      var r: ToolResult;
      r, world, log, moves := ExecuteSerial(job, w0, rank, i, world, log, s.(phase := Exec(Waiting)), moves);
      s := State(Exec(Finished(r)), lo, i, false, results, world, log);
      results, world, log, moves := EmitSerial(job, w0, i, r, results, world, log, s, moves);
      i := i + 1;
      batch, lo := [], i;
    }
  }

  /** The batch. Before every call the stop token is checked; the first of these checks
      has the number check. */
  method RunToolCallBatch(job: Job, w0: World, ghost rank: Local -> nat, stopAt: Option<nat>, check: nat)
      returns (results: seq<Scheduled>, world: World, log: seq<Event>, ghost moves: seq<Move>)
    requires Terminating(job.env, rank)
    ensures Run(job, w0, moves).Some?
    ensures var s := Run(job, w0, moves).value;
            && s.phase.Done? && s.results == results && s.world == world && s.log == log
            && (s.stopped <==> |results| < |job.calls|)
    ensures |results| == Unseen(stopAt, check, |job.calls|)
    ensures Provenance.AllSourced(job, w0, moves, results)
    ensures job.calls != [] && Seen(stopAt, check) ==> results == [] && world == w0 && log == []
  {
    results, world, log, moves := [], w0, [], [];
    assert At(job, w0, [], Init(w0)) by { hide Resolve; }
    hide At, Terminating, Run, Provenance.AllSourced;
    var batch: seq<ToolCall>, lo, i := [], 0, 0;
    while i < |job.calls|
      invariant 0 <= lo <= i <= |job.calls| && batch == job.calls[lo..i]
      invariant At(job, w0, moves, State(Fetch, lo, i, false, results, world, log))
      invariant i > 0 ==> !Seen(stopAt, check + i - 1)
      invariant i == 0 ==> results == [] && world == w0 && log == []
    {
      if Seen(stopAt, check + i) {
        break;
      }
      batch, lo, i, results, world, log, moves := HandleCall(job, w0, rank, batch, lo, i, results, world, log, moves);
    }
    ghost var s := State(Fetch, lo, i, false, results, world, log);
    if i < |job.calls| {
      FetchNext(job, w0, moves, s);
      moves := moves + [StopMove];
      s := s.(stopped := true);
    } else {
      FetchEnd(job, w0, moves, s);
      moves := moves + [FetchMove];
    }
    results, world, log, moves := FlushConcurrent(job, w0, rank, batch, lo, results, world, log, s, ToEnd, moves);
    AtRun(job, w0, moves, State(Done, i, i, s.stopped, results, world, log));
    Provenance.ResultsSourced(job, w0, moves);
  }

  lemma AtRun(job: Job, w0: World, moves: seq<Move>, s: State)
    requires At(job, w0, moves, s)
    ensures Run(job, w0, moves) == Some(s) && |s.results| == s.lo + Collected(s)
  {
  }
}
