/** RunToolCallBatch as a machine. The main thread walks over the calls; a
    window of concurrency-safe calls is launched at once and its executions
    step in any order, also while the main thread emits earlier results. A run
    is the list of moves that were made, so a statement about every list of
    moves is a statement about every interleaving. */
module ToolScheduler {
  import opened Basics
  import opened JsonValues
  import opened Llm
  import opened ToolEnv

  /** One batch: its oracles, its calls, and maxConcurrentTools. */
  datatype Job = Job(env: Env, calls: seq<ToolCall>, limit: int)

  // The checks of the stop token are numbered as they are made; stopAt is the first
  // one that sees a stop, if any does. All later ones see it too.

  predicate Seen(stopAt: Option<nat>, check: int) {
    stopAt.Some? && stopAt.value <= check
  }

  /** How many of the n checks from the given one on do not see the stop. */
  function Unseen(stopAt: Option<nat>, check: nat, n: nat): (m: nat)
    ensures m <= n && (m > 0 ==> !Seen(stopAt, check + m - 1)) && (m < n ==> Seen(stopAt, check + m))
  {
    if stopAt.None? then n else Min(n, Max(0, stopAt.value - check))
  }

  datatype Scheduled = Scheduled(call: ToolCall, args: Json, result: ToolResult)

  /** What can be observed, by call index. */
  datatype Event =
    | Started(i: nat)
    | Asked(i: nat, allowed: bool)
    | Hooked(i: nat, blocked: bool)
    | Began(i: nat)
    | Returned(i: nat)
    | Emitted(i: nat, result: ToolResult)

  /** Where the main thread goes once the pending window is empty. */
  datatype After = ToAdmit | ToEmit(result: ToolResult) | ToFetch | ToEnd

  datatype Phase =
    | Fetch
    | Admit
    | Flush(cells: seq<Cell>, collected: nat, after: After)
    | Exec(cell: Cell)
    | Emit(result: ToolResult)
    | Done

  /** calls[lo..next] is the pending window (concurrentBatch). */
  datatype State = State(phase: Phase, lo: nat, next: nat, stopped: bool,
                         results: seq<Scheduled>, world: World, log: seq<Event>)

  /** Who moves: the stop check, the main thread, or the execution of a call. */
  datatype Move = StopMove | FetchMove | AdmitMove | WorkMove(k: nat) | CollectMove | EmitMove

  predicate Concurrent(job: Job, i: nat)
    requires i < |job.calls|
  {
    var p := Resolve(job.env, job.calls[i]);
    p.Ready? && p.execution.canRunConcurrently && job.limit > 1
  }

  function Init(w: World): State {
    State(Fetch, 0, 0, false, [], w, [])
  }

  function Goto(s: State, after: After): State {
    s.(phase := match after
                case ToAdmit => Admit
                case ToEmit(result) => Emit(result)
                case ToFetch => Fetch
                case ToEnd => Done)
  }

  /** flushConcurrent: launch every pending call, or nothing if there is none. */
  function BeginFlush(s: State, after: After): State
    requires s.lo <= s.next
  {
    if s.lo == s.next then Goto(s, after)
    else s.(phase := Flush(seq(s.next - s.lo, _ => Waiting), 0, after))
  }

  predicate Enabled(job: Job, s: State, m: Move) {
    && s.lo <= s.next <= |job.calls|
    && match m
       case StopMove => s.phase.Fetch? && s.next < |job.calls|
       case FetchMove => s.phase.Fetch?
       case AdmitMove => s.phase.Admit? && s.next < |job.calls|
       case WorkMove(k) =>
         || (s.phase.Flush? && k < |s.phase.cells| && s.lo + k < |job.calls|
             && Resolve(job.env, job.calls[s.lo + k]).Ready? && !s.phase.cells[k].Finished?)
         || (s.phase.Exec? && k == 0 && s.next < |job.calls|
             && Resolve(job.env, job.calls[s.next]).Ready? && !s.phase.cell.Finished?)
       case CollectMove =>
         s.phase.Flush? && s.phase.collected < |s.phase.cells| && s.lo + s.phase.collected < |job.calls|
         && s.phase.cells[s.phase.collected].Finished?
       case EmitMove =>
         s.next < |job.calls| && (s.phase.Emit? || (s.phase.Exec? && s.phase.cell.Finished?))
  }

  function Apply(job: Job, s: State, m: Move): State
    requires Enabled(job, s, m)
  {
    match m
    case StopMove => BeginFlush(s.(stopped := true), ToEnd)
    case FetchMove => ApplyFetch(job, s)
    case AdmitMove => ApplyAdmit(job, s)
    case WorkMove(k) => ApplyWork(job, s, k)
    case CollectMove => ApplyCollect(job, s)
    case EmitMove => ApplyEmit(job, s)
  }

  function ApplyFetch(job: Job, s: State): State
    requires Enabled(job, s, FetchMove)
  {
    if s.next == |job.calls| then BeginFlush(s, ToEnd)
    else if Concurrent(job, s.next) then Goto(s, ToAdmit)
    else BeginFlush(s, ToAdmit)
  }

  function AdmitEvents(i: nat, t: Screening): seq<Event> {
    [Started(i)]
    + (if t.asked.Some? then [Asked(i, t.asked.value)] else [])
    + (if t.hooked.Some? then [Hooked(i, t.hooked.value)] else [])
  }

  function ApplyAdmit(job: Job, s: State): State
    requires Enabled(job, s, AdmitMove)
  {
    Admitted(job, s, Screen(job.env, job.calls[s.next], s.world))
  }

  /** Announce call s.next and go where its screening sends it. */
  function Admitted(job: Job, s: State, t: Screening): State
    requires s.lo <= s.next < |job.calls|
  {
    var s1 := s.(world := t.world, log := s.log + AdmitEvents(s.next, t));
    if t.verdict.Some? then BeginFlush(s1, ToEmit(t.verdict.value))
    else if Concurrent(job, s.next) then
      var s2 := s1.(next := s.next + 1, phase := Fetch);
      if s2.next - s2.lo >= job.limit then BeginFlush(s2, ToFetch) else s2
    else s1.(phase := Exec(Waiting))
  }

  function WorkEvents(i: nat, before: Cell, after: Cell): seq<Event> {
    if before.Waiting? then [Began(i)] else if after.Finished? then [Returned(i)] else []
  }

  function ApplyWork(job: Job, s: State, k: nat): State
    requires Enabled(job, s, WorkMove(k))
  {
    if s.phase.Flush? then
      var (cell, w) := Work(job.env, job.calls[s.lo + k], s.phase.cells[k], s.world);
      s.(phase := s.phase.(cells := s.phase.cells[k := cell]), world := w,
         log := s.log + WorkEvents(s.lo + k, s.phase.cells[k], cell))
    else
      var (cell, w) := Work(job.env, job.calls[s.next], s.phase.cell, s.world);
      s.(phase := Exec(cell), world := w, log := s.log + WorkEvents(s.next, s.phase.cell, cell))
  }

  /** EmitResult: the result event, then the informational hooks. */
  function EmitOne(job: Job, s: State, i: nat, r: ToolResult): State
    requires i < |job.calls|
  {
    s.(results := s.results + [Scheduled(job.calls[i], Resolve(job.env, job.calls[i]).args, r)],
       world := PostHooks(job.env, job.calls[i], r, s.world),
       log := s.log + [Emitted(i, r)])
  }

  function ApplyCollect(job: Job, s: State): State
    requires Enabled(job, s, CollectMove)
  {
    var c := s.phase.collected;
    var s1 := EmitOne(job, s, s.lo + c, s.phase.cells[c].result);
    if c + 1 < |s.phase.cells| then s1.(phase := s.phase.(collected := c + 1))
    else Goto(s1.(lo := s.next), s.phase.after)
  }

  function ApplyEmit(job: Job, s: State): State
    requires Enabled(job, s, EmitMove)
  {
    var r := if s.phase.Emit? then s.phase.result else s.phase.cell.result;
    EmitOne(job, s, s.next, r).(phase := Fetch, lo := s.next + 1, next := s.next + 1)
  }

  /** The state after a list of moves, if each of them was possible. */
  function Run(job: Job, w: World, moves: seq<Move>): Option<State> {
    if moves == [] then Some(Init(w))
    else
      var n := |moves| - 1;
      var prior := Run(job, w, moves[..n]);
      if prior.Some? && Enabled(job, prior.value, moves[n]) then Some(Apply(job, prior.value, moves[n])) else None
  }

  /** s can be reached from w under some interleaving. */
  ghost predicate Reachable(job: Job, w: World, s: State) {
    exists moves :: Run(job, w, moves) == Some(s)
  }

  lemma RunStep(job: Job, w: World, moves: seq<Move>, m: Move)
    requires Run(job, w, moves).Some? && Enabled(job, Run(job, w, moves).value, m)
    ensures Run(job, w, moves + [m]) == Some(Apply(job, Run(job, w, moves).value, m))
  {
    assert (moves + [m])[..|moves|] == moves;
  }

  // ------------------------------------------------------------------
  // Structure of reachable states
  // ------------------------------------------------------------------

  function Collected(s: State): nat {
    if s.phase.Flush? then s.phase.collected else 0
  }

  /** The number of calls whose start was announced. */
  function StartedCount(s: State): nat {
    if s.phase.Exec? || s.phase.Emit? || (s.phase.Flush? && s.phase.after.ToEmit?) then s.next + 1 else s.next
  }

  ghost predicate AfterOk(job: Job, s: State) {
    s.phase.Flush? ==>
      match s.phase.after
      case ToAdmit => s.next < |job.calls|
      case ToEmit(_) => s.next < |job.calls| && s.next - s.lo < job.limit
      case ToFetch => true
      case ToEnd => s.stopped || s.next == |job.calls|
  }

  ghost predicate WellFormed(job: Job, s: State) {
    && s.lo <= s.next <= |job.calls|
    && (forall i | s.lo <= i < s.next :: Concurrent(job, i))
    && (s.lo < s.next ==> s.next - s.lo <= job.limit)
    && |s.results| == s.lo + Collected(s) <= |job.calls|
    && (forall j | 0 <= j < |s.results| :: s.results[j].call == job.calls[j])
    && AfterOk(job, s)
    && match s.phase
       case Fetch => s.lo < s.next ==> s.next - s.lo < job.limit
       case Admit => s.next < |job.calls| && (s.lo < s.next ==> Concurrent(job, s.next) && s.next - s.lo < job.limit)
       case Flush(cells, collected, _) =>
         && |cells| == s.next - s.lo
         && collected < |cells|
         && (forall k | 0 <= k < collected :: cells[k].Finished?)
       case Exec(_) => s.lo == s.next < |job.calls| && Resolve(job.env, job.calls[s.next]).Ready?
       case Emit(_) => s.lo == s.next < |job.calls|
       case Done => s.lo == s.next && (s.stopped || s.next == |job.calls|)
  }

  lemma FlushWellFormed(job: Job, s: State, after: After)
    requires WellFormed(job, s) && (s.phase.Fetch? || s.phase.Admit?)
    requires match after
             case ToAdmit => s.next < |job.calls|
             case ToEmit(_) => s.next < |job.calls| && s.next - s.lo < Max(1, job.limit)
             case ToFetch => true
             case ToEnd => s.stopped || s.next == |job.calls|
    ensures WellFormed(job, BeginFlush(s, after))
  {
    hide Resolve;
  }

  lemma AdmitWellFormed(job: Job, s: State)
    requires WellFormed(job, s) && Enabled(job, s, AdmitMove)
    ensures WellFormed(job, Apply(job, s, AdmitMove))
  {
    var t := Screen(job.env, job.calls[s.next], s.world);
    var s1 := s.(world := t.world, log := s.log + AdmitEvents(s.next, t));
    hide Resolve, Screen;
    if t.verdict.Some? {
      FlushWellFormed(job, s1, ToEmit(t.verdict.value));
    }
  }

  lemma CollectWellFormed(job: Job, s: State)
    requires WellFormed(job, s) && Enabled(job, s, CollectMove)
    ensures WellFormed(job, Apply(job, s, CollectMove))
  {
    hide Resolve, PostHooks;
  }

  lemma StepWellFormed(job: Job, s: State, m: Move)
    requires WellFormed(job, s) && Enabled(job, s, m)
    ensures WellFormed(job, Apply(job, s, m))
  {
    hide Resolve, Screen, PostHooks, Work;
    match m
    case StopMove => FlushWellFormed(job, s.(stopped := true), ToEnd);
    case FetchMove =>
      if s.next == |job.calls| { FlushWellFormed(job, s, ToEnd); }
      else if !Concurrent(job, s.next) { FlushWellFormed(job, s, ToAdmit); }
    case AdmitMove => AdmitWellFormed(job, s);
    case CollectMove => CollectWellFormed(job, s);
    case WorkMove(_) =>
    case EmitMove =>
  }

  lemma {:induction false} RunWellFormed(job: Job, w: World, moves: seq<Move>)
    requires Run(job, w, moves).Some?
    ensures WellFormed(job, Run(job, w, moves).value)
    decreases |moves|
  {
    if moves != [] {
      var n := |moves| - 1;
      RunWellFormed(job, w, moves[..n]);
      StepWellFormed(job, Run(job, w, moves[..n]).value, moves[n]);
    }
  }

  /** A move that is possible in a state where the batch has not ended. */
  function NextMove(s: State): Move
    requires s.phase.Flush? ==> s.phase.collected < |s.phase.cells|
  {
    match s.phase
    case Admit => AdmitMove
    case Flush(cells, c, _) => if cells[c].Finished? then CollectMove else WorkMove(c)
    case Exec(cell) => if cell.Finished? then EmitMove else WorkMove(0)
    case Emit(_) => EmitMove
    case _ => FetchMove
  }

  lemma NextMoveEnabled(job: Job, s: State)
    requires WellFormed(job, s) && !s.phase.Done?
    ensures Enabled(job, s, NextMove(s))
  {
    hide Resolve;
    if s.phase.Flush? {
      assert Concurrent(job, s.lo + s.phase.collected);
    }
  }

  /** No reachable state is stuck before the batch has ended. */
  lemma NeverStuck(job: Job, w: World, s: State)
    requires Reachable(job, w, s) && !s.phase.Done?
    ensures exists m :: Enabled(job, s, m)
  {
    var moves :| Run(job, w, moves) == Some(s);
    RunWellFormed(job, w, moves);
    NextMoveEnabled(job, s);
  }

  /** A stop seen before the first call ends the batch: no call is announced, none
      is answered, the world stays. */
  lemma StoppedAtOnce(job: Job, w: World)
    requires job.calls != []
    ensures Run(job, w, [StopMove]) == Some(State(Done, 0, 0, true, [], w, []))
  {
    assert [StopMove][..0] == [];
    assert Run(job, w, []) == Some(Init(w));
  }
}
