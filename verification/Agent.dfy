/** The agent: one conversation, its log, and the turns that grow both. */
module Agent {
  import opened Basics
  import opened Llm
  import opened RecordTypes
  import opened TokenEstimate
  import opened Compactor
  import opened TurnHistory
  import EventLog
  import Memory = ContextMemory
  import Turn = TurnLoop
  import opened ToolEnv
  import Runner = BatchRunner
  import Serial = Serializability
  import Scheduler = ToolScheduler
  import Output = ToolOutput

  datatype AgentStatus = Idle | Running | Cancelling

  /** The provider: turns, summaries of transcripts, and the context window of
      its model. */
  datatype Provider = Provider(
    generate: (seq<Message>, int) -> Turn.Generation,
    summarize: string -> Result<string, string>,
    window: int)

  datatype PromptError = NotIdle | ProviderMissing | ToolsUnresolved | BlockedByHook(reason: string)

  datatype Started = Started(turnId: nat, turnHistory: seq<Message>, systemPrompt: string)

  datatype PromptResult = PromptResult(turnId: nat, turn: Turn.TurnResult)

  function UserMessage(text: string): Message {
    Message(User, [TextPart(text)], None, [])
  }

  /** The context window is the model's unless it was set. */
  function Budget(cfg: CompactionConfig, overridden: bool, window: int): CompactionConfig {
    if !overridden && cfg.maxContextTokens == 0 then cfg.(maxContextTokens := window) else cfg
  }

  predicate Compacts(history: seq<Message>, user: Message, cfg: CompactionConfig,
                     summarize: string -> Result<string, string>)
  {
    && cfg.maxContextTokens > 0 && history != []
    && ShouldCompact(Tokens(history) + MessageTokens(user), cfg)
    && Compaction(Some(summarize), history, cfg).Ok?
    && Compaction(Some(summarize), history, cfg).value.Some?
  }

  /** The conversation a turn starts from. */
  function BetweenTurns(history: seq<Message>, user: Message, cfg: CompactionConfig,
                        summarize: string -> Result<string, string>): seq<Message>
  {
    if Compacts(history, user, cfg, summarize)
    then Compacted(Compaction(Some(summarize), history, cfg).value.value.summary, history, cfg.retainTail)
    else history
  }

  /** What entering a turn logs. */
  function PromptRecords(turnId: nat, user: Message): seq<AgentRecord> {
    [TurnPrompt(TurnName(turnId), user.content, 0), AppendMessage(user)]
  }

  function TurnName(turnId: nat): string {
    "turn_" + Output.Decimal(turnId)
  }

  /** What reaches the agent while a turn runs: an event is dispatched, or Cancel is
      called, in front of the given check of the stop token. */
  datatype Happening = EventSeen(event: LoopEvent) | CancelCalled(check: nat)

  function HappeningRecord(h: Happening): AgentRecord {
    match h
    case EventSeen(event) => AppendLoopEvent(event)
    case CancelCalled(_) => TurnCancel("")
  }

  /** The first check that sees the stop: the one behind the first call of Cancel. */
  function StopOf(hs: seq<Happening>): Option<nat> {
    if hs == [] then None else if hs[0].CancelCalled? then Some(hs[0].check) else StopOf(hs[1..])
  }

  function HappeningRecords(hs: seq<Happening>): (r: seq<AgentRecord>)
    ensures |r| == |hs|
  {
    seq(|hs|, i requires 0 <= i < |hs| => HappeningRecord(hs[i]))
  }

  /** A turn that makes no step: it may take none, is stopped before it begins, or its
      first generation fails. */
  predicate Stillborn(input: Turn.TurnInput, stopAt: Option<nat>) {
    input.maxSteps <= 0 || stopAt == Some(0) || input.generate(input.history, 1).Failed?
  }

  /** The turn and the world it leaves are those of running its calls one by one. */
  ghost predicate TurnEnds(input: Turn.TurnInput, stopAt: Option<nat>, w0: World, turn: Turn.TurnResult, w: World) {
    exists fuel: nat :: Turn.SequentialTurn(input, stopAt, fuel, 1, 0, input.history, Turn.NO_USAGE, w0) == Some((turn, w))
  }

  class Agent {
    const history: Memory.ContextMemory
    var records: EventLog.AgentRecords?
    var status: AgentStatus
    var stop: Option<bool>
    var compaction: CompactionConfig
    var overridden: bool
    var nextTurnId: nat
    var systemPrompt: string
    var skillIndex: Option<string>
    var pendingSystemSkillContent: string

    /** In every state between two calls, whatever the log holds: the cached count
        is a recount's, a stop source exists exactly while a turn is on, and a
        cancelled turn has been asked to stop. */
    ghost predicate Valid()
      reads this, history
    {
      && history.Valid()
      && (stop.None? <==> status == Idle)
      && (status == Cancelling ==> stop == Some(true))
    }

    ghost predicate Logging()
      reads this, records
    {
      records != null && records.Writing()
    }

    /** The records of the log; None without a log, or if it has a line that cannot
        be read. */
    ghost function Logged(): Option<seq<AgentRecord>>
      reads this, records
    {
      if records != null && records.Readable() then Some(records.Contents()) else None
    }

    /** The messages of the log are the conversation. */
    ghost predicate Reproduced()
      reads this, history, records
    {
      Holds(Logged(), history.messages)
    }

    constructor (systemPrompt: string, compaction: CompactionConfig)
      ensures Valid() && fresh(history) && history.messages == [] && records == null
      ensures status == Idle && nextTurnId == 1 && this.compaction == compaction && !overridden
    {
      history := new Memory.ContextMemory();
      records, status, stop, nextTurnId := null, Idle, None, 1;
      this.compaction, overridden := compaction, false;
      this.systemPrompt, skillIndex, pendingSystemSkillContent := systemPrompt, None, "";
    }

    method SetRecords(r: EventLog.AgentRecords?)
      requires Valid()
      modifies this`records
      ensures Valid() && records == r
    {
      records := r;
    }

    method SetCompactionConfig(cfg: CompactionConfig)
      requires Valid()
      modifies this`compaction, this`overridden
      ensures Valid() && compaction == cfg && overridden
    {
      compaction, overridden := cfg, true;
    }

    /** Best effort: what happens when appending fails is only a warning. */
    method LogRecord(record: AgentRecord, now: int)
      requires Valid()
      modifies records
      ensures Valid()
      ensures Logged() == if old(Logging()) then Grown(old(Logged()), [EventLog.AsRead(record)]) else old(Logged())
      ensures Logging() == old(Logging())
    {
      hide EventLog.AsRead, EventLog.ReadRecords;
      if records != null && !records.restoring {
        var _ := records.Log(record, now);
      }
    }

    method Cancel(now: int)
      requires Valid()
      modifies this`status, this`stop, records
      ensures Valid()
      ensures old(status) == Idle ==> status == Idle && stop == old(stop) && Logged() == old(Logged())
      ensures old(status) != Idle ==>
                && status == Cancelling && stop == Some(true)
                && Logged() == if old(Logging()) then Grown(old(Logged()), [EventLog.AsRead(TurnCancel(""))]) else old(Logged())
      ensures Logging() == old(Logging())
    {
      hide EventLog.AsRead, EventLog.ReadRecords;
      if stop.Some? && status != Idle {
        status, stop := Cancelling, Some(true);
        LogRecord(TurnCancel(""), now);
      }
    }

    /** Forgets the conversation; the log is not told, and a resume brings back what
        it holds. */
    method ClearContext()
      requires Valid()
      modifies history
      ensures Valid() && history.messages == [] && Logged() == old(Logged())
      ensures Reproduced() <==> Holds(Logged(), [])
    {
      history.Clear();
    }

    /** The between-turn compaction of Prompt. */
    method CompactBetweenTurns(user: Message, summarize: string -> Result<string, string>)
      requires Valid()
      modifies history
      ensures Valid() && history.messages == BetweenTurns(old(history.messages), user, compaction, summarize)
      ensures Logged() == old(Logged())
    {
      hide Compaction, Compacted, MessageTokens, Tokens, ShouldCompact;
      if compaction.maxContextTokens > 0 && history.messages != [] {
        var incoming := EstimateMessage(user);
        if ShouldCompact(history.tokens + incoming, compaction) {
          var r := Compact(Some(summarize), history.messages, compaction);
          if r.Ok? && r.value.Some? {
            var compacted := BuildCompactedHistory(r.value.value.summary, history.messages, compaction.retainTail);
            history.ReplaceAll(compacted);
          }
        }
      }
    }

    method LogPrompt(turnId: nat, user: Message, now: int)
      requires Valid()
      modifies records
      ensures Valid() && Logging() == old(Logging())
      ensures Logged() == if old(Logging()) then Grown(old(Logged()), PromptRecords(turnId, user)) else old(Logged())
    {
      hide TurnName, EventLog.ReadRecords, Tokens;
      PromptIsLogged(Logged(), turnId, user);
      LogRecord(TurnPrompt(TurnName(turnId), user.content, 0), now);
      LogRecord(AppendMessage(user), now);
    }

    /** Prompt up to the turn itself. A refused prompt changes nothing. */
    method StartTurn(text: string, provider: Option<Provider>, toolsResolved: bool, blocked: Option<string>, now: int)
      returns (r: Result<Started, PromptError>)
      requires Valid()
      modifies this`status, this`stop, this`compaction, this`nextTurnId, this`pendingSystemSkillContent, history, records
      ensures Valid()
      ensures r == if old(status) != Idle then Err(NotIdle) else if provider.None? then Err(ProviderMissing)
                   else if !toolsResolved then Err(ToolsUnresolved) else if blocked.Some? then Err(BlockedByHook(blocked.value))
                   else Ok(Started(old(nextTurnId), history.messages + [UserMessage(text)],
                                   EffectivePrompt(systemPrompt, skillIndex, old(pendingSystemSkillContent))))
      ensures r.Err? ==>
                && status == old(status) && stop == old(stop) && nextTurnId == old(nextTurnId)
                && compaction == old(compaction) && pendingSystemSkillContent == old(pendingSystemSkillContent)
                && history.messages == old(history.messages) && Logged() == old(Logged())
      ensures r.Ok? ==>
                && status == AgentStatus.Running && stop == Some(false) && nextTurnId == old(nextTurnId) + 1
                && compaction == Budget(old(compaction), overridden, provider.value.window)
                && history.messages == BetweenTurns(old(history.messages), UserMessage(text), compaction, provider.value.summarize)
                && pendingSystemSkillContent == (if skillIndex.Some? then "" else old(pendingSystemSkillContent))
                && Logged() == (if old(Logging()) then Grown(old(Logged()), PromptRecords(old(nextTurnId), UserMessage(text)))
                                else old(Logged()))
      ensures Logging() == old(Logging())
    {
      hide BetweenTurns, EventLog.ReadRecords, PromptRecords, Tokens, EffectivePrompt, Budget;
      if status != Idle { return Err(NotIdle); }
      if provider.None? { return Err(ProviderMissing); }
      if !toolsResolved { return Err(ToolsUnresolved); }
      if blocked.Some? { return Err(BlockedByHook(blocked.value)); }
      compaction := Budget(compaction, overridden, provider.value.window);
      var userMessage := UserMessage(text);
      CompactBetweenTurns(userMessage, provider.value.summarize);
      var turnHistory := history.messages + [userMessage];
      var effective := EffectivePrompt(systemPrompt, skillIndex, pendingSystemSkillContent);
      if skillIndex.Some? { pendingSystemSkillContent := ""; }
      var turnId := nextTurnId;
      nextTurnId := nextTurnId + 1;
      stop, status := Some(false), AgentStatus.Running;
      LogPrompt(turnId, userMessage, now);
      r := Ok(Started(turnId, turnHistory, effective));
    }

    /** Every event of a running turn is logged, and every call of Cancel. */
    method DuringTurn(happenings: seq<Happening>, now: int)
      requires Valid() && status != Idle
      modifies this`status, this`stop, records
      ensures Valid() && status != Idle && Logging() == old(Logging())
      ensures StopOf(happenings).Some? ==> stop == Some(true)
      ensures Logged() == if old(Logging()) then Grown(old(Logged()), HappeningRecords(happenings)) else old(Logged())
    {
      hide EventLog.ReadRecords, Tokens, HappeningRecord, Grown;
      GrownByNothing(old(Logged()));
      for i := 0 to |happenings|
        invariant Valid() && status != Idle && Logging() == old(Logging())
        invariant (exists k :: 0 <= k < i && happenings[k].CancelCalled?) ==> stop == Some(true)
        invariant Logged() == if old(Logging()) then Grown(old(Logged()), HappeningRecords(happenings[..i])) else old(Logged())
      {
        OnHappening(happenings[i], now);
        GrownTwice(old(Logged()), HappeningRecords(happenings[..i]), [HappeningRecord(happenings[i])]);
        assert HappeningRecords(happenings[..i + 1]) == HappeningRecords(happenings[..i]) + [HappeningRecord(happenings[i])];
      }
      assert happenings[..|happenings|] == happenings;
      StopIsCalled(happenings);
    }

    method OnHappening(h: Happening, now: int)
      requires Valid() && status != Idle
      modifies this`status, this`stop, records
      ensures Valid() && status != Idle && Logging() == old(Logging())
      ensures stop == if h.CancelCalled? then Some(true) else old(stop)
      ensures Logged() == if old(Logging()) then Grown(old(Logged()), [HappeningRecord(h)]) else old(Logged())
    {
      hide EventLog.ReadRecords, Tokens;
      CancelIsLogged();
      match h
      case EventSeen(event) => LogRecord(AppendLoopEvent(event), now);
      case CancelCalled(_) => Cancel(now);
    }

    /** Prompt after the turn: the turn's history replaces the agent's. */
    method FinishTurn(updatedHistory: seq<Message>)
      requires Valid()
      modifies this`status, this`stop, history
      ensures Valid() && status == Idle && history.messages == updatedHistory && Logged() == old(Logged())
      ensures Logging() == old(Logging())
    {
      hide Tokens;
      history.ReplaceAll(updatedHistory);
      stop, status := None, Idle;
    }

    /** Prompt from the turn on, with what happens meanwhile. */
    method RunStarted(input: Turn.TurnInput, happenings: seq<Happening>, w0: World, ghost rank: Local -> nat, now: int)
      returns (turn: Turn.TurnResult, w: World, ghost steps: seq<Turn.Step>)
      requires Valid() && status != Idle && Runner.Terminating(input.env, rank)
      modifies this`status, this`stop, history, records
      ensures Valid() && status == Idle && Logging() == old(Logging())
      ensures Turn.StepsOk(steps) && turn.stepsExecuted == |steps| && turn.updatedHistory == history.messages
      ensures history.messages == input.history + Turn.Messages(steps)
      ensures Turn.Laid(history.messages, |input.history|, steps) && Turn.Summed(turn.totalUsage, steps)
      ensures exists worlds :: Turn.Course(input, w0, steps, worlds, w)
      ensures Logged() == if old(Logging()) then Grown(old(Logged()), HappeningRecords(happenings)) else old(Logged())
      ensures steps == [] <==> Stillborn(input, StopOf(happenings))
      ensures Serial.Separate(input.env) ==> TurnEnds(input, StopOf(happenings), w0, turn, w)
    {
      hide Turn.StepOk, Turn.Messages, Runner.Terminating, EventLog.ReadRecords, HappeningRecords, Tokens, Stillborn, Scheduler.Seen;
      hide Grown, Turn.Generated, Turn.Settled, Turn.FullyAnswered, Turn.SequentialTurn, Turn.Usage, Turn.StopBeforeLastBatch;
      hide Turn.Laid, Turn.Summed, Turn.Course, Turn.WentOn, Turn.GoesOn, Turn.LastAnswers, Turn.AllAnswered, Turn.RunsTools, Turn.Checks, Serial.Separate, StopOf;
      DuringTurn(happenings, now);
      ghost var worlds: seq<World>;
      turn, w, steps, worlds := Turn.RunTurn(input, w0, rank, StopOf(happenings));
      StepsOrStillborn(input, StopOf(happenings), turn, steps);
      FinishTurn(turn.updatedHistory);
    }

    /** Prompt: refused, or one whole turn. */
    method Prompt(text: string, provider: Option<Provider>, toolsResolved: bool, blocked: Option<string>, env: Env,
                  maxSteps: int, maxConcurrentTools: int, happenings: seq<Happening>,
                  w0: World, ghost rank: Local -> nat, now: int)
      returns (r: Result<PromptResult, PromptError>, w: World, ghost steps: seq<Turn.Step>)
      requires Valid() && Runner.Terminating(env, rank)
      modifies this`status, this`stop, this`compaction, this`nextTurnId, this`pendingSystemSkillContent, history, records
      ensures Valid() && Turn.StepsOk(steps) && Logging() == old(Logging())
      ensures r.Ok? <==> old(status) == Idle && provider.Some? && toolsResolved && blocked.None?
      ensures r.Err? ==>
                && status == old(status) && nextTurnId == old(nextTurnId) && w == w0
                && history.messages == old(history.messages) && Logged() == old(Logged())
      ensures r.Ok? ==>
                var (p, user) := (provider.value, Message(User, [TextPart(text)], None, []));
                var base := BetweenTurns(old(history.messages), user, compaction, p.summarize);
                && status == Idle && nextTurnId == old(nextTurnId) + 1
                && compaction == Budget(old(compaction), overridden, p.window)
                && history.messages == base + [user] + Turn.Messages(steps)
                && Turn.Laid(history.messages, |base| + 1, steps) && Turn.Summed(r.value.turn.totalUsage, steps)
                && r.value.turnId == old(nextTurnId)
                && r.value.turn.stepsExecuted == |steps| && r.value.turn.updatedHistory == history.messages
                && Logged() == (if old(Logging()) then Grown(old(Logged()), TurnRecords(old(nextTurnId), user, happenings))
                                else old(Logged()))
                && var input := Turn.TurnInput(env, p.generate, base + [user], maxSteps, maxConcurrentTools, None);
                && (exists worlds :: Turn.Course(input, w0, steps, worlds, w))
                && (steps == [] <==> Stillborn(input, StopOf(happenings)))
                && (Serial.Separate(env) ==> TurnEnds(input, StopOf(happenings), w0, r.value.turn, w))
                && (old(Logging()) ==>
                      (Reproduced() <==> Holds(old(Logged()), base) && steps == []))
    {
      hide BetweenTurns, Turn.StepOk, Turn.Messages, Runner.Terminating, EventLog.ReadRecords, EventLog.MessagesIn, Grown;
      hide Turn.Laid, Turn.Summed, Turn.Course;
      hide HappeningRecords, PromptRecords, Tokens, Budget, EffectivePrompt, Stillborn, StopOf, TurnEnds, Serial.Separate;
      w, steps := w0, [];
      var started := StartTurn(text, provider, toolsResolved, blocked, now);
      if started.Err? { return Err(started.error), w, steps; }
      var input := Turn.TurnInput(env, provider.value.generate, started.value.turnHistory, maxSteps, maxConcurrentTools, None);
      var turn;
      turn, w, steps := RunStarted(input, happenings, w0, rank, now);
      GrownTwice(old(Logged()), PromptRecords(old(nextTurnId), UserMessage(text)), HappeningRecords(happenings));
      PromptedHolds(old(Logged()), old(nextTurnId), UserMessage(text), happenings,
                    BetweenTurns(old(history.messages), UserMessage(text), compaction, provider.value.summarize), steps);
      r := Ok(PromptResult(started.value.turnId, turn));
    }

    /** An inline skill adds a message to the conversation and to the log. */
    method AppendSkillMessage(content: string, now: int)
      requires Valid()
      modifies history, records
      ensures Valid() && history.messages == old(history.messages) + [Message(User, [TextPart(content)], None, [])]
      ensures Logged() == if old(Logging())
                          then Grown(old(Logged()), [AppendMessage(Message(User, [TextPart(content)], None, []))])
                          else old(Logged())
      ensures Logging() == old(Logging())
      ensures old(Logging()) ==> (Reproduced() <==> old(Reproduced()))
    {
      hide EventLog.ReadRecords, MessageTokens, Tokens, EventLog.MessagesIn;
      history.Append(UserMessage(content));
      LogRecord(AppendMessage(UserMessage(content)), now);
      HoldsOneMore(old(Logged()), old(history.messages), UserMessage(content));
    }

    /** Prompt skills wait for the next turn's system prompt. */
    method AppendSystem(content: string)
      requires Valid()
      modifies this`pendingSystemSkillContent
      ensures Valid()
      ensures pendingSystemSkillContent
           == if old(pendingSystemSkillContent) == "" then content else old(pendingSystemSkillContent) + "\n\n" + content
    {
      if pendingSystemSkillContent != "" { pendingSystemSkillContent := pendingSystemSkillContent + "\n\n"; }
      pendingSystemSkillContent := pendingSystemSkillContent + content;
    }

    /** Resume: the conversation becomes the messages of the log, and the log
        stays as it is. A log that is not there, is closed or has a line that cannot
        be read leaves the conversation empty. */
    method Resume(now: int) returns (ok: bool)
      requires Valid()
      modifies history, records
      ensures Valid() && Logged() == old(Logged())
      ensures records == null ==> !ok && history.messages == old(history.messages)
      ensures records != null ==>
                && ok == (records.persistence && !records.closed && records.canRead && records.Readable())
                && records.lines == old(records.lines)
                && history.messages == (if ok then EventLog.MessagesIn(records.Contents()) else [])
                && records.restoring == (old(records.restoring) && !ok)
      ensures ok ==> Reproduced()
    {
      hide EventLog.ReadRecords, EventLog.Fold, EventLog.MessagesIn, MessageTokens, Tokens;
      if records == null { return false; }
      history.Clear();
      ReplayRemembers(records.lines);
      var kept, status := records.Replay(Remember, Kept([], 0), now);
      history.messages, history.tokens := kept.messages, kept.tokens;
      ok := status.Replayed?;
    }
  }

  /** The system prompt of a turn: with skills, their index and what prompt
      skills left. */
  function EffectivePrompt(systemPrompt: string, skillIndex: Option<string>, pending: string): string {
    if skillIndex.None? then systemPrompt
    else systemPrompt + skillIndex.value + if pending == "" then "" else "\n\n" + pending
  }

  /** The index of the skills stands behind the system prompt, and what prompt skills
      left behind that, after a blank line; without skills there is the prompt alone. */
  lemma EffectivePromptIs(systemPrompt: string, index: string, pending: string)
    ensures EffectivePrompt(systemPrompt, None, pending) == systemPrompt
    ensures EffectivePrompt(systemPrompt, Some(index), "") == systemPrompt + index
    ensures pending != "" ==> EffectivePrompt(systemPrompt, Some(index), pending) == systemPrompt + index + "\n\n" + pending
  {
    assert systemPrompt + index + "" == systemPrompt + index;
    assert systemPrompt + index + ("\n\n" + pending) == systemPrompt + index + "\n\n" + pending;
  }

  /** The model's window counts only when none was set, neither by a call nor in the
      configuration. */
  lemma BudgetIs(cfg: CompactionConfig, overridden: bool, window: int)
    ensures overridden || cfg.maxContextTokens != 0 ==> Budget(cfg, overridden, window) == cfg
    ensures !overridden && cfg.maxContextTokens == 0
            ==> Budget(cfg, overridden, window) == CompactionConfig(window, cfg.compactThreshold, cfg.retainTail)
  {
  }

  /** The conversation is compacted when a window is set, the conversation is not empty
      and reaches the threshold together with the prompt, and the provider summarizes
      what would go. */
  lemma CompactsIff(history: seq<Message>, user: Message, cfg: CompactionConfig, summarize: string -> Result<string, string>)
    ensures var start := |history| - cfg.retainTail;
            Compacts(history, user, cfg, summarize)
            <==> && cfg.maxContextTokens > 0 && ShouldCompact(Tokens(history) + MessageTokens(user), cfg)
                 && 0 < start <= |history|
                 && summarize(Transcript(history[..start])).Ok? && summarize(Transcript(history[..start])).value != ""
  {
    hide Tokens, MessageTokens, ShouldCompact, Transcript, Compaction;
    CompactionIff(Some(summarize), history, cfg);
  }

  /** A turn starts from the conversation, or, if it is compacted, from its last
      retainTail messages behind one summary message. */
  lemma BetweenTurnsIs(history: seq<Message>, user: Message, cfg: CompactionConfig, summarize: string -> Result<string, string>)
    ensures !Compacts(history, user, cfg, summarize) ==> BetweenTurns(history, user, cfg, summarize) == history
    ensures Compacts(history, user, cfg, summarize) ==>
              var start := |history| - cfg.retainTail;
              && 0 < start <= |history| && summarize(Transcript(history[..start])).Ok?
              && var summary := summarize(Transcript(history[..start])).value;
                 BetweenTurns(history, user, cfg, summarize)
                 == [Message(User, [TextPart("# Conversation summary\n\n" + summary)], None, [])] + history[start..]
  {
    CompactsIff(history, user, cfg, summarize);
    if Compacts(history, user, cfg, summarize) {
      CompactionIff(Some(summarize), history, cfg);
      CompactionAccount(Some(summarize), history, cfg);
    }
    hide Compacts, Tokens, MessageTokens, ShouldCompact, Transcript, Compaction, Compacted;
  }

  /** What one prompt logs: the turn under its number, the prompt message, and what
      happened meanwhile. */
  lemma TurnRecordsAre(turnId: nat, text: string, happenings: seq<Happening>) returns (digits: string)
    ensures Output.Writes(digits, turnId)
    ensures var user := Message(User, [TextPart(text)], None, []); var records := TurnRecords(turnId, user, happenings);
            && |records| == 2 + |happenings|
            && records[0] == TurnPrompt("turn_" + digits, [TextPart(text)], 0) && records[1] == AppendMessage(user)
            && forall i | 0 <= i < |happenings| ::
                 records[2 + i] == if happenings[i].EventSeen? then AppendLoopEvent(happenings[i].event) else TurnCancel("")
  {
    Output.DecimalWrites(turnId);
    digits := Output.Decimal(turnId);
    hide Output.Decimal, Output.Writes;
  }

  /** The check that sees the stop is that of the first call of Cancel. */
  lemma {:induction false} StopIsFirst(hs: seq<Happening>, k: nat)
    requires k < |hs| && hs[k].CancelCalled? && forall i | 0 <= i < k :: hs[i].EventSeen?
    ensures StopOf(hs) == Some(hs[k].check)
    decreases |hs|
  {
    if k > 0 { StopIsFirst(hs[1..], k - 1); }
  }

  /** What one prompt logs. */
  function TurnRecords(turnId: nat, user: Message, happenings: seq<Happening>): seq<AgentRecord> {
    PromptRecords(turnId, user) + HappeningRecords(happenings)
  }

  /** A log with more records behind it; one that cannot be read stays so. */
  function Grown(log: Option<seq<AgentRecord>>, more: seq<AgentRecord>): Option<seq<AgentRecord>> {
    if log.Some? then Some(log.value + more) else None
  }

  /** A readable log with exactly these messages. */
  predicate Holds(log: Option<seq<AgentRecord>>, messages: seq<Message>) {
    log.Some? && EventLog.MessagesIn(log.value) == messages
  }

  lemma GrownByNothing(log: Option<seq<AgentRecord>>)
    ensures Grown(log, []) == log
  {
    if log.Some? { assert log.value + [] == log.value; }
  }

  lemma GrownTwice(log: Option<seq<AgentRecord>>, a: seq<AgentRecord>, b: seq<AgentRecord>)
    ensures Grown(Grown(log, a), b) == Grown(log, a + b)
  {
    if log.Some? { assert log.value + (a + b) == log.value + a + b; }
  }

  lemma PromptIsLogged(before: Option<seq<AgentRecord>>, turnId: nat, user: Message)
    ensures Grown(Grown(before, [EventLog.AsRead(TurnPrompt(TurnName(turnId), user.content, 0))]),
                  [EventLog.AsRead(AppendMessage(user))])
         == Grown(before, PromptRecords(turnId, user))
  {
    GrownTwice(before, [EventLog.AsRead(TurnPrompt(TurnName(turnId), user.content, 0))], [EventLog.AsRead(AppendMessage(user))]);
    hide Grown, TurnName;
    assert PromptRecords(turnId, user)
        == [EventLog.AsRead(TurnPrompt(TurnName(turnId), user.content, 0))] + [EventLog.AsRead(AppendMessage(user))];
  }

  lemma CancelIsLogged()
    ensures EventLog.AsRead(TurnCancel("")) == TurnCancel("")
  {
  }

  lemma FirstStep(input: Turn.TurnInput, steps: seq<Turn.Step>)
    requires Turn.StepsOk(steps) && Turn.Generated(input, steps) && steps != []
    ensures !input.generate(input.history, 1).Failed?
  {
    assert Turn.StepOk(steps[0]);
    hide Turn.StepOk;
    assert Turn.GeneratedAfter(input, steps[..0], steps[0]);
    assert steps[..0] == [] && input.history + [] == input.history;
  }

  /** A turn made no step exactly when it was stillborn. */
  lemma StepsOrStillborn(input: Turn.TurnInput, stopAt: Option<nat>, result: Turn.TurnResult, steps: seq<Turn.Step>)
    requires Turn.StepsOk(steps) && Turn.Generated(input, steps)
    requires result.updatedHistory == input.history + Turn.Messages(steps) && |steps| <= Max(0, input.maxSteps)
    requires match result.stopReason
             case Completed => steps != []
             case MaxSteps => |steps| == Max(0, input.maxSteps)
             case Aborted => Scheduler.Seen(stopAt, Turn.Checks(steps))
             case Error => input.generate(result.updatedHistory, |steps| + 1).Failed?
    requires stopAt == Some(0) ==> steps == []
    ensures steps == [] <==> Stillborn(input, stopAt)
  {
    hide Turn.StepOk, Turn.Generated, Turn.Messages;
    if steps == [] {
      NothingSaid();
      assert input.history + [] == input.history;
    } else {
      hide Turn.Checks;
      FirstStep(input, steps);
    }
  }

  lemma {:induction false} StopIsCalled(hs: seq<Happening>)
    ensures StopOf(hs).Some? <==> exists k :: 0 <= k < |hs| && hs[k].CancelCalled?
    decreases |hs|
  {
    if hs != [] {
      StopIsCalled(hs[1..]);
      if exists k :: 0 <= k < |hs| && hs[k].CancelCalled? {
        var k :| 0 <= k < |hs| && hs[k].CancelCalled?;
        assert k > 0 ==> hs[1..][k - 1] == hs[k];
      }
      if exists k :: 0 <= k < |hs[1..]| && hs[1..][k].CancelCalled? {
        var k :| 0 <= k < |hs[1..]| && hs[1..][k].CancelCalled?;
        assert hs[k + 1].CancelCalled?;
      }
    }
  }

  // ------------------------------------------------------------------
  // What a prompt keeps, and what a resume brings back
  // ------------------------------------------------------------------

  lemma AnswersInPrefix(h: seq<Message>, more: seq<Message>)
    requires WellFormedHistory(h + more)
    ensures WellFormedHistory(h)
  {
    var g := h + more;
    forall t: nat | t < |h| && h[t].role == Role.Tool ensures exists a: nat :: AnswersAt(h, a, t) {
      assert g[t] == h[t];
      var a: nat :| AnswersAt(g, a, t);
      assert forall j | 0 <= j < |h| :: g[j] == h[j];
      assert AnswersAt(h, a, t);
    }
  }

  lemma UserKeepsAnswers(h: seq<Message>, user: Message)
    requires WellFormedHistory(h) && user.role == User
    ensures WellFormedHistory(h + [user])
  {
    var g := h + [user];
    forall t: nat | t < |g| && g[t].role == Role.Tool ensures exists a: nat :: AnswersAt(g, a, t) {
      assert g[t] == h[t];
      var a: nat :| AnswersAt(h, a, t);
      assert AnswersAt(g, a, t);
    }
  }

  /** After a prompt every tool message still has its call, unless the
      compaction before the turn kept a tail that begins with a tool message. */
  lemma PromptKeepsAnswers(history: seq<Message>, text: string, cfg: CompactionConfig,
                           summarize: string -> Result<string, string>, steps: seq<Turn.Step>)
    requires WellFormedHistory(history) && Turn.StepsOk(steps)
    ensures var user := UserMessage(text);
            var start := TailStart(|history|, cfg.retainTail);
            WellFormedHistory(BetweenTurns(history, user, cfg, summarize) + [user] + Turn.Messages(steps))
            <==> !Compacts(history, user, cfg, summarize) || start == |history| || history[start].role != Role.Tool
  {
    hide WellFormedHistory, Turn.StepOk, Turn.Messages, Compacted;
    var user := UserMessage(text);
    var base := BetweenTurns(history, user, cfg, summarize);
    if Compacts(history, user, cfg, summarize) {
      CompactionAccount(Some(summarize), history, cfg);
      CompactionKeepsAnswers(Compaction(Some(summarize), history, cfg).value.value.summary, history, cfg.retainTail);
    }
    hide Compacts, BetweenTurns;
    if WellFormedHistory(base) {
      UserKeepsAnswers(base, user);
      TurnKeepsHistory(base + [user], steps);
    }
    if WellFormedHistory(base + [user] + Turn.Messages(steps)) {
      assert base + [user] + Turn.Messages(steps) == base + ([user] + Turn.Messages(steps));
      AnswersInPrefix(base, [user] + Turn.Messages(steps));
    }
  }

  lemma MessageIsIn(before: seq<AgentRecord>, msg: Message)
    ensures EventLog.MessagesIn(before + [AppendMessage(msg)]) == EventLog.MessagesIn(before) + [msg]
  {
    assert (before + [AppendMessage(msg)])[..|before|] == before;
  }

  lemma HoldsOneMore(log: Option<seq<AgentRecord>>, messages: seq<Message>, msg: Message)
    ensures Holds(Grown(log, [AppendMessage(msg)]), messages + [msg]) <==> Holds(log, messages)
  {
    hide EventLog.MessagesIn;
    if log.Some? {
      MessageIsIn(log.value, msg);
      SameEnd(EventLog.MessagesIn(log.value), messages, msg);
    }
  }

  // ------------------------------------------------------------------
  // What a replay puts into the memory
  // ------------------------------------------------------------------

  /** The memory while a log is replayed: messages and cached count. */
  datatype Kept = Kept(messages: seq<Message>, tokens: nat)

  /** The callback of Resume: messages enter the memory, other records do nothing. */
  function Remember(kept: Kept, record: AgentRecord): EventLog.Applied<Kept> {
    EventLog.Applied(match record
                     case AppendMessage(m) => Kept(kept.messages + [m], kept.tokens + MessageTokens(m))
                     case _ => kept,
                     [], true)
  }

  lemma OwnMessage(record: AgentRecord)
    ensures EventLog.MessagesIn([record]) == if record.AppendMessage? then [record.message] else []
  {
    assert [record][..0] == [] && EventLog.MessagesIn([]) == [];
  }

  lemma RememberOne(messages: seq<Message>, record: AgentRecord)
    ensures var all := messages + EventLog.MessagesIn([record]);
            Remember(Kept(messages, Tokens(messages)), record) == EventLog.Applied(Kept(all, Tokens(all)), [], true)
  {
    hide MessageTokens, Tokens, EventLog.MessagesIn;
    OwnMessage(record);
    if record.AppendMessage? {
      TokensSnoc(messages, record.message);
    } else {
      assert messages + [] == messages;
    }
  }

  lemma FoldNothing(kept: Kept)
    ensures EventLog.Fold(Remember, kept, []) == (kept, true) && EventLog.MessagesIn([]) == []
  {
  }

  lemma FoldStep(kept: Kept, next: Kept, records: seq<AgentRecord>)
    requires records != [] && Remember(kept, records[0]) == EventLog.Applied(next, [], true)
    ensures EventLog.Fold(Remember, kept, records) == EventLog.Fold(Remember, next, records[1..])
  {
    hide Remember;
  }

  lemma {:induction false} FoldRemembers(messages: seq<Message>, records: seq<AgentRecord>)
    ensures var all := messages + EventLog.MessagesIn(records);
            EventLog.Fold(Remember, Kept(messages, Tokens(messages)), records) == (Kept(all, Tokens(all)), true)
    decreases |records|
  {
    hide Remember, Tokens, EventLog.MessagesIn, EventLog.Fold;
    if records == [] {
      FoldNothing(Kept(messages, Tokens(messages)));
      assert messages + [] == messages;
    } else {
      var (first, rest) := ([records[0]], records[1..]);
      var next := messages + EventLog.MessagesIn(first);
      RememberOne(messages, records[0]);
      FoldStep(Kept(messages, Tokens(messages)), Kept(next, Tokens(next)), records);
      FoldRemembers(next, rest);
      assert first + rest == records;
      EventLog.MessagesInConcat(first, rest);
      assert next + EventLog.MessagesIn(rest) == messages + EventLog.MessagesIn(records);
    }
  }

  /** Replaying a readable log fills an empty memory with its messages, and counts
      them right. */
  lemma ReplayRemembers(lines: seq<EventLog.Line>)
    ensures Tokens([]) == 0
    ensures EventLog.ReadRecords(lines).Ok? ==>
              var all := EventLog.MessagesIn(EventLog.Payloads(EventLog.ReadRecords(lines).value));
              EventLog.Fold(Remember, Kept([], 0), EventLog.Payloads(EventLog.ReadRecords(lines).value))
              == (Kept(all, Tokens(all)), true)
  {
    assert Tokens([]) == 0;
    hide Tokens, EventLog.ReadRecords, EventLog.MessagesIn, EventLog.Fold, Remember;
    if EventLog.ReadRecords(lines).Ok? {
      var records := EventLog.Payloads(EventLog.ReadRecords(lines).value);
      FoldRemembers([], records);
      assert [] + EventLog.MessagesIn(records) == EventLog.MessagesIn(records);
    }
  }

  lemma SameEnd(a: seq<Message>, b: seq<Message>, msg: Message)
    ensures a + [msg] == b + [msg] <==> a == b
  {
    if a + [msg] == b + [msg] {
      assert a == (a + [msg])[..|a|] && b == (b + [msg])[..|b|];
    }
  }

  /** Of a turn only the prompt comes back on a resume: a turn from base leaves a
      conversation that its log reproduces exactly when the log held base, which it
      does not after a clear or a compaction that changed something, and the turn
      made no step. */
  lemma ResumeAfterPrompt(before: seq<AgentRecord>, turnId: nat, user: Message, happenings: seq<Happening>,
                          base: seq<Message>, steps: seq<Turn.Step>)
    requires Turn.StepsOk(steps) && user.role == User
    ensures EventLog.MessagesIn(before + TurnRecords(turnId, user, happenings)) == EventLog.MessagesIn(before) + [user]
    ensures EventLog.MessagesIn(before + TurnRecords(turnId, user, happenings)) == base + [user] + Turn.Messages(steps)
        <==> EventLog.MessagesIn(before) == base && steps == []
  {
    hide EventLog.MessagesIn, Turn.StepOk, Turn.Messages, TurnRecords;
    EventLog.MessagesInConcat(before, TurnRecords(turnId, user, happenings));
    OwnMessages(turnId, user, happenings);
    var (kept, said) := (EventLog.MessagesIn(before), Turn.Messages(steps));
    if steps == [] {
      NothingSaid();
      assert base + [user] + [] == base + [user];
      SameEnd(kept, base, user);
    } else {
      LastSpeaker(steps);
      var all := base + [user] + said;
      assert all[|all| - 1] == said[|said| - 1];
      assert (kept + [user])[|kept|] == user;
    }
  }

  lemma PromptedHolds(before: Option<seq<AgentRecord>>, turnId: nat, user: Message, happenings: seq<Happening>,
                      base: seq<Message>, steps: seq<Turn.Step>)
    requires Turn.StepsOk(steps) && user.role == User
    ensures Holds(Grown(before, TurnRecords(turnId, user, happenings)), base + [user] + Turn.Messages(steps))
        <==> Holds(before, base) && steps == []
  {
    hide EventLog.MessagesIn, Turn.StepOk, Turn.Messages, TurnRecords;
    if before.Some? { ResumeAfterPrompt(before.value, turnId, user, happenings, base, steps); }
  }

  lemma PromptedMessage(turnId: nat, user: Message)
    ensures EventLog.MessagesIn(PromptRecords(turnId, user)) == [user]
  {
    hide TurnName, EventLog.MessagesIn;
    var (prompt, said) := (TurnPrompt(TurnName(turnId), user.content, 0), AppendMessage(user));
    assert PromptRecords(turnId, user) == [prompt] + [said];
    OwnMessage(prompt);
    OwnMessage(said);
    EventLog.MessagesInConcat([prompt], [said]);
    assert [] + [user] == [user];
  }

  lemma OwnMessages(turnId: nat, user: Message, happenings: seq<Happening>)
    ensures EventLog.MessagesIn(TurnRecords(turnId, user, happenings)) == [user]
  {
    hide PromptRecords, EventLog.MessagesIn;
    PromptedMessage(turnId, user);
    EventLog.NoMessagesIn(HappeningRecords(happenings));
    hide HappeningRecords;
    EventLog.MessagesInConcat(PromptRecords(turnId, user), HappeningRecords(happenings));
    assert [user] + [] == [user];
  }

  lemma NothingSaid()
    ensures Turn.Messages([]) == []
  {
  }

  /** A turn that made a step does not end in a user message. */
  lemma LastSpeaker(steps: seq<Turn.Step>)
    requires Turn.StepsOk(steps) && steps != []
    ensures var said := Turn.Messages(steps); said != [] && said[|said| - 1].role != User
  {
    var s := steps[|steps| - 1];
    assert Turn.StepOk(s);
    Turn.IsStreamed(s);
    hide Turn.StepOk;
    var own := Turn.StepMessages(s);
    assert own[|own| - 1].role != User;
  }
}
