/** A stop only cuts a turn short: what it has said by then is the beginning of what
    it would have said. */
module TurnStop {
  import opened Basics
  import opened Llm
  import opened ToolEnv
  import opened ToolScheduler
  import opened TurnLoop

  lemma {:induction false} SequentialLength(env: Env, calls: seq<ToolCall>, fuel: nat, w: World)
    requires Serial.Sequential(env, calls, fuel, w).Some?
    ensures |Serial.Sequential(env, calls, fuel, w).value.0| == |calls|
    decreases |calls|
  {
    hide Serial.Settle, Resolve, PostHooks;
    if calls != [] { SequentialLength(env, calls[..|calls| - 1], fuel, w); }
  }

  /** Running fewer of the calls gives fewer of the results. */
  lemma {:induction false} FewerCalls(env: Env, calls: seq<ToolCall>, n: nat, fuel: nat, w: World)
    requires n <= |calls| && Serial.Sequential(env, calls, fuel, w).Some?
    ensures Serial.Sequential(env, calls[..n], fuel, w).Some?
    ensures var all := Serial.Sequential(env, calls, fuel, w).value.0;
            |all| == |calls| && Serial.Sequential(env, calls[..n], fuel, w).value.0 == all[..n]
    decreases |calls|
  {
    SequentialLength(env, calls, fuel, w);
    if n == |calls| {
      assert calls[..n] == calls;
    } else {
      hide Serial.Settle, Resolve, PostHooks;
      var m := |calls| - 1;
      FewerCalls(env, calls[..m], n, fuel, w);
      assert calls[..m][..n] == calls[..n];
      var (all, before) := (Serial.Sequential(env, calls, fuel, w).value.0, Serial.Sequential(env, calls[..m], fuel, w).value.0);
      assert all[..m] == before && all[..n] == before[..n];
    }
  }

  lemma ToolMessagesPrefix(rs: seq<Scheduled>, n: nat)
    requires n <= |rs|
    ensures ToolMessages(rs[..n]) <= ToolMessages(rs)
  {
    hide ToolMessage;
    assert forall k | 0 <= k < n :: ToolMessages(rs[..n])[k] == ToolMessages(rs)[k];
  }

  lemma PrefixOf(a: seq<Message>, b: seq<Message>, c: seq<Message>)
    requires b <= c
    ensures a + b <= a + c && a <= a + c
  {
  }

  /** The whole batch is answered when no stop comes. */
  lemma WholeBatch(input: TurnInput, check: nat, g: Generation, fuel: nat, w: World)
    requires RunsTools(g) && Serial.Sequential(input.env, PendingCalls(g), fuel, w).Some?
    ensures var (all, w1) := Serial.Sequential(input.env, PendingCalls(g), fuel, w).value;
            Answers(input, None, check, g, w, fuel, all, all, w1)
  {
    hide Serial.Sequential, RunsTools, PendingCalls;
    HasCalls(g);
    SequentialLength(input.env, PendingCalls(g), fuel, w);
    var calls := PendingCalls(g);
    assert calls[..|calls|] == calls;
    var all := Serial.Sequential(input.env, calls, fuel, w).value.0;
    assert all[..|all|] == all;
  }

  /** And what is answered when one comes is the beginning of that. */
  lemma CutBatch(input: TurnInput, stopAt: Option<nat>, check: nat, g: Generation, fuel: nat, w: World)
      returns (results: seq<Scheduled>, answers: seq<Scheduled>, w1: World)
    requires RunsTools(g) && Serial.Sequential(input.env, PendingCalls(g), fuel, w).Some?
    ensures Answers(input, stopAt, check, g, w, fuel, results, answers, w1)
    ensures var whole := Serial.Sequential(input.env, PendingCalls(g), fuel, w).value;
            && |whole.0| == |PendingCalls(g)| && answers <= results <= whole.0
            && (|results| == |PendingCalls(g)| ==> results == whole.0 && w1 == whole.1)
  {
    hide Serial.Sequential, RunsTools, PendingCalls, Unseen, AnswerCount;
    HasCalls(g);
    var calls := PendingCalls(g);
    var n := Unseen(stopAt, check, |calls|);
    FewerCalls(input.env, calls, n, fuel, w);
    assert n == |calls| ==> calls[..n] == calls;
    results, w1 := Serial.Sequential(input.env, calls[..n], fuel, w).value.0, Serial.Sequential(input.env, calls[..n], fuel, w).value.1;
    answers := results[..AnswerCount(stopAt, check, |calls|)];
  }

  lemma HasBatch(input: TurnInput, stopAt: Option<nat>, fuel: nat, step: nat, check: nat, h: seq<Message>, usage: TokenUsage, w: World)
    requires 1 <= step <= input.maxSteps && !Seen(stopAt, check) && RunsTools(input.generate(h, step))
    requires SequentialTurn(input, stopAt, fuel, step, check, h, usage, w).Some?
    ensures var g := input.generate(h, step);
            g.Streamed? && Serial.Sequential(input.env, PendingCalls(g)[..Unseen(stopAt, check + 1, |PendingCalls(g)|)], fuel, w).Some?
  {
    hide Serial.Sequential, AssistantMessage, ToolMessages, PendingCalls, StepChecks, Seen, AddUsage, GoesOn, Unseen, AnswerCount;
  }

  lemma TextUnfolds(input: TurnInput, stopAt: Option<nat>, fuel: nat, step: nat, check: nat, h: seq<Message>, usage: TokenUsage, w: World)
    requires 1 <= step <= input.maxSteps && !Seen(stopAt, check)
    requires var g := input.generate(h, step); g.Streamed? && !RunsTools(g)
    ensures var g := input.generate(h, step);
            var (h1, total) := (h + [AssistantMessage(g)], AddUsage(usage, g.usage));
            SequentialTurn(input, stopAt, fuel, step, check, h, usage, w)
            == if GoesOn(input, g, step) then SequentialTurn(input, stopAt, fuel, step + 1, check + 1, h1, total, w)
               else Some((TurnResult(StopReason.Completed, step, total, h1, ""), w))
  {
    hide AssistantMessage, RunsTools, GoesOn, AddUsage, Seen;
  }

  lemma NoStop(check: nat, n: nat)
    ensures Unseen(None, check, n) == n && !Seen(None, check)
  {
  }

  /** A turn never forgets. */
  lemma {:induction false} HistoryGrows(input: TurnInput, fuel: nat, step: nat, check: nat, h: seq<Message>, usage: TokenUsage, w: World)
    requires step >= 1 && SequentialTurn(input, None, fuel, step, check, h, usage, w).Some?
    ensures var r := SequentialTurn(input, None, fuel, step, check, h, usage, w).value.0;
            h <= r.updatedHistory && step - 1 <= r.stepsExecuted
    decreases input.maxSteps - step
  {
    if step <= input.maxSteps && input.generate(h, step).Streamed? {
      hide SequentialTurn, RunsTools;
      if RunsTools(input.generate(h, step)) {
        ToolsGrow(input, fuel, step, check, h, usage, w);
      } else {
        TextGrows(input, fuel, step, check, h, usage, w);
      }
    }
  }

  lemma {:induction false} TextGrows(input: TurnInput, fuel: nat, step: nat, check: nat, h: seq<Message>, usage: TokenUsage, w: World)
    requires 1 <= step <= input.maxSteps && SequentialTurn(input, None, fuel, step, check, h, usage, w).Some?
    requires input.generate(h, step).Streamed? && !RunsTools(input.generate(h, step))
    ensures var r := SequentialTurn(input, None, fuel, step, check, h, usage, w).value.0;
            h <= r.updatedHistory && step - 1 <= r.stepsExecuted
    decreases input.maxSteps - step, 0
  {
    hide SequentialTurn, AssistantMessage, RunsTools, GoesOn, AddUsage;
    var g := input.generate(h, step);
    TextUnfolds(input, None, fuel, step, check, h, usage, w);
    if GoesOn(input, g, step) {
      HistoryGrows(input, fuel, step + 1, check + 1, h + [AssistantMessage(g)], AddUsage(usage, g.usage), w);
    }
  }

  lemma {:induction false} ToolsGrow(input: TurnInput, fuel: nat, step: nat, check: nat, h: seq<Message>, usage: TokenUsage, w: World)
    requires 1 <= step <= input.maxSteps && SequentialTurn(input, None, fuel, step, check, h, usage, w).Some?
    requires RunsTools(input.generate(h, step))
    ensures var r := SequentialTurn(input, None, fuel, step, check, h, usage, w).value.0;
            h <= r.updatedHistory && step - 1 <= r.stepsExecuted
    decreases input.maxSteps - step, 0
  {
    hide SequentialTurn, AssistantMessage, ToolMessages, RunsTools, PendingCalls, AddUsage, StepChecks, Answers, Serial.Sequential;
    hide Unseen;
    var g := input.generate(h, step);
    HasCalls(g);
    var calls := PendingCalls(g);
    NoStop(check + 1, |calls|);
    HasBatch(input, None, fuel, step, check, h, usage, w);
    assert calls[..|calls|] == calls;
    var (all, w1) := Serial.Sequential(input.env, calls, fuel, w).value;
    WholeBatch(input, check + 1, g, fuel, w);
    BatchUnfolds(input, None, fuel, step, check, h, usage, w, all, all, w1);
    HistoryGrows(input, fuel, step + 1, check + StepChecks(g), h + [AssistantMessage(g)] + ToolMessages(all),
                 AddUsage(usage, g.usage), w1);
  }

  /** Behind a stop that was seen nothing is added. */
  lemma EndsNow(input: TurnInput, stopAt: Option<nat>, fuel: nat, step: nat, check: nat, h: seq<Message>, usage: TokenUsage, w: World)
    requires step >= 1 && Seen(stopAt, check)
    ensures SequentialTurn(input, stopAt, fuel, step, check, h, usage, w)
         == Some((TurnResult(if step > input.maxSteps then MaxSteps else Aborted, step - 1, usage, h, ""), w))
  {
  }

  /** r is what a stop leaves of the turn that would end in full. */
  predicate CutFrom(r: (TurnResult, World), full: (TurnResult, World)) {
    && r.0.updatedHistory <= full.0.updatedHistory && r.0.stepsExecuted <= full.0.stepsExecuted
    && (r == full || r.0.stopReason == Aborted || r.0.stopReason == MaxSteps)
  }

  /** Whatever check first sees the stop, the turn ends, and its history is a beginning
      of the one without a stop; a turn that ends by itself ends exactly like it. */
  lemma {:induction false} StopTruncates(input: TurnInput, stopAt: Option<nat>, fuel: nat, step: nat, check: nat,
                                         h: seq<Message>, usage: TokenUsage, w: World)
    requires step >= 1 && SequentialTurn(input, None, fuel, step, check, h, usage, w).Some?
    ensures SequentialTurn(input, stopAt, fuel, step, check, h, usage, w).Some?
    ensures CutFrom(SequentialTurn(input, stopAt, fuel, step, check, h, usage, w).value,
                    SequentialTurn(input, None, fuel, step, check, h, usage, w).value)
    decreases input.maxSteps - step
  {
    if step <= input.maxSteps {
      if Seen(stopAt, check) {
        hide SequentialTurn;
        EndsNow(input, stopAt, fuel, step, check, h, usage, w);
        HistoryGrows(input, fuel, step, check, h, usage, w);
      } else if input.generate(h, step).Streamed? {
        hide SequentialTurn, CutFrom;
        if RunsTools(input.generate(h, step)) {
          CutTools(input, stopAt, fuel, step, check, h, usage, w);
        } else {
          CutText(input, stopAt, fuel, step, check, h, usage, w);
        }
      }
    }
  }

  lemma {:induction false} CutText(input: TurnInput, stopAt: Option<nat>, fuel: nat, step: nat, check: nat,
                                   h: seq<Message>, usage: TokenUsage, w: World)
    requires 1 <= step <= input.maxSteps && SequentialTurn(input, None, fuel, step, check, h, usage, w).Some?
    requires !Seen(stopAt, check) && input.generate(h, step).Streamed? && !RunsTools(input.generate(h, step))
    ensures SequentialTurn(input, stopAt, fuel, step, check, h, usage, w).Some?
    ensures CutFrom(SequentialTurn(input, stopAt, fuel, step, check, h, usage, w).value,
                    SequentialTurn(input, None, fuel, step, check, h, usage, w).value)
    decreases input.maxSteps - step, 0
  {
    hide SequentialTurn, AssistantMessage, RunsTools, GoesOn, AddUsage;
    var g := input.generate(h, step);
    TextUnfolds(input, None, fuel, step, check, h, usage, w);
    TextUnfolds(input, stopAt, fuel, step, check, h, usage, w);
    if GoesOn(input, g, step) {
      hide CutFrom;
      StopTruncates(input, stopAt, fuel, step + 1, check + 1, h + [AssistantMessage(g)], AddUsage(usage, g.usage), w);
    }
  }

  lemma {:induction false} CutTools(input: TurnInput, stopAt: Option<nat>, fuel: nat, step: nat, check: nat,
                                    h: seq<Message>, usage: TokenUsage, w: World)
    requires 1 <= step <= input.maxSteps && SequentialTurn(input, None, fuel, step, check, h, usage, w).Some?
    requires !Seen(stopAt, check) && RunsTools(input.generate(h, step))
    ensures SequentialTurn(input, stopAt, fuel, step, check, h, usage, w).Some?
    ensures CutFrom(SequentialTurn(input, stopAt, fuel, step, check, h, usage, w).value,
                    SequentialTurn(input, None, fuel, step, check, h, usage, w).value)
    decreases input.maxSteps - step, 0
  {
    hide SequentialTurn, AssistantMessage, ToolMessages, RunsTools, PendingCalls, GoesOn, AddUsage, StepChecks, Answers, Serial.Sequential;
    hide Unseen, AnswerCount;
    var g := input.generate(h, step);
    HasCalls(g);
    ToolChecks(g);
    var calls := PendingCalls(g);
    NoStop(check + 1, |calls|);
    HasBatch(input, None, fuel, step, check, h, usage, w);
    assert calls[..|calls|] == calls;
    var (all, w1) := Serial.Sequential(input.env, calls, fuel, w).value;
    WholeBatch(input, check + 1, g, fuel, w);
    BatchUnfolds(input, None, fuel, step, check, h, usage, w, all, all, w1);
    var results, answers, w2 := CutBatch(input, stopAt, check + 1, g, fuel, w);
    BatchUnfolds(input, stopAt, fuel, step, check, h, usage, w, results, answers, w2);
    AnswersAre(input, stopAt, check + 1, g, w, fuel, results, answers, w2);
    BatchCases(stopAt, check, |calls|);
    var (h1, total, next) := (h + [AssistantMessage(g)], AddUsage(usage, g.usage), check + StepChecks(g));
    if |answers| == |calls| {
      assert answers == all;
      hide CutFrom;
      StopTruncates(input, stopAt, fuel, step + 1, next, h1 + ToolMessages(all), total, w1);
    } else {
      assert answers == all[..|answers|];
      ToolMessagesPrefix(all, |answers|);
      PrefixOf(h1, ToolMessages(answers), ToolMessages(all));
      HistoryGrows(input, fuel, step + 1, next, h1 + ToolMessages(all), total, w1);
      if |answers| == |results| {
        EndsNow(input, stopAt, fuel, step + 1, next, h1 + ToolMessages(answers), total, w2);
      }
    }
  }

  lemma AnswersAre(input: TurnInput, stopAt: Option<nat>, check: nat, g: Generation, w: World, fuel: nat,
                   results: seq<Scheduled>, answers: seq<Scheduled>, w1: World)
    requires Answers(input, stopAt, check, g, w, fuel, results, answers, w1)
    ensures g.Streamed?
    ensures |results| == Unseen(stopAt, check, |PendingCalls(g)|) && |answers| == AnswerCount(stopAt, check, |PendingCalls(g)|)
  {
    hide Serial.Sequential, PendingCalls, Unseen, AnswerCount;
  }
}
