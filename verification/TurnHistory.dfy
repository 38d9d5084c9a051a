/** What the steps of a turn mean for the plain list of messages it leaves. */
module TurnHistory {
  import opened Basics
  import opened Llm
  import opened TurnLoop

  /** The message at t is a tool message that answers, by its position, a call of
      the assistant message at a, with only tool messages in between. */
  predicate AnswersAt(h: seq<Message>, a: nat, t: nat) {
    && a < t < |h| && h[a].role == Assistant
    && t - a - 1 < |h[a].toolCalls|
    && h[t].toolCallId == Some(h[a].toolCalls[t - a - 1].id)
    && forall j | a < j <= t :: h[j].role == Role.Tool
  }

  lemma {:induction false} Placed(steps: seq<Step>, k: nat) returns (p: nat)
    requires StepsOk(steps) && k < |steps|
    ensures p == |Messages(steps[..k])|
    ensures p + |StepMessages(steps[k])| <= |Messages(steps)|
    ensures Messages(steps)[p..p + |StepMessages(steps[k])|] == StepMessages(steps[k])
    ensures k + 1 < |steps| ==> p + |StepMessages(steps[k])| == |Messages(steps[..k + 1])| < |Messages(steps)|
    ensures k + 1 == |steps| ==> p + |StepMessages(steps[k])| == |Messages(steps)|
    decreases |steps|
  {
    hide StepOk, StepMessages;
    var n := |steps| - 1;
    if k == n {
      p := |Messages(steps[..n])|;
    } else {
      assert steps[..n][..k] == steps[..k] && steps[..n][..k + 1] == steps[..k + 1];
      p := Placed(steps[..n], k);
      FirstIsAssistant(steps[n]);
      if k + 1 == n {
        assert steps[..n] == steps[..k + 1];
      }
    }
  }

  /** A history keeps its answers when it grows. */
  lemma AnswersStay(h: seq<Message>, more: seq<Message>, a: nat, t: nat)
    requires AnswersAt(h, a, t)
    ensures AnswersAt(h + more, a, t)
  {
    assert forall j | 0 <= j < |h| :: (h + more)[j] == h[j];
  }

  /** Every tool message of a turn answers the matching call of the assistant
      message before it. */
  lemma {:induction false} ToolMessagesAnswer(steps: seq<Step>, t: nat) returns (a: nat)
    requires StepsOk(steps) && t < |Messages(steps)| && Messages(steps)[t].role == Role.Tool
    ensures AnswersAt(Messages(steps), a, t)
    decreases |steps|
  {
    hide StepOk, StepMessages, AnswersAt, Messages;
    var n := LastStep(steps);
    IsStreamed(steps[n]);
    var h, own := Messages(steps[..n]), StepMessages(steps[n]);
    if t < |h| {
      a := ToolMessagesAnswer(steps[..n], t);
      AnswersStay(h, own, a, t);
    } else {
      a := |h|;
      ToolIsAnswer(steps[n], t - |h|);
      assert (h + own)[|h|..|h| + |own|] == own;
      AnswersMoved(h + own, own, |h|, 0, t - |h|);
    }
  }

  lemma LastStep(steps: seq<Step>) returns (n: nat)
    requires StepsOk(steps) && Messages(steps) != []
    ensures |steps| == n + 1
    ensures Messages(steps) == Messages(steps[..n]) + StepMessages(steps[n])
  {
    n := |steps| - 1;
    hide StepMessages, StepOk;
  }

  lemma ToolIsAnswer(s: Step, j: nat)
    requires StepOk(s) && j < |StepMessages(s)| && StepMessages(s)[j].role == Role.Tool
    ensures AnswersAt(StepMessages(s), 0, j)
  {
    FirstIsAssistant(s);
    hide StepOk, StepMessages, AnswersAt;
    StepAnswers(s, j - 1);
  }

  lemma AnswersMoved(h: seq<Message>, part: seq<Message>, p: nat, a: nat, t: nat)
    requires p + |part| <= |h| && h[p..p + |part|] == part && AnswersAt(part, a, t)
    ensures AnswersAt(h, p + a, p + t)
  {
    assert forall j | 0 <= j < |part| :: part[j] == h[p..p + |part|][j];
    assert h[p + a] == part[a] && h[p + t] == part[t];
    forall j | p + a < j <= p + t ensures h[j].role == Role.Tool {
      assert h[j] == part[j - p];
    }
  }

  lemma StepAnswers(s: Step, j: nat)
    requires StepOk(s) && j < |s.answers|
    ensures AnswersAt(StepMessages(s), 0, 1 + j)
  {
  }

  /** A part of a history that begins with an assistant message and its answers. */
  lemma AnswersHere(h: seq<Message>, s: Step, p: nat)
    requires StepOk(s) && p + |StepMessages(s)| <= |h| && h[p..p + |StepMessages(s)|] == StepMessages(s)
    ensures h[p].role == Assistant && h[p].toolCalls == PendingCalls(s.generation)
    ensures forall t: nat | p < t <= p + |s.answers| :: AnswersAt(h, p, t)
  {
    hide PendingCalls, StepMessages, RunsTools, AnswersAt, StepOk;
    IsStreamed(s);
    FirstIsAssistant(s);
    var part := StepMessages(s);
    assert h[p] == h[p..p + |part|][0];
    forall t: nat | p < t <= p + |s.answers| ensures AnswersAt(h, p, t) {
      StepAnswers(s, t - p - 1);
      AnswersMoved(h, part, p, 0, t - p);
    }
  }

  /** In a fully answered step every pending call has exactly one answer: the
      assistant message is followed by one tool message per call, in order, and
      then by the next assistant message or the end. */
  lemma EveryCallAnsweredOnce(steps: seq<Step>, k: nat)
    requires StepsOk(steps) && k < |steps| && FullyAnswered(steps[k]) && RunsTools(steps[k].generation)
    ensures var h := Messages(steps); var p := |Messages(steps[..k])|; var calls := PendingCalls(steps[k].generation);
            && p + |calls| < |h|
            && h[p].role == Assistant && h[p].toolCalls == calls
            && (forall t: nat | p < t <= p + |calls| :: AnswersAt(h, p, t))
            && (p + 1 + |calls| < |h| ==> h[p + 1 + |calls|].role == Assistant)
  {
    hide Messages, PendingCalls, StepMessages, RunsTools, AnswersAt, StepOk;
    var p := Placed(steps, k);
    FirstIsAssistant(steps[k]);
    AnswersHere(Messages(steps), steps[k], p);
    if k + 1 < |steps| {
      var q := Placed(steps, k + 1);
      FirstIsAssistant(steps[k + 1]);
      AnswersHere(Messages(steps), steps[k + 1], q);
    }
  }

  lemma FirstIsAssistant(s: Step)
    requires StepOk(s)
    ensures |StepMessages(s)| == 1 + |s.answers|
    ensures StepMessages(s)[0].role == Assistant && StepMessages(s)[0].toolCalls == PendingCalls(s.generation)
  {
  }

  /** A history in which every tool message has its call. */
  ghost predicate WellFormedHistory(h: seq<Message>) {
    forall t: nat | t < |h| && h[t].role == Role.Tool :: exists a: nat :: AnswersAt(h, a, t)
  }

  /** A turn keeps the history well formed. */
  lemma TurnKeepsHistory(h: seq<Message>, steps: seq<Step>)
    requires WellFormedHistory(h) && StepsOk(steps)
    ensures WellFormedHistory(h + Messages(steps))
  {
    hide Messages, StepOk, AnswersAt;
    var more := Messages(steps);
    var g := h + more;
    forall t: nat | t < |g| && g[t].role == Role.Tool ensures exists a: nat :: AnswersAt(g, a, t) {
      if t < |h| {
        var a: nat :| AnswersAt(h, a, t);
        AnswersStay(h, more, a, t);
      } else {
        var a := ToolMessagesAnswer(steps, t - |h|);
        assert g[|h|..|h| + |more|] == more;
        AnswersMoved(g, more, |h|, a, t - |h|);
      }
    }
  }
}
