/** The token estimate, the conversation with its cached count, and compaction. */
module TokenEstimate {
  import opened Basics
  import opened Llm
  import opened Lines

  function Textual(part: ContentPart): Option<string> {
    match part
    case TextPart(text) => Some(text)
    case ImagePart(url, _, _) => Some("[image: " + url + "]")
    case VideoPart(url, _) => Some("[video: " + url + "]")
    case ThinkPart(_, _) => None
  }

  /** The visible text of a message: one line per part that has any. */
  function ConcatTextParts(parts: seq<ContentPart>): string
    decreases |parts|
  {
    if parts == [] then ""
    else
      var before := ConcatTextParts(parts[..|parts| - 1]);
      var text := Textual(parts[|parts| - 1]);
      if text.None? then before
      else if before != "" then before + "\n" + text.value
      else text.value
  }

  /** What a part shows: a text as it is, images and videos by address, reasoning nothing. */
  function ShownBy(part: ContentPart): seq<string> {
    match part
    case TextPart(text) => [text]
    case ImagePart(url, _, _) => ["[image: " + url + "]"]
    case VideoPart(url, _) => ["[video: " + url + "]"]
    case ThinkPart(_, _) => []
  }

  function Shown(parts: seq<ContentPart>): seq<string>
    decreases |parts|
  {
    if parts == [] then [] else ShownBy(parts[0]) + Shown(parts[1..])
  }

  lemma ShownByIs(part: ContentPart)
    ensures ShownBy(part) == match Textual(part) { case None => [] case Some(text) => [text] }
  {
  }

  function SkipEmpty(texts: seq<string>): seq<string>
    decreases |texts|
  {
    if texts != [] && texts[0] == "" then SkipEmpty(texts[1..]) else texts
  }

  lemma {:induction false} ShownSnoc(parts: seq<ContentPart>)
    requires parts != []
    ensures var n := |parts| - 1; Shown(parts) == Shown(parts[..n]) + ShownBy(parts[n])
    decreases |parts|
  {
    hide ShownBy;
    var n := |parts| - 1;
    if n == 0 {
      assert parts[..0] == [] && parts[1..] == [];
      assert ShownBy(parts[0]) + [] == [] + ShownBy(parts[0]);
    } else {
      ShownSnoc(parts[1..]);
      assert parts[1..][..n - 1] == parts[..n][1..];
      ShownFirst(parts[..n]);
      var (a, b, c) := (ShownBy(parts[0]), Shown(parts[..n][1..]), ShownBy(parts[n]));
      assert a + (b + c) == a + b + c;
    }
  }

  lemma ShownFirst(parts: seq<ContentPart>)
    requires parts != []
    ensures Shown(parts) == ShownBy(parts[0]) + Shown(parts[1..])
  {
    hide ShownBy;
  }

  lemma {:induction false} SkipEmptySnoc(texts: seq<string>, text: string)
    ensures SkipEmpty(texts + [text]) == if SkipEmpty(texts) == [] && text == "" then [] else SkipEmpty(texts) + [text]
    ensures SkipEmpty(texts) != [] ==> SkipEmpty(texts)[0] != ""
    decreases |texts|
  {
    var all := texts + [text];
    if texts == [] {
      assert all[1..] == [];
    } else {
      assert all[1..] == texts[1..] + [text];
      SkipEmptySnoc(texts[1..], text);
    }
  }

  lemma {:induction false} JoinedSnoc(texts: seq<string>, text: string)
    requires texts != []
    ensures Joined(texts + [text]) == Joined(texts) + "\n" + text
    decreases |texts|
  {
    var all := texts + [text];
    assert all[1..] == texts[1..] + [text];
    if |texts| == 1 {
      assert texts[1..] == [] && all[1..] == [text];
    } else {
      JoinedSnoc(texts[1..], text);
    }
  }

  lemma JoinedEmptyIff(texts: seq<string>)
    requires texts != [] ==> texts[0] != ""
    ensures Joined(texts) == "" <==> texts == []
  {
  }

  /** The visible text is what the parts show, one line under the other, without the
      empty ones in front. */
  lemma {:induction false} VisibleText(parts: seq<ContentPart>)
    ensures ConcatTextParts(parts) == Joined(SkipEmpty(Shown(parts)))
    decreases |parts|
  {
    if parts != [] {
      var n := |parts| - 1;
      VisibleText(parts[..n]);
      ShownSnoc(parts);
      ShownByIs(parts[n]);
      var (before, texts) := (Shown(parts[..n]), SkipEmpty(Shown(parts[..n])));
        hide Shown, ShownBy, SkipEmpty, Joined;
      match Textual(parts[n])
      case None => assert before + [] == before;
      case Some(text) =>
        SkipEmptySnoc(before, text);
        JoinedEmptyIff(texts);
        if texts == [] {
          assert texts + [text] == [text];
          JoinedOne(text);
        } else {
          JoinedSnoc(texts, text);
        }
    }
  }

  lemma JoinedOne(text: string)
    ensures Joined([text]) == text && Joined([]) == ""
  {
  }

  /** Four characters to a token, rounded up. */
  function TextTokens(text: string): nat {
    if text == "" then 0 else (|text| + 3) / 4
  }

  function CallTokens(call: ToolCall): nat {
    (|call.id| + |call.name| + |call.arguments|) / 4 + 8
  }

  function CallsTokens(calls: seq<ToolCall>): nat
    decreases |calls|
  {
    if calls == [] then 0 else CallsTokens(calls[..|calls| - 1]) + CallTokens(calls[|calls| - 1])
  }

  function IdTokens(id: Option<string>): nat {
    if id.Some? then TextTokens(id.value) else 0
  }

  function MessageTokens(msg: Message): nat {
    4 + TextTokens(ConcatTextParts(msg.content)) + CallsTokens(msg.toolCalls) + IdTokens(msg.toolCallId)
  }

  function Tokens(msgs: seq<Message>): nat
    decreases |msgs|
  {
    if msgs == [] then 0 else Tokens(msgs[..|msgs| - 1]) + MessageTokens(msgs[|msgs| - 1])
  }

  method EstimateMessage(msg: Message) returns (total: nat)
    ensures total == MessageTokens(msg)
  {
    hide ConcatTextParts, TextTokens;
    total := 4 + TextTokens(ConcatTextParts(msg.content));
    ghost var base := total;
    for i := 0 to |msg.toolCalls|
      invariant total == base + CallsTokens(msg.toolCalls[..i])
    {
      assert msg.toolCalls[..i + 1][..i] == msg.toolCalls[..i];
      total := total + CallTokens(msg.toolCalls[i]);
    }
    assert msg.toolCalls[..|msg.toolCalls|] == msg.toolCalls;
    if msg.toolCallId.Some? { total := total + TextTokens(msg.toolCallId.value); }
  }

  method EstimateTokens(msgs: seq<Message>) returns (total: nat)
    ensures total == Tokens(msgs)
  {
    hide MessageTokens;
    total := 0;
    for i := 0 to |msgs|
      invariant total == Tokens(msgs[..i])
    {
      assert msgs[..i + 1][..i] == msgs[..i];
      var one := EstimateMessage(msgs[i]);
      total := total + one;
    }
    assert msgs[..|msgs|] == msgs;
  }

  lemma {:induction false} TokensConcat(a: seq<Message>, b: seq<Message>)
    ensures Tokens(a + b) == Tokens(a) + Tokens(b)
    decreases |b|
  {
    hide MessageTokens;
    if b == [] {
      assert a + b == a;
    } else {
      assert (a + b)[..|a + b| - 1] == a + b[..|b| - 1];
      TokensConcat(a, b[..|b| - 1]);
    }
  }

  lemma TokensSnoc(msgs: seq<Message>, msg: Message)
    ensures Tokens(msgs + [msg]) == Tokens(msgs) + MessageTokens(msg)
  {
    assert (msgs + [msg])[..|msgs|] == msgs;
  }

  // ------------------------------------------------------------------
  // What the estimate sees
  // ------------------------------------------------------------------

  function Spoken(parts: seq<ContentPart>): seq<ContentPart>
    decreases |parts|
  {
    if parts == [] then []
    else Spoken(parts[..|parts| - 1]) + if parts[|parts| - 1].ThinkPart? then [] else [parts[|parts| - 1]]
  }

  /** Reasoning is free: a message costs what it costs without its think parts. */
  lemma {:induction false} ThinkingIsFree(parts: seq<ContentPart>)
    ensures ConcatTextParts(Spoken(parts)) == ConcatTextParts(parts)
    decreases |parts|
  {
    if parts != [] {
      var n := |parts| - 1;
      ThinkingIsFree(parts[..n]);
      var s := Spoken(parts[..n]);
      if parts[n].ThinkPart? {
        assert s + [] == s;
      } else {
        assert (s + [parts[n]])[..|s|] == s;
      }
    }
  }

  function CallChars(calls: seq<ToolCall>): nat
    decreases |calls|
  {
    if calls == [] then 0
    else CallChars(calls[..|calls| - 1])
         + var c := calls[|calls| - 1]; |c.id| + |c.name| + |c.arguments|
  }

  function MessageChars(msg: Message): nat {
    |ConcatTextParts(msg.content)| + CallChars(msg.toolCalls) + if msg.toolCallId.Some? then |msg.toolCallId.value| else 0
  }

  lemma {:induction false} CallsNotUnderestimated(calls: seq<ToolCall>)
    ensures CallChars(calls) + 29 * |calls| <= 4 * CallsTokens(calls) <= CallChars(calls) + 32 * |calls|
    decreases |calls|
  {
    if calls != [] { CallsNotUnderestimated(calls[..|calls| - 1]); }
  }

  /** The estimate is never below a quarter of the visible characters, and above
      by no more than the fixed overheads and the rounding. */
  lemma MessageNotUnderestimated(msg: Message)
    ensures MessageChars(msg) + 16 <= 4 * MessageTokens(msg) <= MessageChars(msg) + 32 * |msg.toolCalls| + 22
  {
    hide ConcatTextParts, CallChars, CallsTokens;
    CallsNotUnderestimated(msg.toolCalls);
  }
}

module ContextMemory {
  import opened Llm
  import opened TokenEstimate

  class ContextMemory {
    var messages: seq<Message>
    var tokens: nat

    /** The cached count is what a recount would give. */
    ghost predicate Valid()
      reads this
    {
      tokens == Tokens(messages)
    }

    constructor ()
      ensures Valid() && messages == []
    {
      messages, tokens := [], 0;
    }

    method Append(msg: Message)
      requires Valid()
      modifies this
      ensures Valid() && messages == old(messages) + [msg]
    {
      TokensSnoc(messages, msg);
      var more := EstimateMessage(msg);
      tokens := tokens + more;
      messages := messages + [msg];
    }

    method ReplaceAll(msgs: seq<Message>)
      modifies this
      ensures Valid() && messages == msgs
    {
      messages := msgs;
      tokens := EstimateTokens(messages);
    }

    method Clear()
      modifies this
      ensures Valid() && messages == []
    {
      messages := [];
      tokens := 0;
    }
  }
}

module Compactor {
  import opened Basics
  import opened Lines
  import opened Llm
  import opened TokenEstimate
  import opened TurnHistory

  datatype CompactionConfig = CompactionConfig(maxContextTokens: int, compactThreshold: real, retainTail: int)

  datatype CompactionResult = CompactionResult(summary: string, newTokenCount: nat, removedCount: nat)

  datatype CompactError = NoProvider | NegativeTail | GenerateFailed(message: string)

  /** Conversion of a floating-point number to an integer drops the fraction. */
  function Truncate(x: real): int {
    if x >= 0.0 then x.Floor else -((-x).Floor)
  }

  function Threshold(cfg: CompactionConfig): real {
    cfg.maxContextTokens as real * cfg.compactThreshold
  }

  predicate ShouldCompact(usedTokens: int, cfg: CompactionConfig) {
    cfg.maxContextTokens > 0 && usedTokens >= Truncate(Threshold(cfg))
  }

  /** Compaction is due when the used tokens reach the threshold's whole tokens: the
      fraction is dropped, which lowers a positive threshold and raises a negative
      one. */
  lemma ShouldCompactIff(usedTokens: int, cfg: CompactionConfig)
    ensures var x := cfg.maxContextTokens as real * cfg.compactThreshold;
            ShouldCompact(usedTokens, cfg)
            <==> cfg.maxContextTokens > 0 && if x >= 0.0 then (usedTokens + 1) as real > x else usedTokens as real >= x
  {
    hide Truncate;
    TruncatedReached(Threshold(cfg), usedTokens);
  }

  lemma TruncatedReached(x: real, n: int)
    ensures n >= Truncate(x) <==> if x >= 0.0 then (n + 1) as real > x else n as real >= x
  {
    assert x.Floor as real <= x < x.Floor as real + 1.0;
    assert (-x).Floor as real <= -x < (-x).Floor as real + 1.0;
  }

  const SUMMARY_PREFIX := "# Conversation summary\n\n"

  function SummaryMessage(summary: string): Message {
    Message(User, [TextPart(SUMMARY_PREFIX + summary)], None, [])
  }

  /** The messages kept verbatim start here. */
  function TailStart(total: nat, retainTail: int): (start: nat)
    ensures start <= total
  {
    Min(total, Max(0, total - retainTail))
  }

  function Compacted(summary: string, history: seq<Message>, retainTail: int): seq<Message> {
    (if summary == "" then [] else [SummaryMessage(summary)]) + history[TailStart(|history|, retainTail)..]
  }

  method BuildCompactedHistory(summary: string, history: seq<Message>, retainTail: int) returns (out: seq<Message>)
    ensures out == Compacted(summary, history, retainTail)
  {
    out := [];
    if summary != "" {
      out := out + [Message(User, [TextPart(SUMMARY_PREFIX + summary)], None, [])];
    }
    ghost var head := out;
    var total := |history|;
    var start := Max(0, total - retainTail);
    var i := start;
    while i < total
      invariant start <= i && (start <= total ==> i <= total)
      invariant out == head + if start <= total then history[start..i] else []
      decreases total - i
    {
      out := out + [history[i]];
      i := i + 1;
    }
    if start <= total { assert history[start..total] == history[start..]; }
  }

  function RoleTitle(role: Role): string {
    match role
    case User => "User"
    case Assistant => "Assistant"
    case Tool => "Tool"
  }

  function Transcript(prefix: seq<Message>): string
    decreases |prefix|
  {
    if prefix == [] then ""
    else
      var m := prefix[|prefix| - 1];
      Transcript(prefix[..|prefix| - 1]) + ("[" + RoleTitle(m.role) + "]: " + ConcatTextParts(m.content) + "\n")
  }

  method BuildTranscript(prefix: seq<Message>) returns (transcript: string)
    ensures transcript == Transcript(prefix)
  {
    transcript := "";
    for i := 0 to |prefix|
      invariant transcript == Transcript(prefix[..i])
    {
      assert prefix[..i + 1][..i] == prefix[..i];
      var m := prefix[i];
      transcript := transcript + ("[" + RoleTitle(m.role) + "]: " + ConcatTextParts(m.content) + "\n");
    }
    assert prefix[..|prefix|] == prefix;
  }

  /** What compaction comes to; summarize gives the summary of a transcript. */
  function Compaction(summarize: Option<string -> Result<string, string>>, history: seq<Message>, cfg: CompactionConfig)
      : Result<Option<CompactionResult>, CompactError>
  {
    if summarize.None? then Err(NoProvider)
    else if cfg.retainTail < 0 then Err(NegativeTail)
    else if |history| <= cfg.retainTail then Ok(None)
    else
      var n := |history| - cfg.retainTail;
      var reply := summarize.value(Transcript(history[..n]));
      if reply.Err? then Err(GenerateFailed(reply.error))
      else if reply.value == "" then Ok(None)
      else Ok(Some(CompactionResult(reply.value, Tokens(Compacted(reply.value, history, cfg.retainTail)), n)))
  }

  method Compact(summarize: Option<string -> Result<string, string>>, history: seq<Message>, cfg: CompactionConfig)
      returns (r: Result<Option<CompactionResult>, CompactError>)
    ensures r == Compaction(summarize, history, cfg)
  {
    if summarize.None? { return Err(NoProvider); }
    if cfg.retainTail < 0 { return Err(NegativeTail); }
    if |history| <= cfg.retainTail { return Ok(None); }
    var prefixEnd: nat := |history| - cfg.retainTail;
    var transcript := BuildTranscript(history[..prefixEnd]);
    var reply := summarize.value(transcript);
    if reply.Err? { return Err(GenerateFailed(reply.error)); }
    if reply.value == "" { return Ok(None); }
    var compacted := BuildCompactedHistory(reply.value, history, cfg.retainTail);
    var count := EstimateTokens(compacted);
    r := Ok(Some(CompactionResult(reply.value, count, prefixEnd)));
  }

  lemma CompactionCounts(summarize: Option<string -> Result<string, string>>, history: seq<Message>, cfg: CompactionConfig)
    requires Compaction(summarize, history, cfg).Ok? && Compaction(summarize, history, cfg).value.Some?
    ensures var r := Compaction(summarize, history, cfg).value.value;
            var after := Compacted(r.summary, history, cfg.retainTail);
            && 0 < r.removedCount <= |history| && |history| - r.removedCount == cfg.retainTail
            && r.summary != ""
            && after == [SummaryMessage(r.summary)] + history[r.removedCount..]
            && r.newTokenCount == Tokens(after)
            && Tokens(after) == Tokens(history) + MessageTokens(SummaryMessage(r.summary)) - Tokens(history[..r.removedCount])
  {
    hide Tokens, MessageTokens, Transcript, SummaryMessage;
    var n := |history| - cfg.retainTail;
    var summary := summarize.value(Transcript(history[..n])).value;
    assert TailStart(|history|, cfg.retainTail) == n;
    CompactedAccount(summary, history, n);
  }

  lemma SummaryIs(summary: string)
    ensures SummaryMessage(summary) == Message(User, [TextPart("# Conversation summary\n\n" + summary)], None, [])
  {
  }

  /** A compaction that happened: the tail is kept verbatim behind one summary
      message, the reported count is the new history's, and the count changes by
      the summary's estimate less the prefix's. */
  lemma CompactionAccount(summarize: Option<string -> Result<string, string>>, history: seq<Message>, cfg: CompactionConfig)
    requires Compaction(summarize, history, cfg).Ok? && Compaction(summarize, history, cfg).value.Some?
    ensures var r := Compaction(summarize, history, cfg).value.value;
            var after := Compacted(r.summary, history, cfg.retainTail);
            var summary := Message(User, [TextPart("# Conversation summary\n\n" + r.summary)], None, []);
            && 0 < r.removedCount <= |history| && |history| - r.removedCount == cfg.retainTail
            && r.summary != ""
            && after == [summary] + history[r.removedCount..]
            && r.newTokenCount == Tokens(after)
            && Tokens(after) == Tokens(history) + MessageTokens(summary) - Tokens(history[..r.removedCount])
  {
    hide Tokens, MessageTokens, SummaryMessage, Compaction, Compacted;
    CompactionCounts(summarize, history, cfg);
    SummaryIs(Compaction(summarize, history, cfg).value.value.summary);
  }

  /** What the provider is asked to summarize: a paragraph for every message of the
      prefix, with the name of its role and its visible text, in order. */
  lemma {:induction false} TranscriptIs(prefix: seq<Message>, k: nat)
    requires k < |prefix|
    ensures Transcript(prefix[..k + 1]) == Transcript(prefix[..k])
                                           + (if prefix[k].role == User then "[User]: "
                                              else if prefix[k].role == Assistant then "[Assistant]: " else "[Tool]: ")
                                           + Joined(SkipEmpty(Shown(prefix[k].content))) + "\n"
    ensures Transcript([]) == ""
  {
    assert prefix[..k + 1][..k] == prefix[..k];
    VisibleText(prefix[k].content);
    hide ConcatTextParts, Joined, SkipEmpty, Shown, RoleTitle;
    TitleIs(prefix[k].role);
    Apart(Transcript(prefix[..k]), "[" + RoleTitle(prefix[k].role) + "]: ", ConcatTextParts(prefix[k].content), "\n");
  }

  lemma TitleIs(role: Role)
    ensures "[" + RoleTitle(role) + "]: "
         == if role == User then "[User]: " else if role == Assistant then "[Assistant]: " else "[Tool]: "
  {
  }

  lemma Apart(a: string, b: string, c: string, d: string)
    ensures a + (b + c + d) == a + b + c + d
  {
  }

  /** When each outcome comes about. */
  lemma CompactionIff(summarize: Option<string -> Result<string, string>>, history: seq<Message>, cfg: CompactionConfig)
    ensures var r := Compaction(summarize, history, cfg);
            var able := summarize.Some? && cfg.retainTail >= 0;
            var asked := able && cfg.retainTail < |history|;
            && (r == Err(NoProvider) <==> summarize.None?)
            && (r == Err(NegativeTail) <==> summarize.Some? && cfg.retainTail < 0)
            && (able && !asked ==> r == Ok(None))
            && (asked ==>
                  var n := |history| - cfg.retainTail;
                  match summarize.value(Transcript(history[..n]))
                  case Err(message) => r == Err(GenerateFailed(message))
                  case Ok(summary) =>
                    if summary == "" then r == Ok(None)
                    else r.Ok? && r.value.Some? && r.value.value.summary == summary && r.value.value.removedCount == n)
  {
    hide Tokens, Compacted, Transcript;
  }

  /** What a compacted history keeps: the last retainTail messages, or all, or none. */
  lemma TailKept(summary: string, history: seq<Message>, retainTail: int)
    ensures var kept := Compacted(summary, history, retainTail)[if summary == "" then 0 else 1..];
            && kept == history[|history| - |kept|..]
            && |kept| == if retainTail < 0 then 0 else if retainTail > |history| then |history| else retainTail
  {
    hide SummaryMessage;
    var start := TailStart(|history|, retainTail);
    assert Compacted(summary, history, retainTail)[if summary == "" then 0 else 1..] == history[start..];
  }

  lemma CompactedAccount(summary: string, history: seq<Message>, n: nat)
    requires n <= |history|
    ensures Tokens([SummaryMessage(summary)] + history[n..])
         == Tokens(history) + MessageTokens(SummaryMessage(summary)) - Tokens(history[..n])
  {
    hide Tokens, MessageTokens, SummaryMessage;
    assert history == history[..n] + history[n..];
    TokensConcat(history[..n], history[n..]);
    TokensConcat([SummaryMessage(summary)], history[n..]);
    OneMessage(SummaryMessage(summary));
  }

  lemma OneMessage(msg: Message)
    ensures Tokens([msg]) == MessageTokens(msg)
  {
    assert [msg][..0] == [];
  }

  /** Compaction keeps every tool message with its call exactly when the tail
      does not begin with a tool message. */
  lemma CompactionKeepsAnswers(summary: string, history: seq<Message>, retainTail: int)
    requires WellFormedHistory(history) && summary != ""
    ensures var start := TailStart(|history|, retainTail);
            WellFormedHistory(Compacted(summary, history, retainTail))
            <==> start == |history| || history[start].role != Role.Tool
  {
    hide AnswersAt;
    var start := TailStart(|history|, retainTail);
    var after := Compacted(summary, history, retainTail);
    assert forall k | start <= k < |history| :: after[k - start + 1] == history[k];
    if start < |history| && history[start].role == Role.Tool {
      assert after[1].role == Role.Tool;
      if WellFormedHistory(after) {
        var a: nat :| AnswersAt(after, a, 1);
        SummaryAnswersNothing(after, a);
      }
    } else {
      forall t: nat | t < |after| && after[t].role == Role.Tool ensures exists a: nat :: AnswersAt(after, a, t) {
        var k := t - 1 + start;
        assert history[k] == after[t];
        var a: nat :| AnswersAt(history, a, k);
        AnswerStays(history, after, start, a, k);
        assert AnswersAt(after, a - start + 1, t);
      }
    }
  }

  lemma SummaryAnswersNothing(after: seq<Message>, a: nat)
    requires |after| > 1 && after[0].role == User
    ensures !AnswersAt(after, a, 1)
  {
  }

  lemma AnswerStays(history: seq<Message>, after: seq<Message>, start: nat, a: nat, k: nat)
    requires start < |history| && history[start].role != Role.Tool && start <= k
    requires |after| == 1 + |history| - start && after[1..] == history[start..]
    requires AnswersAt(history, a, k)
    ensures start <= a && AnswersAt(after, a - start + 1, k - start + 1)
  {
    assert forall j | start <= j < |history| :: history[j] == after[1..][j - start];
    assert forall j | 1 <= j < |after| :: after[j] == history[j - 1 + start];
  }
}
