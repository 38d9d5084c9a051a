/** Reading a written record gives the record back, up to the two things that
    writing normalises. */
module RecordRoundTrip {
  import opened Basics
  import opened JsonValues
  import opened Llm
  import opened RecordTypes
  import opened JsonAccess
  import opened RecordJson

  /** Writing replaces an empty protocol by the current one and keeps of the
      origin only whether it is the system trigger. */
  function Normalize(wire: WireRecord): WireRecord {
    WireRecord(wire.ts,
               if wire.protocol == "" then PROTOCOL else wire.protocol,
               match wire.record
               case TurnPrompt(turnId, input, origin) => TurnPrompt(turnId, input, if origin == 1 then 1 else 0)
               case r => r)
  }

  lemma PartRoundTrip(part: ContentPart)
    ensures ContentPartFromJson(ContentPartToJson(part)) == Ok(part)
  {
  }

  lemma {:induction false} PartsRoundTrip(parts: seq<ContentPart>)
    ensures PartsOf(PartsJson(parts)) == Ok(parts)
    decreases |parts|
  {
    hide ContentPartToJson, ContentPartFromJson;
    if parts != [] {
      PartRoundTrip(parts[0]);
      PartsRoundTrip(parts[1..]);
      assert PartsJson(parts)[1..] == PartsJson(parts[1..]);
      assert [parts[0]] + parts[1..] == parts;
    }
  }

  lemma {:induction false} CallsRoundTrip(calls: seq<ToolCall>)
    ensures CallsOf(CallsJson(calls)) == Ok(calls)
    decreases |calls|
  {
    if calls != [] {
      CallRoundTrip(calls[0]);
      CallsRoundTrip(calls[1..]);
      hide CallJson, CallOf;
      assert CallsJson(calls)[1..] == CallsJson(calls[1..]);
      assert [calls[0]] + calls[1..] == calls;
    }
  }

  lemma CallRoundTrip(call: ToolCall)
    ensures CallOf(CallJson(call)) == Ok(call)
  {
  }

  lemma RoleRoundTrip(role: Role)
    ensures RoleFromString(RoleToString(role)) == Ok(role)
  {
  }

  lemma MessageFields(msg: Message)
    ensures var j := MessageJson(msg);
            && j.Contains("role") && j.fields["role"] == JStr(RoleToString(msg.role))
            && ArrayAt(j, "content") == PartsJson(msg.content)
            && ArrayAt(j, "tool_calls") == CallsJson(msg.toolCalls)
            && (j.Contains("tool_call_id") <==> msg.toolCallId.Some?)
            && (msg.toolCallId.Some? ==> j.fields["tool_call_id"] == JStr(msg.toolCallId.value))
  {
    hide PartsJson, CallJson, RoleToString;
    if msg.toolCalls == [] { assert CallsJson(msg.toolCalls) == []; }
  }

  lemma MessageRoundTrip(msg: Message)
    ensures MessageOf(MessageJson(msg)) == Ok(msg)
  {
    MessageFields(msg);
    hide MessageJson, PartsJson, CallsJson, RoleToString, RoleFromString, PartsOf, CallsOf, ArrayAt;
    RoleRoundTrip(msg.role);
    PartsRoundTrip(msg.content);
    CallsRoundTrip(msg.toolCalls);
  }

  lemma OneKey(key: string, value: Json)
    ensures var j := JObj(map[key := value]);
            j.fields.Keys != {} && FirstKey(j.fields.Keys) == key
  {
    hide Before;
    assert map[key := value].Keys == {key};
  }

  function Kind(event: LoopEvent): string {
    match event
    case StepStarted(_) => "StepStarted"
    case StepCompleted(_) => "StepCompleted"
    case AssistantDelta(_) => "AssistantDelta"
    case ThinkingDelta(_) => "ThinkingDelta"
    case ToolCallStarted(_, _, _) => "ToolCallStarted"
    case ToolResultSeen(_, _, _) => "ToolResult"
    case PermissionRequested(_, _, _) => "PermissionRequested"
    case PermissionDenied(_, _) => "PermissionDenied"
    case ErrorSeen(_) => "Error"
  }

  /** An event is written as one member, named by its kind. */
  lemma KindIsKey(event: LoopEvent) returns (inner: map<string, Json>)
    ensures LoopEventToJson(event) == Named(Kind(event), inner)
  {
    inner := LoopEventToJson(event).fields[Kind(event)].fields;
  }

  lemma InnerReadsBack(event: LoopEvent, inner: map<string, Json>)
    requires LoopEventToJson(event) == Named(Kind(event), inner)
    ensures EventOf(Kind(event), JObj(inner)) == Ok(event)
  {
    assert JObj(inner) == LoopEventToJson(event).fields[Kind(event)];
    match event
    case StepStarted(step) =>
    case StepCompleted(step) =>
    case AssistantDelta(text) =>
    case ThinkingDelta(text) =>
    case ToolCallStarted(id, name, args) =>
    case ToolResultSeen(id, name, result) =>
    case PermissionRequested(name, args, description) =>
    case PermissionDenied(name, description) =>
    case ErrorSeen(message) =>
  }

  lemma EventRoundTrip(event: LoopEvent)
    ensures LoopEventFromJson(LoopEventToJson(event)) == Ok(event)
  {
    var inner := KindIsKey(event);
    InnerReadsBack(event, inner);
    OneKey(Kind(event), JObj(inner));
    hide FirstKey, EventOf, LoopEventToJson, Kind;
  }

  lemma RecordRoundTripUpTo(wire: WireRecord)
    ensures RecordOf(RecordToJson(wire)) == Ok(Normalize(wire))
  {
    hide PartsJson, PartsOf, MessageJson, MessageOf, LoopEventToJson, LoopEventFromJson;
    match wire.record
    case TurnPrompt(turnId, input, origin) => PartsRoundTrip(input);
    case TurnCancel(turnId) =>
    case AppendMessage(message) => MessageRoundTrip(message);
    case AppendLoopEvent(event) => EventRoundTrip(event);
  }

  /** A record survives exactly when its protocol is not empty and its origin
      is one of the two that exist. */
  lemma RecordRoundTripIff(wire: WireRecord)
    ensures RecordOf(RecordToJson(wire)) == Ok(wire)
        <==> wire.protocol != "" && (wire.record.TurnPrompt? ==> wire.record.origin == 0 || wire.record.origin == 1)
  {
    hide RecordOf, RecordToJson;
    RecordRoundTripUpTo(wire);
  }

  /** What is read and written again reads the same from then on. */
  lemma RereadingIsStable(wire: WireRecord)
    ensures RecordToJson(Normalize(wire)) == RecordToJson(wire)
    ensures RecordOf(RecordToJson(wire)).Ok?
    ensures RecordToJson(RecordOf(RecordToJson(wire)).value) == RecordToJson(wire)
  {
    RecordRoundTripUpTo(wire);
    hide RecordOf, PartsJson, MessageJson, LoopEventToJson;
  }

  // ------------------------------------------------------------------
  // Members the reader does not know
  // ------------------------------------------------------------------

  const KNOWN := {"protocol", "ts", "type", "turnId", "input", "origin", "message", "event"}

  /** A record may carry further members. */
  lemma UnknownMembersIgnored(fields: map<string, Json>, key: string, value: Json)
    requires key !in KNOWN
    ensures RecordOf(JObj(fields[key := value])) == RecordOf(JObj(fields))
  {
    hide PartsOf, MessageOf, LoopEventFromJson;
  }

  const KINDS := {"StepStarted", "StepCompleted", "AssistantDelta", "ThinkingDelta", "ToolCallStarted",
                  "ToolResult", "PermissionRequested", "PermissionDenied", "Error"}

  lemma FirstOfTwo(k: string, l: string)
    ensures FirstKey({k, l}) == if Before(k, l) then k else l
  {
    BeforeTotal(k, l);
    hide Before;
    var first := FirstKey({k, l});
    assert k in {k, l} && l in {k, l};
  }

  /** An event object may not, unless they sort behind its kind: the reader
      looks at the first member only. */
  lemma ExtraEventMember(event: LoopEvent, key: string, value: Json)
    requires key !in KINDS
    ensures var more := LoopEventFromJson(JObj(LoopEventToJson(event).fields[key := value]));
            if Before(Kind(event), key) then more == Ok(event) else more.Err?
  {
    hide Before, FirstKey, EventOf, LoopEventToJson, Kind;
    var inner := KindIsKey(event);
    InnerReadsBack(event, inner);
    KindIsKnown(event);
    UnknownKind(key, value);
    FirstOfTwo(Kind(event), key);
    var all := map[Kind(event) := JObj(inner)][key := value];
    assert all.Keys == {Kind(event), key};
    if !Before(Kind(event), key) { assert all[key] == value; }
  }

  lemma KindIsKnown(event: LoopEvent)
    ensures Kind(event) in KINDS
  {
  }

  lemma UnknownKind(key: string, inner: Json)
    requires key !in KINDS
    ensures EventOf(key, inner).Err?
  {
  }
}
