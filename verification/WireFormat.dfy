/** The record file as other programs meet it: which members a value has, by name, and
    what a reader makes of members that are missing. */
module WireFormat {
  import opened Basics
  import opened JsonValues
  import opened Llm
  import opened RecordTypes
  import opened JsonAccess
  import opened RecordJson

  /** An object has this member with this string. */
  predicate Says(j: Json, key: string, value: string) {
    j.JObj? && key in j.fields && j.fields[key] == JStr(value)
  }

  /** An optional member is there unless its string is empty. */
  predicate SaysUnlessEmpty(j: Json, key: string, value: string) {
    if value == "" then j.JObj? && key !in j.fields else Says(j, key, value)
  }

  lemma PartMembers(part: ContentPart)
    ensures var j := ContentPartToJson(part);
            match part
            case TextPart(text) => j.JObj? && j.fields.Keys == {"type", "text"} && Says(j, "type", "text") && Says(j, "text", text)
            case ThinkPart(think, encrypted) =>
              && Says(j, "type", "think") && Says(j, "think", think)
              && j.fields.Keys <= {"type", "think", "encrypted"}
              && (if encrypted.None? then "encrypted" !in j.fields else Says(j, "encrypted", encrypted.value))
            case ImagePart(url, mimeType, detail) =>
              && Says(j, "type", "image") && Says(j, "url", url) && j.fields.Keys <= {"type", "url", "mime_type", "detail"}
              && SaysUnlessEmpty(j, "mime_type", mimeType) && SaysUnlessEmpty(j, "detail", detail)
            case VideoPart(url, mimeType) =>
              && Says(j, "type", "video") && Says(j, "url", url) && j.fields.Keys <= {"type", "url", "mime_type"}
              && SaysUnlessEmpty(j, "mime_type", mimeType)
  {
  }

  lemma MessageMembers(msg: Message)
    ensures var j := MessageJson(msg);
            && Says(j, "role", if msg.role == User then "user" else if msg.role == Assistant then "assistant" else "tool")
            && "content" in j.fields && j.fields["content"].JArr? && |j.fields["content"].items| == |msg.content|
            && (forall i | 0 <= i < |msg.content| :: j.fields["content"].items[i] == ContentPartToJson(msg.content[i]))
            && (if msg.toolCallId.None? then "tool_call_id" !in j.fields else Says(j, "tool_call_id", msg.toolCallId.value))
            && (if msg.toolCalls == [] then "tool_calls" !in j.fields
                else "tool_calls" in j.fields && j.fields["tool_calls"].JArr? && |j.fields["tool_calls"].items| == |msg.toolCalls|
                     && forall i | 0 <= i < |msg.toolCalls| ::
                          var c := j.fields["tool_calls"].items[i];
                          && Says(c, "id", msg.toolCalls[i].id) && Says(c, "name", msg.toolCalls[i].name)
                          && Says(c, "arguments", msg.toolCalls[i].arguments))
            && j.fields.Keys <= {"role", "content", "tool_call_id", "tool_calls"}
  {
    hide ContentPartToJson;
  }

  /** An event is an object with one member, named by its kind, that holds its parts. */
  lemma EventMembers(event: LoopEvent)
    ensures LoopEventToJson(event)
         == match event
            case StepStarted(step) => JObj(map["StepStarted" := JObj(map["step" := JInt(step)])])
            case StepCompleted(step) => JObj(map["StepCompleted" := JObj(map["step" := JInt(step)])])
            case AssistantDelta(text) => JObj(map["AssistantDelta" := JObj(map["text" := JStr(text)])])
            case ThinkingDelta(text) => JObj(map["ThinkingDelta" := JObj(map["text" := JStr(text)])])
            case ToolCallStarted(id, name, args) =>
              JObj(map["ToolCallStarted" := JObj(map["id" := JStr(id), "name" := JStr(name), "args" := args])])
            case ToolResultSeen(id, name, result) =>
              JObj(map["ToolResult" := JObj(map["id" := JStr(id), "name" := JStr(name),
                "result" := JObj(map["isError" := JBool(result.isError), "content" := JStr(result.content)])])])
            case PermissionRequested(name, args, description) =>
              JObj(map["PermissionRequested" := JObj(map["name" := JStr(name), "description" := JStr(description), "args" := args])])
            case PermissionDenied(name, description) =>
              JObj(map["PermissionDenied" := JObj(map["name" := JStr(name), "description" := JStr(description)])])
            case ErrorSeen(message) => JObj(map["Error" := JObj(map["message" := JStr(message)])])
  {
  }

  lemma RecordMembers(wire: WireRecord)
    ensures var j := RecordToJson(wire);
            && Says(j, "protocol", if wire.protocol == "" then "1.0" else wire.protocol)
            && "ts" in j.fields && j.fields["ts"] == JInt(wire.ts)
            && match wire.record
               case TurnPrompt(turnId, input, origin) =>
                 && j.fields.Keys == {"protocol", "ts", "type", "turnId", "input", "origin"}
                 && Says(j, "type", "turn.prompt") && Says(j, "turnId", turnId)
                 && j.fields["input"].JArr? && |j.fields["input"].items| == |input|
                 && (forall i | 0 <= i < |input| :: j.fields["input"].items[i] == ContentPartToJson(input[i]))
                 && Says(j, "origin", if origin == 1 then "system_trigger" else "user")
               case TurnCancel(turnId) =>
                 j.fields.Keys == {"protocol", "ts", "type", "turnId"} && Says(j, "type", "turn.cancel") && Says(j, "turnId", turnId)
               case AppendMessage(message) =>
                 && j.fields.Keys == {"protocol", "ts", "type", "message"} && Says(j, "type", "context.append_message")
                 && j.fields["message"] == MessageJson(message)
               case AppendLoopEvent(event) =>
                 && j.fields.Keys == {"protocol", "ts", "type", "event"} && Says(j, "type", "context.append_loop_event")
                 && j.fields["event"] == LoopEventToJson(event)
  {
    hide ContentPartToJson, MessageJson, LoopEventToJson;
  }

  // ------------------------------------------------------------------
  // Members that are missing
  // ------------------------------------------------------------------

  lemma OneMember(key: string, value: Json)
    ensures map[key := value].Keys == {key} && forall k | k != key :: k !in map[key := value]
  {
  }

  /** A part needs its type only. */
  lemma PartDefaults(type_: string)
    ensures ContentPartFromJson(JObj(map["type" := JStr(type_)]))
         == if type_ == "text" then Ok(TextPart(""))
            else if type_ == "think" then Ok(ThinkPart("", None))
            else if type_ == "image" then Ok(ImagePart("", "", ""))
            else if type_ == "video" then Ok(VideoPart("", ""))
            else Err(Invalid("unknown content part type: " + type_))
    ensures ContentPartFromJson(JObj(map[])) == Err(Invalid("content part missing 'type'"))
  {
    OneMember("type", JStr(type_));
  }

  /** A message needs its role only. */
  lemma MessageDefaults(role: string)
    ensures MessageOf(JObj(map["role" := JStr(role)]))
         == if role == "user" then Ok(Message(User, [], None, []))
            else if role == "assistant" then Ok(Message(Assistant, [], None, []))
            else if role == "tool" then Ok(Message(Role.Tool, [], None, []))
            else Err(Invalid("unknown role: " + role))
    ensures MessageOf(JObj(map[])) == Err(Invalid("message missing 'role'"))
  {
    OneMember("role", JStr(role));
  }

  /** A prompt or a cancellation needs its type only, a message and an event also need
      what they carry. */
  lemma RecordDefaults(type_: string)
    ensures RecordOf(JObj(map["type" := JStr(type_)]))
         == if type_ == "turn.prompt" then Ok(WireRecord(0, "1.0", TurnPrompt("", [], 0)))
            else if type_ == "turn.cancel" then Ok(WireRecord(0, "1.0", TurnCancel("")))
            else if type_ == "context.append_message" then Err(Invalid("context.append_message missing 'message'"))
            else if type_ == "context.append_loop_event" then Err(Invalid("context.append_loop_event missing 'event'"))
            else Err(Invalid("unknown record type: " + type_))
    ensures RecordOf(JObj(map[])) == Err(Invalid("record missing 'type'"))
  {
    OneMember("type", JStr(type_));
    hide MessageOf, LoopEventFromJson;
  }

  /** Of an event every part may be missing. */
  lemma EventDefaults(kind: string)
    ensures EventOf(kind, JObj(map[]))
         == if kind == "StepStarted" then Ok(StepStarted(0))
            else if kind == "StepCompleted" then Ok(StepCompleted(0))
            else if kind == "AssistantDelta" then Ok(AssistantDelta(""))
            else if kind == "ThinkingDelta" then Ok(ThinkingDelta(""))
            else if kind == "ToolCallStarted" then Ok(ToolCallStarted("", "", JNull))
            else if kind == "ToolResult" then Ok(ToolResultSeen("", "", ToolResult("", false)))
            else if kind == "PermissionRequested" then Ok(PermissionRequested("", JNull, ""))
            else if kind == "PermissionDenied" then Ok(PermissionDenied("", ""))
            else if kind == "Error" then Ok(ErrorSeen(""))
            else Err(Invalid("unknown loop event kind: " + kind))
    ensures LoopEventFromJson(JObj(map[])) == Err(Invalid("loop event object is empty"))
  {
  }
}
