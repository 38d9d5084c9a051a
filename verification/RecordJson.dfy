/** Records of the agent and their JSON values: what is written and what is
    read back. */
module RecordTypes {
  import opened JsonValues
  import opened Llm

  datatype LoopEvent =
    | StepStarted(step: Int32)
    | StepCompleted(step: Int32)
    | AssistantDelta(text: string)
    | ThinkingDelta(text: string)
    | ToolCallStarted(id: string, name: string, args: Json)
    | ToolResultSeen(id: string, name: string, result: ToolResult)
    | PermissionRequested(name: string, args: Json, description: string)
    | PermissionDenied(name: string, description: string)
    | ErrorSeen(message: string)

  datatype AgentRecord =
    | TurnPrompt(turnId: string, input: seq<ContentPart>, origin: Int32)
    | TurnCancel(turnId: string)
    | AppendMessage(message: Message)
    | AppendLoopEvent(event: LoopEvent)

  datatype WireRecord = WireRecord(ts: int, protocol: string, record: AgentRecord)
}

/** Member access as nlohmann::json does it: a value of the wrong type throws,
    a missing member takes the default. */
module JsonAccess {
  import opened Basics
  import opened JsonValues

  datatype Failure = Invalid(reason: string) | TypeError

  type Read<T> = Result<T, Failure>

  function AsString(j: Json): Read<string> {
    if j.JStr? then Ok(j.s) else Err(TypeError)
  }

  function StringOr(j: Json, key: string, default_: string): Read<string> {
    if !j.JObj? then Err(TypeError)
    else if key !in j.fields then Ok(default_)
    else AsString(j.fields[key])
  }

  function Int32Or(j: Json, key: string, default_: Int32): Read<Int32> {
    if !j.JObj? then Err(TypeError)
    else if key !in j.fields then Ok(default_)
    else
      match j.fields[key]
      case JInt(n) => Ok(ToInt32(n))
      case JBool(b) => Ok(if b then 1 else 0)
      case _ => Err(TypeError)
  }

  function Int64Or(j: Json, key: string, default_: int): Read<int> {
    if !j.JObj? then Err(TypeError)
    else if key !in j.fields then Ok(default_)
    else if j.fields[key].JInt? then Ok(j.fields[key].n)
    else Err(TypeError)
  }

  function BoolOr(j: Json, key: string, default_: bool): Read<bool> {
    if !j.JObj? then Err(TypeError)
    else if key !in j.fields then Ok(default_)
    else if j.fields[key].JBool? then Ok(j.fields[key].b)
    else Err(TypeError)
  }


  // The order of an object's members: std::string's, byte by byte.

  predicate Before(a: string, b: string) {
    if a == "" then b != ""
    else if b == "" then false
    else a[0] < b[0] || (a[0] == b[0] && Before(a[1..], b[1..]))
  }

  lemma {:induction false} BeforeTotal(a: string, b: string)
    ensures Before(a, b) || Before(b, a) || a == b
    ensures !(Before(a, b) && Before(b, a))
    ensures !Before(a, a)
  {
    if a != "" {
      BeforeTotal(a[1..], a[1..]);
      if b != "" {
        BeforeTotal(a[1..], b[1..]);
        if a[0] == b[0] && a[1..] == b[1..] {
          assert a == [a[0]] + a[1..] && b == [b[0]] + b[1..];
        }
      }
    }
  }

  lemma {:induction false} BeforeTransitive(a: string, b: string, c: string)
    requires Before(a, b) && Before(b, c)
    ensures Before(a, c)
  {
    if a != "" && a[0] == b[0] == c[0] {
      BeforeTransitive(a[1..], b[1..], c[1..]);
    }
  }

  predicate Least(k: string, keys: set<string>) {
    k in keys && forall l | l in keys :: l == k || Before(k, l)
  }

  /** The lesser of a key and the least of the others is the least. */
  lemma LeastOfMore(keys: set<string>, k: string, l: string) returns (m: string)
    requires k in keys && Least(l, keys - {k})
    ensures Least(m, keys)
  {
    hide Before;
    BeforeTotal(k, l);
    m := if Before(l, k) then l else k;
    forall x | x in keys ensures x == m || Before(m, x) {
      if x != k {
        assert x in keys - {k};
        if Before(k, l) && x != l { BeforeTransitive(k, l, x); }
      }
    }
  }

  lemma {:induction false} LeastExists(keys: set<string>) returns (k: string)
    requires keys != {}
    ensures Least(k, keys)
    decreases |keys|
  {
    hide Before;
    var first :| first in keys;
    var rest := keys - {first};
    if rest == {} {
      k := first;
      assert forall m :: m in keys && m != first ==> m in rest;
    } else {
      var l := LeastExists(rest);
      k := LeastOfMore(keys, first, l);
    }
  }

  lemma LeastIsOne(keys: set<string>)
    requires keys != {}
    ensures exists k :: Least(k, keys)
    ensures forall k, l :: Least(k, keys) && Least(l, keys) ==> k == l
  {
    hide Before;
    var k := LeastExists(keys);
    forall l, m | Least(l, keys) && Least(m, keys) ensures l == m {
      BeforeTotal(l, m);
    }
  }

  /** The key an iteration over the members meets first. */
  function FirstKey(keys: set<string>): (k: string)
    requires keys != {}
    ensures Least(k, keys)
  {
    LeastIsOne(keys);
    var k :| k in keys && Least(k, keys);
    k
  }
}

/** The conversions. Those that fill arrays in loops are specified by the
    functions beside them. */
module RecordJson {
  import opened Basics
  import opened JsonValues
  import opened Llm
  import opened RecordTypes
  import opened JsonAccess

  const PROTOCOL := "1.0"

  function RoleToString(role: Role): string {
    match role
    case User => "user"
    case Assistant => "assistant"
    case Tool => "tool"
  }

  function RoleFromString(s: string): Read<Role> {
    if s == "user" then Ok(User)
    else if s == "assistant" then Ok(Assistant)
    else if s == "tool" then Ok(Tool)
    else Err(Invalid("unknown role: " + s))
  }

  // ------------------------------------------------------------------
  // Content parts
  // ------------------------------------------------------------------

  function Optional(key: string, value: string): map<string, Json> {
    if value == "" then map[] else map[key := JStr(value)]
  }

  function ContentPartToJson(part: ContentPart): Json {
    match part
    case TextPart(text) => JObj(map["type" := JStr("text"), "text" := JStr(text)])
    case ThinkPart(think, encrypted) =>
      var obj := map["type" := JStr("think"), "think" := JStr(think)];
      JObj(if encrypted.Some? then obj["encrypted" := JStr(encrypted.value)] else obj)
    case ImagePart(url, mimeType, detail) =>
      JObj(map["type" := JStr("image"), "url" := JStr(url)]
           + Optional("mime_type", mimeType) + Optional("detail", detail))
    case VideoPart(url, mimeType) =>
      JObj(map["type" := JStr("video"), "url" := JStr(url)] + Optional("mime_type", mimeType))
  }

  function ContentPartFromJson(j: Json): Read<ContentPart> {
    if !j.Contains("type") then Err(Invalid("content part missing 'type'"))
    else
      var type_ :- AsString(j.fields["type"]);
      if type_ == "text" then
        var text :- StringOr(j, "text", "");
        Ok(TextPart(text))
      else if type_ == "think" then
        var think :- StringOr(j, "think", "");
        if !j.Contains("encrypted") then Ok(ThinkPart(think, None))
        else
          var encrypted :- AsString(j.fields["encrypted"]);
          Ok(ThinkPart(think, Some(encrypted)))
      else if type_ == "image" then
        var url :- StringOr(j, "url", "");
        var mimeType :- StringOr(j, "mime_type", "");
        var detail :- StringOr(j, "detail", "");
        Ok(ImagePart(url, mimeType, detail))
      else if type_ == "video" then
        var url :- StringOr(j, "url", "");
        var mimeType :- StringOr(j, "mime_type", "");
        Ok(VideoPart(url, mimeType))
      else Err(Invalid("unknown content part type: " + type_))
  }

  function PartsJson(parts: seq<ContentPart>): seq<Json> {
    seq(|parts|, i requires 0 <= i < |parts| => ContentPartToJson(parts[i]))
  }

  /** The parts of an array, or the first failure. */
  function PartsOf(items: seq<Json>): Read<seq<ContentPart>>
    decreases |items|
  {
    if items == [] then Ok([])
    else
      var part :- ContentPartFromJson(items[0]);
      var rest :- PartsOf(items[1..]);
      Ok([part] + rest)
  }

  method PartsToJson(parts: seq<ContentPart>) returns (content: seq<Json>)
    ensures content == PartsJson(parts)
  {
    content := [];
    for i := 0 to |parts|
      invariant content == PartsJson(parts[..i])
    {
      content := content + [ContentPartToJson(parts[i])];
    }
    assert parts[..|parts|] == parts;
  }

  /** Continuing a partial read. */
  function Onto<T>(done: seq<T>, rest: Read<seq<T>>): Read<seq<T>> {
    if rest.Err? then rest else Ok(done + rest.value)
  }

  lemma OntoNothing<T>(rest: Read<seq<T>>)
    ensures Onto([], rest) == rest
  {
    if rest.Ok? { assert [] + rest.value == rest.value; }
  }

  lemma OntoOneMore<T>(done: seq<T>, x: T, rest: Read<seq<T>>)
    ensures Onto(done, if rest.Err? then rest else Ok([x] + rest.value)) == Onto(done + [x], rest)
  {
    if rest.Ok? { assert done + ([x] + rest.value) == (done + [x]) + rest.value; }
  }

  method PartsFromJson(items: seq<Json>) returns (r: Read<seq<ContentPart>>)
    ensures r == PartsOf(items)
  {
    hide ContentPartFromJson, Onto;
    var content := [];
    assert items[0..] == items;
    OntoNothing(PartsOf(items));
    for i := 0 to |items|
      invariant PartsOf(items) == Onto(content, PartsOf(items[i..]))
    {
      assert items[i..][1..] == items[i + 1..];
      var part := ContentPartFromJson(items[i]);
      if part.Err? {
        OntoFailure(content, Err(part.error));
        return Err(part.error);
      }
      OntoOneMore(content, part.value, PartsOf(items[i + 1..]));
      content := content + [part.value];
    }
    OntoEnd(content);
    r := Ok(content);
  }

  lemma OntoFailure<T>(done: seq<T>, rest: Read<seq<T>>)
    requires rest.Err?
    ensures Onto(done, rest) == rest
  {
  }

  lemma OntoEnd<T>(done: seq<T>)
    ensures Onto(done, Ok([])) == Ok(done)
  {
    assert done + [] == done;
  }

  // ------------------------------------------------------------------
  // Messages
  // ------------------------------------------------------------------

  function CallJson(call: ToolCall): Json {
    JObj(map["id" := JStr(call.id), "name" := JStr(call.name), "arguments" := JStr(call.arguments)])
  }

  function CallsJson(calls: seq<ToolCall>): seq<Json> {
    seq(|calls|, i requires 0 <= i < |calls| => CallJson(calls[i]))
  }

  function CallOf(j: Json): Read<ToolCall> {
    var id :- StringOr(j, "id", "");
    var name :- StringOr(j, "name", "");
    var arguments :- StringOr(j, "arguments", "");
    Ok(ToolCall(id, name, arguments))
  }

  function CallsOf(items: seq<Json>): Read<seq<ToolCall>>
    decreases |items|
  {
    if items == [] then Ok([])
    else
      var call :- CallOf(items[0]);
      var rest :- CallsOf(items[1..]);
      Ok([call] + rest)
  }

  function WithOptional(obj: map<string, Json>, key: string, value: Option<Json>): map<string, Json> {
    if value.None? then obj else obj[key := value.value]
  }

  function MessageJson(msg: Message): Json {
    var base := map["role" := JStr(RoleToString(msg.role)), "content" := JArr(PartsJson(msg.content))];
    var id := if msg.toolCallId.None? then None else Some(JStr(msg.toolCallId.value));
    var calls := if msg.toolCalls == [] then None else Some(JArr(CallsJson(msg.toolCalls)));
    JObj(WithOptional(WithOptional(base, "tool_call_id", id), "tool_calls", calls))
  }

  /** The array at a key; anything else counts as no array. */
  function ArrayAt(j: Json, key: string): seq<Json> {
    if j.Contains(key) && j.fields[key].JArr? then j.fields[key].items else []
  }

  function MessageOf(j: Json): Read<Message> {
    if !j.Contains("role") then Err(Invalid("message missing 'role'"))
    else
      var name :- AsString(j.fields["role"]);
      var role :- RoleFromString(name);
      var content :- PartsOf(ArrayAt(j, "content"));
      var id :- (if !j.Contains("tool_call_id") then Ok(None)
                 else var s :- AsString(j.fields["tool_call_id"]); Ok(Some(s)));
      var calls :- CallsOf(ArrayAt(j, "tool_calls"));
      Ok(Message(role, content, id, calls))
  }

  method MessageToJson(msg: Message) returns (j: Json)
    ensures j == MessageJson(msg)
  {
    hide CallJson, ContentPartToJson;
    var obj := map["role" := JStr(RoleToString(msg.role))];
    var content := PartsToJson(msg.content);
    obj := obj["content" := JArr(content)];
    if msg.toolCallId.Some? { obj := obj["tool_call_id" := JStr(msg.toolCallId.value)]; }
    if msg.toolCalls != [] {
      var calls: seq<Json> := [];
      for i := 0 to |msg.toolCalls|
        invariant calls == CallsJson(msg.toolCalls[..i])
      {
        calls := calls + [CallJson(msg.toolCalls[i])];
      }
      assert msg.toolCalls[..|msg.toolCalls|] == msg.toolCalls;
      obj := obj["tool_calls" := JArr(calls)];
    }
    j := JObj(obj);
  }

  method CallsFromJson(items: seq<Json>) returns (r: Read<seq<ToolCall>>)
    ensures r == CallsOf(items)
  {
    hide CallOf, Onto;
    var calls := [];
    assert items[0..] == items;
    OntoNothing(CallsOf(items));
    for i := 0 to |items|
      invariant CallsOf(items) == Onto(calls, CallsOf(items[i..]))
    {
      assert items[i..][1..] == items[i + 1..];
      var call := CallOf(items[i]);
      if call.Err? {
        OntoFailure(calls, Err(call.error));
        return Err(call.error);
      }
      OntoOneMore(calls, call.value, CallsOf(items[i + 1..]));
      calls := calls + [call.value];
    }
    OntoEnd(calls);
    r := Ok(calls);
  }

  method MessageFromJson(j: Json) returns (r: Read<Message>)
    ensures r == MessageOf(j)
  {
    hide PartsOf, CallsOf, RoleFromString;
    if !j.Contains("role") { return Err(Invalid("message missing 'role'")); }
    var name := AsString(j.fields["role"]);
    if name.Err? { return Err(name.error); }
    var role := RoleFromString(name.value);
    if role.Err? { return Err(role.error); }
    var content := PartsFromJson(ArrayAt(j, "content"));
    if content.Err? { return Err(content.error); }
    var id := None;
    if j.Contains("tool_call_id") {
      var s := AsString(j.fields["tool_call_id"]);
      if s.Err? { return Err(s.error); }
      id := Some(s.value);
    }
    var calls := CallsFromJson(ArrayAt(j, "tool_calls"));
    if calls.Err? { return Err(calls.error); }
    r := Ok(Message(role.value, content.value, id, calls.value));
  }

  // ------------------------------------------------------------------
  // Loop events
  // ------------------------------------------------------------------

  function Named(key: string, fields: map<string, Json>): Json {
    JObj(map[key := JObj(fields)])
  }

  function ResultJson(r: ToolResult): Json {
    JObj(map["isError" := JBool(r.isError), "content" := JStr(r.content)])
  }

  function LoopEventToJson(event: LoopEvent): Json {
    match event
    case StepStarted(step) => Named("StepStarted", map["step" := JInt(step)])
    case StepCompleted(step) => Named("StepCompleted", map["step" := JInt(step)])
    case AssistantDelta(text) => Named("AssistantDelta", map["text" := JStr(text)])
    case ThinkingDelta(text) => Named("ThinkingDelta", map["text" := JStr(text)])
    case ToolCallStarted(id, name, args) =>
      Named("ToolCallStarted", map["id" := JStr(id), "name" := JStr(name), "args" := args])
    case ToolResultSeen(id, name, result) =>
      Named("ToolResult", map["id" := JStr(id), "name" := JStr(name), "result" := ResultJson(result)])
    case PermissionRequested(name, args, description) =>
      Named("PermissionRequested", map["name" := JStr(name), "description" := JStr(description), "args" := args])
    case PermissionDenied(name, description) =>
      Named("PermissionDenied", map["name" := JStr(name), "description" := JStr(description)])
    case ErrorSeen(message) => Named("Error", map["message" := JStr(message)])
  }

  function ArgsOf(inner: Json): Json {
    if inner.Contains("args") then inner.fields["args"] else JNull
  }

  function ResultOf(inner: Json): Read<ToolResult> {
    if inner.Contains("result") && inner.fields["result"].JObj? then
      var isError :- BoolOr(inner.fields["result"], "isError", false);
      var content :- StringOr(inner.fields["result"], "content", "");
      Ok(ToolResult(content, isError))
    else Ok(ToolResult("", false))
  }

  /** One member of an event object: its key is the kind of event. */
  function EventOf(key: string, inner: Json): Read<LoopEvent> {
    if key == "StepStarted" then
      var step :- Int32Or(inner, "step", 0);
      Ok(StepStarted(step))
    else if key == "StepCompleted" then
      var step :- Int32Or(inner, "step", 0);
      Ok(StepCompleted(step))
    else if key == "AssistantDelta" then
      var text :- StringOr(inner, "text", "");
      Ok(AssistantDelta(text))
    else if key == "ThinkingDelta" then
      var text :- StringOr(inner, "text", "");
      Ok(ThinkingDelta(text))
    else if key == "ToolCallStarted" then
      var id :- StringOr(inner, "id", "");
      var name :- StringOr(inner, "name", "");
      Ok(ToolCallStarted(id, name, ArgsOf(inner)))
    else if key == "ToolResult" then
      var id :- StringOr(inner, "id", "");
      var name :- StringOr(inner, "name", "");
      var result :- ResultOf(inner);
      Ok(ToolResultSeen(id, name, result))
    else if key == "PermissionRequested" then
      var name :- StringOr(inner, "name", "");
      var description :- StringOr(inner, "description", "");
      Ok(PermissionRequested(name, ArgsOf(inner), description))
    else if key == "PermissionDenied" then
      var name :- StringOr(inner, "name", "");
      var description :- StringOr(inner, "description", "");
      Ok(PermissionDenied(name, description))
    else if key == "Error" then
      var message :- StringOr(inner, "message", "");
      Ok(ErrorSeen(message))
    else Err(Invalid("unknown loop event kind: " + key))
  }

  function LoopEventFromJson(j: Json): Read<LoopEvent> {
    if !j.JObj? || j.fields.Keys == {} then Err(Invalid("loop event object is empty"))
    else
      var key := FirstKey(j.fields.Keys);
      EventOf(key, j.fields[key])
  }

  // ------------------------------------------------------------------
  // Records
  // ------------------------------------------------------------------

  function Envelope(wire: WireRecord, type_: string): map<string, Json> {
    map["protocol" := JStr(if wire.protocol == "" then PROTOCOL else wire.protocol),
        "ts" := JInt(wire.ts), "type" := JStr(type_)]
  }

  function RecordToJson(wire: WireRecord): Json {
    match wire.record
    case TurnPrompt(turnId, input, origin) =>
      JObj(Envelope(wire, "turn.prompt")["turnId" := JStr(turnId)]["input" := JArr(PartsJson(input))]
             ["origin" := JStr(if origin == 1 then "system_trigger" else "user")])
    case TurnCancel(turnId) => JObj(Envelope(wire, "turn.cancel")["turnId" := JStr(turnId)])
    case AppendMessage(message) =>
      JObj(Envelope(wire, "context.append_message")["message" := MessageJson(message)])
    case AppendLoopEvent(event) =>
      JObj(Envelope(wire, "context.append_loop_event")["event" := LoopEventToJson(event)])
  }

  function PayloadOf(j: Json, type_: string): Read<AgentRecord> {
    if type_ == "turn.prompt" then
      var turnId :- StringOr(j, "turnId", "");
      var input :- PartsOf(ArrayAt(j, "input"));
      var origin :- StringOr(j, "origin", "user");
      Ok(TurnPrompt(turnId, input, if origin == "system_trigger" then 1 else 0))
    else if type_ == "turn.cancel" then
      var turnId :- StringOr(j, "turnId", "");
      Ok(TurnCancel(turnId))
    else if type_ == "context.append_message" then
      if !j.Contains("message") then Err(Invalid("context.append_message missing 'message'"))
      else
        var message :- MessageOf(j.fields["message"]);
        Ok(AppendMessage(message))
    else if type_ == "context.append_loop_event" then
      if !j.Contains("event") then Err(Invalid("context.append_loop_event missing 'event'"))
      else
        var event :- LoopEventFromJson(j.fields["event"]);
        Ok(AppendLoopEvent(event))
    else Err(Invalid("unknown record type: " + type_))
  }

  function RecordOf(j: Json): Read<WireRecord> {
    if !j.Contains("type") then Err(Invalid("record missing 'type'"))
    else
      var protocol :- StringOr(j, "protocol", PROTOCOL);
      var ts :- Int64Or(j, "ts", 0);
      var type_ :- AsString(j.fields["type"]);
      var record :- PayloadOf(j, type_);
      Ok(WireRecord(ts, protocol, record))
  }

  /** WireRecordToJson: the members are set one after the other. */
  method WireRecordToJson(wire: WireRecord) returns (j: Json)
    ensures j == RecordToJson(wire)
  {
    hide PartsJson, MessageJson, LoopEventToJson;
    var obj := map["protocol" := JStr(if wire.protocol == "" then PROTOCOL else wire.protocol)];
    obj := obj["ts" := JInt(wire.ts)];
    match wire.record
    case TurnPrompt(turnId, input, origin) =>
      obj := obj["type" := JStr("turn.prompt")];
      obj := obj["turnId" := JStr(turnId)];
      var items := PartsToJson(input);
      obj := obj["input" := JArr(items)];
      obj := obj["origin" := JStr(if origin == 1 then "system_trigger" else "user")];
      j := JObj(obj);
    case TurnCancel(turnId) =>
      obj := obj["type" := JStr("turn.cancel")];
      j := JObj(obj["turnId" := JStr(turnId)]);
    case AppendMessage(message) =>
      obj := obj["type" := JStr("context.append_message")];
      var m := MessageToJson(message);
      j := JObj(obj["message" := m]);
    case AppendLoopEvent(event) =>
      obj := obj["type" := JStr("context.append_loop_event")];
      j := JObj(obj["event" := LoopEventToJson(event)]);
  }

  /** ParseWireRecord on the value its text stands for. */
  method ParseWireRecord(j: Json) returns (r: Read<WireRecord>)
    ensures r == RecordOf(j)
  {
    hide PartsOf, MessageOf, LoopEventFromJson;
    if !j.Contains("type") { return Err(Invalid("record missing 'type'")); }
    var protocol := StringOr(j, "protocol", PROTOCOL);
    if protocol.Err? { return Err(protocol.error); }
    var ts := Int64Or(j, "ts", 0);
    if ts.Err? { return Err(ts.error); }
    var type_ := AsString(j.fields["type"]);
    if type_.Err? { return Err(type_.error); }
    var payload := ParsePayload(j, type_.value);
    if payload.Err? { return Err(payload.error); }
    r := Ok(WireRecord(ts.value, protocol.value, payload.value));
  }

  method ParsePayload(j: Json, type_: string) returns (r: Read<AgentRecord>)
    requires j.JObj?
    ensures r == PayloadOf(j, type_)
  {
    hide PartsOf, MessageOf, LoopEventFromJson;
    if type_ == "turn.prompt" {
      var turnId := StringOr(j, "turnId", "");
      if turnId.Err? { return Err(turnId.error); }
      var input := PartsFromJson(ArrayAt(j, "input"));
      if input.Err? { return Err(input.error); }
      var origin := StringOr(j, "origin", "user");
      if origin.Err? { return Err(origin.error); }
      r := Ok(TurnPrompt(turnId.value, input.value, if origin.value == "system_trigger" then 1 else 0));
    } else if type_ == "turn.cancel" {
      var turnId := StringOr(j, "turnId", "");
      if turnId.Err? { return Err(turnId.error); }
      r := Ok(TurnCancel(turnId.value));
    } else if type_ == "context.append_message" {
      if !j.Contains("message") { return Err(Invalid("context.append_message missing 'message'")); }
      var message := MessageFromJson(j.fields["message"]);
      if message.Err? { return Err(message.error); }
      r := Ok(AppendMessage(message.value));
    } else if type_ == "context.append_loop_event" {
      if !j.Contains("event") { return Err(Invalid("context.append_loop_event missing 'event'")); }
      var event := LoopEventFromJson(j.fields["event"]);
      if event.Err? { return Err(event.error); }
      r := Ok(AppendLoopEvent(event.value));
    } else {
      r := Err(Invalid("unknown record type: " + type_));
    }
  }
}
