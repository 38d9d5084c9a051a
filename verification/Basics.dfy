/** Shared value types: optional values and results, and the conversation
    types of Llm/Types.h and Engine/Tool.h. */
module Basics {
  datatype Option<+T> = None | Some(value: T)

  datatype Result<+T, +E> = Ok(value: T) | Err(error: E)
  {
    predicate IsFailure() {
      Err?
    }

    function PropagateFailure<U>(): Result<U, E>
      requires Err?
    {
      Err(error)
    }

    function Extract(): T
      requires Ok?
    {
      value
    }
  }

  function Max(x: int, y: int): int {
    if x >= y then x else y
  }

  function Min(x: int, y: int): int {
    if x <= y then x else y
  }
}

/** JSON values as nlohmann::json holds them; object members are kept in a
    map because the library's default object type is an ordered std::map. */
module JsonValues {
  datatype Json =
    | JNull
    | JBool(b: bool)
    | JInt(n: int)
    | JStr(s: string)
    | JArr(items: seq<Json>)
    | JObj(fields: map<string, Json>)
  {
    /** json::contains: false on anything that is not an object. */
    predicate Contains(key: string) {
      JObj? && key in fields
    }
  }

  type Int32 = x: int | -0x8000_0000 <= x < 0x8000_0000

  /** get<int>() of a wider JSON integer keeps its low 32 bits. */
  function ToInt32(n: int): Int32 {
    (n + 0x8000_0000) % 0x1_0000_0000 - 0x8000_0000
  }
}

module Llm {
  import opened Basics

  datatype Role = User | Assistant | Tool

  datatype FinishReason = Completed | ToolCalls | Truncated | Filtered | Paused | Other

  datatype ContentPart =
    | TextPart(text: string)
    | ThinkPart(think: string, encrypted: Option<string>)
    | ImagePart(url: string, mimeType: string, detail: string)
    | VideoPart(videoUrl: string, videoMimeType: string)

  datatype ToolCall = ToolCall(id: string, name: string, arguments: string)

  datatype Message = Message(role: Role, content: seq<ContentPart>,
                             toolCallId: Option<string>, toolCalls: seq<ToolCall>)

  datatype TokenUsage = TokenUsage(inputOther: int, output: int,
                                   inputCacheRead: int, inputCacheCreation: int)

  datatype ToolResult = ToolResult(content: string, isError: bool)
}

/** Bytes and the numbers they stand for, in two halves of four bits. */
module Bytes8 {
  type Byte = bv8

  function HalfValue(h: Byte): (n: nat)
    ensures n < 16
  {
    (if h & 8 != 0 then 8 else 0) + (if h & 4 != 0 then 4 else 0)
    + (if h & 2 != 0 then 2 else 0) + (if h & 1 != 0 then 1 else 0)
  }

  function Half(n: nat): (h: Byte)
    requires n < 16
    ensures h < 16
  {
    var n2 := if n >= 8 then n - 8 else n;
    var n1 := if n2 >= 4 then n2 - 4 else n2;
    var n0 := if n1 >= 2 then n1 - 2 else n1;
    (if n >= 8 then 8 else 0) | (if n2 >= 4 then 4 else 0) | (if n1 >= 2 then 2 else 0) | (if n0 >= 1 then 1 else 0)
  }

  function Value(b: Byte): nat {
    16 * HalfValue(b >> 4) + HalfValue(b & 15)
  }

  function Narrow(n: nat): Byte
    requires n < 256
  {
    (Half(n / 16) << 4) | Half(n % 16)
  }

  /** Bytes count up from zero. */
  lemma ValueCounts(b: Byte)
    ensures Value(0) == 0 && (b != 255 ==> Value(b + 1) == Value(b) + 1)
  {
  }

  lemma ValueBound(b: Byte)
    ensures Value(b) < 256
  {
  }

  lemma HalfKeeps(n: nat)
    requires n < 16
    ensures HalfValue(Half(n)) == n
  {
  }

  lemma HalfValueKeeps(h: Byte)
    requires h < 16
    ensures Half(HalfValue(h)) == h
  {
  }

  lemma HalvesApart(x: Byte, y: Byte)
    requires x < 16 && y < 16
    ensures ((x << 4) | y) >> 4 == x && ((x << 4) | y) & 15 == y
  {
  }

  lemma HalvesJoin(b: Byte)
    ensures b >> 4 < 16 && b & 15 < 16 && ((b >> 4) << 4) | (b & 15) == b
  {
  }

  lemma NarrowKeeps(n: nat)
    requires n < 256
    ensures Value(Narrow(n)) == n
  {
    hide Half, HalfValue;
    HalvesApart(Half(n / 16), Half(n % 16));
    HalfKeeps(n / 16);
    HalfKeeps(n % 16);
  }

  lemma ValueKeeps(b: Byte)
    ensures Value(b) < 256 && Narrow(Value(b)) == b
  {
    hide Half, HalfValue;
    HalvesJoin(b);
    HalfValueKeeps(b >> 4);
    HalfValueKeeps(b & 15);
  }

  lemma SameValue(m: Byte, n: Byte)
    requires Value(m) == Value(n)
    ensures m == n
  {
    hide Value, Narrow;
    ValueKeeps(m);
    ValueKeeps(n);
  }
}
