/** Assembling streamed tool calls: the onToolCallStart and onToolCallDelta
    callbacks of RunTurn, and the removal of nameless calls afterwards. */
module ToolCallAssembly {
  import opened Basics
  import opened Llm

  datatype StreamEvent = Start(idx: int, id: string, name: string) | Delta(idx: int, args: string)

  const MAX_TOOL_CALL_INDEX := 64

  const EMPTY_CALL := ToolCall("", "", "")

  predicate Valid(idx: int) {
    0 <= idx < MAX_TOOL_CALL_INDEX
  }

  /** One callback; an invalid index only reports an error. */
  function Accept(pending: seq<ToolCall>, e: StreamEvent): (r: seq<ToolCall>)
    requires |pending| <= MAX_TOOL_CALL_INDEX
    ensures |pending| <= |r| <= MAX_TOOL_CALL_INDEX
  {
    if !Valid(e.idx) then pending
    else match e
      case Start(idx, id, name) =>
        var grown := if idx >= |pending| then pending + seq(idx + 1 - |pending|, _ => EMPTY_CALL) else pending;
        grown[idx := grown[idx].(id := id, name := name)]
      case Delta(idx, args) =>
        if idx < |pending| then pending[idx := pending[idx].(arguments := pending[idx].arguments + args)] else pending
  }

  function Assemble(events: seq<StreamEvent>): (r: seq<ToolCall>)
    ensures |r| <= MAX_TOOL_CALL_INDEX
  {
    if events == [] then []
    else Accept(Assemble(events[..|events| - 1]), events[|events| - 1])
  }

  /** The events of one index, in order. */
  function Only(events: seq<StreamEvent>, i: nat): seq<StreamEvent> {
    if events == [] then []
    else
      var e := events[|events| - 1];
      Only(events[..|events| - 1], i) + (if e.idx == i then [e] else [])
  }

  /** One past the largest index that was validly started. */
  function Size(events: seq<StreamEvent>): nat {
    if events == [] then 0
    else
      var e := events[|events| - 1];
      var n := Size(events[..|events| - 1]);
      if e.Start? && Valid(e.idx) then Max(n, e.idx + 1) else n
  }

  /** The calls a delta can reach: those at or below an index already started. */
  function Effective(events: seq<StreamEvent>, i: nat): seq<StreamEvent> {
    if events == [] then []
    else
      var before := events[..|events| - 1];
      var e := events[|events| - 1];
      Effective(before, i) + (if e.idx == i && (e.Start? || i < Size(before)) then [e] else [])
  }

  /** The call described by the events of one index: identity from the last
      start, arguments from all deltas in order. */
  function Described(events: seq<StreamEvent>): ToolCall {
    if events == [] then EMPTY_CALL
    else
      var before := Described(events[..|events| - 1]);
      match events[|events| - 1]
      case Start(_, id, name) => before.(id := id, name := name)
      case Delta(_, args) => before.(arguments := before.arguments + args)
  }

  function Arguments(events: seq<StreamEvent>): string {
    if events == [] then ""
    else
      Arguments(events[..|events| - 1]) + (if events[|events| - 1].Delta? then events[|events| - 1].args else "")
  }

  /** What one event does to the call it is for. */
  function Applied(call: ToolCall, e: StreamEvent): ToolCall {
    match e
    case Start(_, id, name) => call.(id := id, name := name)
    case Delta(_, args) => call.(arguments := call.arguments + args)
  }

  lemma AcceptSize(pending: seq<ToolCall>, e: StreamEvent)
    requires |pending| <= MAX_TOOL_CALL_INDEX
    ensures |Accept(pending, e)| == if e.Start? && Valid(e.idx) then Max(|pending|, e.idx + 1) else |pending|
  {
  }

  lemma AcceptAt(pending: seq<ToolCall>, e: StreamEvent, i: nat)
    requires |pending| <= MAX_TOOL_CALL_INDEX && i < |Accept(pending, e)|
    ensures var was := if i < |pending| then pending[i] else EMPTY_CALL;
            Accept(pending, e)[i] == if e.idx == i && (e.Start? || i < |pending|) then Applied(was, e) else was
  {
  }

  lemma DescribedSnoc(es: seq<StreamEvent>, e: StreamEvent)
    ensures Described(es + [e]) == Applied(Described(es), e)
  {
    assert (es + [e])[..|es|] == es;
  }

  lemma AssembleSnoc(events: seq<StreamEvent>, e: StreamEvent)
    ensures Assemble(events + [e]) == Accept(Assemble(events), e)
    ensures Described([]) == EMPTY_CALL
  {
    assert (events + [e])[..|events|] == events;
    hide Accept;
  }

  /** What the pending calls are, for every stream: their number is one past the
      largest started index, and each is described by its own effective events. */
  lemma {:induction false} AssembledIs(events: seq<StreamEvent>)
    ensures |Assemble(events)| == Size(events)
    ensures forall i | 0 <= i < Size(events) :: Assemble(events)[i] == Described(Effective(events, i))
    ensures forall i: nat | Size(events) <= i < MAX_TOOL_CALL_INDEX :: Effective(events, i) == []
    decreases |events|
  {
    if events != [] {
      hide Accept, Assemble, Described, Size, Effective, Applied;
      var (before, e) := (events[..|events| - 1], events[|events| - 1]);
      assert events == before + [e];
      AssembledIs(before);
      AssembleSnoc(before, e);
      SizeSnoc(before, e);
      AcceptSize(Assemble(before), e);
      forall i: nat | i < MAX_TOOL_CALL_INDEX
        ensures i < Size(events) ==> Assemble(events)[i] == Described(Effective(events, i))
        ensures Size(events) <= i ==> Effective(events, i) == []
      {
        EffectiveSnoc(before, e, i);
        DescribedSnoc(Effective(before, i), e);
        assert Effective(before, i) + [] == Effective(before, i);
        if i < Size(events) { AcceptAt(Assemble(before), e, i); }
      }
    } else {
      NothingAssembled();
    }
  }

  lemma NothingAssembled()
    ensures Assemble([]) == [] && Size([]) == 0 && forall i: nat :: Effective([], i) == []
  {
  }

  // ------------------------------------------------------------------
  // What the order across indices decides
  // ------------------------------------------------------------------

  /** The number of deltas in front of the first start. */
  function Lead(es: seq<StreamEvent>): (n: nat)
    ensures n <= |es|
    ensures forall k | 0 <= k < n :: es[k].Delta?
    ensures n < |es| ==> es[n].Start?
  {
    if es == [] then 0
    else
      var n := Lead(es[..|es| - 1]);
      if n == |es| - 1 && es[n].Delta? then n + 1 else n
  }

  predicate Started(events: seq<StreamEvent>, i: nat) {
    Lead(Only(events, i)) < |Only(events, i)|
  }

  lemma LeadSnoc(es: seq<StreamEvent>, e: StreamEvent)
    ensures Lead(es + [e]) == if Lead(es) == |es| && e.Delta? then |es| + 1 else Lead(es)
  {
    assert (es + [e])[..|es|] == es;
  }

  lemma OnlySnoc(events: seq<StreamEvent>, e: StreamEvent, i: nat)
    ensures Only(events + [e], i) == Only(events, i) + if e.idx == i then [e] else []
    ensures Started(events + [e], i) <==> Started(events, i) || (e.idx == i && e.Start?)
  {
    assert (events + [e])[..|events|] == events;
    LeadSnoc(Only(events, i), e);
    hide Lead, Only;
    assert Only(events, i) + [] == Only(events, i);
  }

  lemma SizeSnoc(events: seq<StreamEvent>, e: StreamEvent)
    ensures Size(events + [e]) == if e.Start? && Valid(e.idx) then Max(Size(events), e.idx + 1) else Size(events)
  {
    assert (events + [e])[..|events|] == events;
  }

  lemma EffectiveSnoc(events: seq<StreamEvent>, e: StreamEvent, i: nat)
    ensures Effective(events + [e], i)
         == Effective(events, i) + if e.idx == i && (e.Start? || i < Size(events)) then [e] else []
  {
    assert (events + [e])[..|events|] == events;
  }

  /** The number of slots is one past the largest index that is validly started. */
  lemma {:induction false} SizeIs(events: seq<StreamEvent>, n: nat)
    ensures n < Size(events) <==> exists i: nat :: n <= i < MAX_TOOL_CALL_INDEX && Started(events, i)
    decreases |events|
  {
    if events == [] {
      hide Lead;
    } else {
      var (before, e) := (events[..|events| - 1], events[|events| - 1]);
      assert events == before + [e];
      SizeIs(before, n);
      SizeSnoc(before, e);
      hide Size, Started, Only;
      forall i: nat ensures Started(events, i) <==> Started(before, i) || (e.idx == i && e.Start?) {
        OnlySnoc(before, e, i);
      }
      if e.Start? && Valid(e.idx) && n <= e.idx { assert Started(events, e.idx); }
    }
  }

  lemma OneMore(was: seq<StreamEvent>, e: StreamEvent, k: nat)
    requires k <= Lead(was)
    ensures k <= Lead(was + [e]) && (was + [e])[k..] == was[k..] + [e]
  {
    LeadSnoc(was, e);
    hide Lead;
  }

  lemma OneLost(was: seq<StreamEvent>, e: StreamEvent)
    requires Lead(was) == |was| && e.Delta?
    ensures Lead(was + [e]) == |was| + 1 && (was + [e])[|was| + 1..] == []
  {
    LeadSnoc(was, e);
    hide Lead;
  }

  /** One more event of index i counts, or it is a delta that finds no slot. */
  lemma EventCounts(before: seq<StreamEvent>, e: StreamEvent, i: nat)
    requires i < MAX_TOOL_CALL_INDEX
    ensures var events := before + [e];
            if e.idx != i then Only(events, i) == Only(before, i) && Effective(events, i) == Effective(before, i)
            else
              && Only(events, i) == Only(before, i) + [e]
              && (if e.Delta? && Size(before) <= i
                  then Effective(before, i) == Effective(events, i) == [] && !Started(before, i)
                  else Effective(events, i) == Effective(before, i) + [e])
  {
    OnlySnoc(before, e, i);
    EffectiveSnoc(before, e, i);
    AssembledIs(before);
    SizeIs(before, i);
    hide Only, Effective, Size, Started, Assemble, Described;
    assert Only(before, i) + [] == Only(before, i) && Effective(before, i) + [] == Effective(before, i);
  }

  /** An index loses at most deltas in front of its first start, the earliest ones. */
  lemma {:induction false} LosesLeading(events: seq<StreamEvent>, i: nat) returns (k: nat)
    requires i < MAX_TOOL_CALL_INDEX
    ensures k <= Lead(Only(events, i)) && Effective(events, i) == Only(events, i)[k..]
    decreases |events|
  {
    if events == [] {
      k := 0;
    } else {
      hide Only, Effective, Lead, Size;
      var (before, e) := (events[..|events| - 1], events[|events| - 1]);
      assert events == before + [e];
      k := LosesLeading(before, i);
      EventCounts(before, e, i);
      var was := Only(before, i);
      if e.idx == i {
        if e.Delta? && Size(before) <= i {
          OneLost(was, e);
          k := |was| + 1;
        } else {
          OneMore(was, e, k);
        }
      }
    }
  }

  predicate NoneAbove(events: seq<StreamEvent>, i: nat) {
    forall j: nat | i < j < MAX_TOOL_CALL_INDEX :: !Started(events, j)
  }

  lemma NoneAboveBefore(before: seq<StreamEvent>, e: StreamEvent, i: nat)
    requires NoneAbove(before + [e], i)
    ensures NoneAbove(before, i)
  {
    hide Started;
    forall j: nat | i < j < MAX_TOOL_CALL_INDEX ensures !Started(before, j) {
      OnlySnoc(before, e, j);
    }
  }

  lemma SlotIsOwn(events: seq<StreamEvent>, i: nat)
    requires i < MAX_TOOL_CALL_INDEX && NoneAbove(events, i)
    ensures i < Size(events) <==> Started(events, i)
  {
    SizeIs(events, i);
    hide Size, Started;
  }

  lemma StartedOwn(was: seq<StreamEvent>, e: StreamEvent)
    requires Lead(was) < |was| || e.Start?
    ensures Lead(was + [e]) == Lead(was)
  {
    LeadSnoc(was, e);
  }

  /** Without a start at a larger index it loses all of them. */
  lemma {:induction false} LosesAll(events: seq<StreamEvent>, i: nat)
    requires i < MAX_TOOL_CALL_INDEX && NoneAbove(events, i)
    ensures Effective(events, i) == Only(events, i)[Lead(Only(events, i))..]
    decreases |events|
  {
    if events != [] {
      hide Only, Effective, Lead, Size, NoneAbove;
      var (before, e) := (events[..|events| - 1], events[|events| - 1]);
      assert events == before + [e];
      NoneAboveBefore(before, e, i);
      LosesAll(before, i);
      EventCounts(before, e, i);
      SlotIsOwn(before, i);
      var was := Only(before, i);
      if e.idx == i {
        if e.Delta? && Size(before) <= i {
          OneLost(was, e);
        } else {
          StartedOwn(was, e);
          OneMore(was, e, Lead(was));
        }
      }
    }
  }

  // ------------------------------------------------------------------
  // Leading deltas and what they add
  // ------------------------------------------------------------------

  /** A delta in front puts its text in front of the arguments. */
  lemma {:induction false} DeltaInFront(d: StreamEvent, es: seq<StreamEvent>)
    requires d.Delta?
    ensures Described([d] + es) == Described(es).(arguments := d.args + Described(es).arguments)
    decreases |es|
  {
    if es == [] {
      assert [] + [d] == [d] + es;
      DescribedSnoc([], d);
      assert "" + d.args == d.args && d.args + "" == d.args;
    } else {
      var (before, e) := (es[..|es| - 1], es[|es| - 1]);
      assert es == before + [e] && [d] + es == ([d] + before) + [e];
      DeltaInFront(d, before);
      DescribedSnoc(before, e);
      DescribedSnoc([d] + before, e);
      hide Described;
      if e.Delta? {
        assert (d.args + Described(before).arguments) + e.args == d.args + (Described(before).arguments + e.args);
      }
    }
  }

  /** The text of the deltas from k to n. */
  function TextOf(es: seq<StreamEvent>, k: nat, n: nat): string
    requires k <= n <= |es| && forall j | k <= j < n :: es[j].Delta?
    decreases n - k
  {
    if k == n then "" else es[k].args + TextOf(es, k + 1, n)
  }

  lemma {:induction false} LeadingText(es: seq<StreamEvent>, k: nat, n: nat)
    requires k <= n <= |es| && forall j | 0 <= j < n :: es[j].Delta?
    ensures Described(es[k..]) == Described(es[n..]).(arguments := TextOf(es, k, n) + Described(es[n..]).arguments)
    decreases n - k
  {
    if k == n {
      assert "" + Described(es[n..]).arguments == Described(es[n..]).arguments;
    } else {
      LeadingText(es, k + 1, n);
      assert es[k..] == [es[k]] + es[k + 1..];
      DeltaInFront(es[k], es[k + 1..]);
      hide Described;
      var (a, b, c) := (es[k].args, TextOf(es, k + 1, n), Described(es[n..]).arguments);
      assert (a + b) + c == a + (b + c);
    }
  }

  lemma {:induction false} NoTextBehind(es: seq<StreamEvent>, k: nat, n: nat, m: nat)
    requires m <= k <= n <= |es| && (forall j | 0 <= j < n :: es[j].Delta?) && TextOf(es, m, n) == ""
    ensures TextOf(es, k, n) == ""
    decreases k - m
  {
    if m < k { NoTextBehind(es, k, n, m + 1); }
  }

  // ------------------------------------------------------------------
  // The exact condition
  // ------------------------------------------------------------------

  /** The two streams have the same events for every valid index. */
  predicate SameParts(a: seq<StreamEvent>, b: seq<StreamEvent>) {
    forall i: nat | i < MAX_TOOL_CALL_INDEX :: Only(a, i) == Only(b, i)
  }

  /** What the deltas of i in front of its first start add. */
  function EarlyText(events: seq<StreamEvent>, i: nat): string {
    TextOf(Only(events, i), 0, Lead(Only(events, i)))
  }

  /** For every valid index the deltas in front of its first start add nothing, or
      no larger index is started. */
  predicate OrderFree(events: seq<StreamEvent>) {
    forall i: nat | i < MAX_TOOL_CALL_INDEX :: EarlyText(events, i) == "" || NoneAbove(events, i)
  }

  /** In an order-free stream a call is described by its events from the first
      start on. */
  lemma DescribedFromStart(events: seq<StreamEvent>, i: nat)
    requires i < MAX_TOOL_CALL_INDEX && (EarlyText(events, i) == "" || NoneAbove(events, i))
    ensures Described(Effective(events, i)) == Described(Only(events, i)[Lead(Only(events, i))..])
  {
    hide Described, Effective, Only, Lead, NoneAbove, TextOf;
    if NoneAbove(events, i) {
      LosesAll(events, i);
    } else {
      var es := Only(events, i);
      var n := Lead(es);
      var k := LosesLeading(events, i);
      NoTextBehind(es, k, n, 0);
      LeadingText(es, k, n);
      assert "" + Described(es[n..]).arguments == Described(es[n..]).arguments;
    }
  }

  lemma SameSize(a: seq<StreamEvent>, b: seq<StreamEvent>)
    requires SameParts(a, b)
    ensures Size(a) == Size(b)
  {
    SizeIs(a, Size(b));
    SizeIs(b, Size(b));
    SizeIs(b, Size(a));
    SizeIs(a, Size(a));
    assert forall i: nat | i < MAX_TOOL_CALL_INDEX :: Started(a, i) <==> Started(b, i);
    hide Size, Started;
  }

  lemma SameAbove(a: seq<StreamEvent>, b: seq<StreamEvent>, i: nat)
    requires SameParts(a, b) && i < MAX_TOOL_CALL_INDEX
    ensures Only(a, i) == Only(b, i) && (NoneAbove(a, i) ==> NoneAbove(b, i))
  {
    hide Lead;
    forall j: nat | j < MAX_TOOL_CALL_INDEX ensures Started(a, j) <==> Started(b, j) {
      assert Only(a, j) == Only(b, j);
    }
  }

  lemma OrderFreeSame(a: seq<StreamEvent>, b: seq<StreamEvent>)
    requires SameParts(a, b) && OrderFree(a)
    ensures Assemble(a) == Assemble(b)
  {
    hide Described, Effective, Only, Lead, Assemble, Size, TextOf, NoneAbove;
    AssembledIs(a);
    AssembledIs(b);
    SameSize(a, b);
    forall i: nat | i < Size(a) ensures Assemble(a)[i] == Assemble(b)[i] {
      SameAbove(a, b, i);
      DescribedFromStart(a, i);
      DescribedFromStart(b, i);
    }
  }

  /** The events of the other indices. */
  function Without(events: seq<StreamEvent>, i: nat): seq<StreamEvent> {
    if events == [] then []
    else
      var e := events[|events| - 1];
      Without(events[..|events| - 1], i) + if e.idx == i then [] else [e]
  }

  /** The same events with those of index i moved to the front. */
  function Fronted(events: seq<StreamEvent>, i: nat): seq<StreamEvent> {
    Only(events, i) + Without(events, i)
  }

  lemma {:induction false} OnlyConcat(a: seq<StreamEvent>, b: seq<StreamEvent>, i: nat)
    ensures Only(a + b, i) == Only(a, i) + Only(b, i)
    decreases |b|
  {
    if b == [] {
      assert a + b == a;
    } else {
      var (before, e) := (b[..|b| - 1], b[|b| - 1]);
      assert b == before + [e] && a + b == (a + before) + [e];
      OnlyConcat(a, before, i);
      OnlySnoc(a + before, e, i);
      OnlySnoc(before, e, i);
    }
  }

  lemma WithoutSnoc(events: seq<StreamEvent>, e: StreamEvent, i: nat)
    ensures Without(events + [e], i) == Without(events, i) + if e.idx == i then [] else [e]
  {
    assert (events + [e])[..|events|] == events;
  }

  lemma OnlyOther(events: seq<StreamEvent>, e: StreamEvent, i: nat)
    ensures Only(events + [e], i) == if e.idx == i then Only(events, i) + [e] else Only(events, i)
  {
    OnlySnoc(events, e, i);
    hide Only;
    assert Only(events, i) + [] == Only(events, i);
  }

  lemma {:induction false} OnlyOfOnly(events: seq<StreamEvent>, i: nat, j: nat)
    ensures Only(Only(events, i), j) == if i == j then Only(events, i) else []
    decreases |events|
  {
    if events != [] {
      hide Only;
      var (before, e) := (events[..|events| - 1], events[|events| - 1]);
      assert events == before + [e];
      OnlyOfOnly(before, i, j);
      OnlyOther(before, e, i);
      OnlyOther(Only(before, i), e, j);
    }
  }

  lemma {:induction false} OnlyOfWithout(events: seq<StreamEvent>, i: nat, j: nat)
    ensures Only(Without(events, i), j) == if i == j then [] else Only(events, j)
    decreases |events|
  {
    if events != [] {
      hide Only, Without;
      var (before, e) := (events[..|events| - 1], events[|events| - 1]);
      assert events == before + [e];
      OnlyOfWithout(before, i, j);
      OnlyOther(before, e, j);
      WithoutSnoc(before, e, i);
      OnlyOther(Without(before, i), e, j);
      assert Without(before, i) + [] == Without(before, i);
    }
  }

  lemma FrontedSameParts(events: seq<StreamEvent>, i: nat)
    ensures SameParts(events, Fronted(events, i))
  {
    hide Only, Without;
    forall j: nat ensures Only(Fronted(events, i), j) == Only(events, j) {
      OnlyConcat(Only(events, i), Without(events, i), j);
      OnlyOfOnly(events, i, j);
      OnlyOfWithout(events, i, j);
      assert [] + Only(events, j) == Only(events, j) && Only(events, j) + [] == Only(events, j);
    }
  }

  /** Events of i behind a stream that has its slot all count. */
  lemma {:induction false} EffectiveConcat(a: seq<StreamEvent>, b: seq<StreamEvent>, i: nat)
    ensures i < Size(a) ==> Effective(a + b, i) == Effective(a, i) + Only(b, i) && i < Size(a + b)
    ensures Only(b, i) == [] ==> Effective(a + b, i) == Effective(a, i)
    decreases |b|
  {
    if b == [] {
      assert a + b == a;
    } else {
      var (before, e) := (b[..|b| - 1], b[|b| - 1]);
      assert b == before + [e] && a + b == (a + before) + [e];
      EffectiveConcat(a, before, i);
      EffectiveSnoc(a + before, e, i);
      OnlySnoc(before, e, i);
      SizeSnoc(a + before, e);
      hide Only, Effective, Size;
    }
  }

  /** Index i first: its early deltas find no slot. */
  lemma OwnFirst(events: seq<StreamEvent>, i: nat)
    requires i < MAX_TOOL_CALL_INDEX
    ensures Effective(Fronted(events, i), i) == Only(events, i)[Lead(Only(events, i))..]
  {
    var own := Only(events, i);
    OnlyOfOnly(events, i, i);
    OnlyOfWithout(events, i, i);
    forall j: nat | i < j < MAX_TOOL_CALL_INDEX ensures !Started(own, j) {
      OnlyOfOnly(events, i, j);
    }
    hide Only, Without, Effective, Lead;
    LosesAll(own, i);
    EffectiveConcat(own, Without(events, i), i);
  }

  lemma {:induction false} NothingEffective(events: seq<StreamEvent>, i: nat)
    requires Only(events, i) == []
    ensures Effective(events, i) == []
    decreases |events|
  {
    if events != [] { NothingEffective(events[..|events| - 1], i); }
  }

  /** A larger started index first: all events of i count. */
  lemma LargerFirst(events: seq<StreamEvent>, i: nat, j: nat)
    requires i < j < MAX_TOOL_CALL_INDEX && Started(events, j)
    ensures Effective(Fronted(events, j), i) == Only(events, i)
  {
    var (front, rest) := (Only(events, j), Without(events, j));
    OnlyOfOnly(events, j, j);
    OnlyOfOnly(events, j, i);
    OnlyOfWithout(events, j, i);
    assert Started(front, j);
    SizeIs(front, i);
    hide Only, Without, Effective, Size, Started;
    NothingEffective(front, i);
    EffectiveConcat(front, rest, i);
    assert [] + Only(events, i) == Only(events, i);
  }

  /** An order that loses the early text against one that keeps it. */
  lemma OrdersDiffer(events: seq<StreamEvent>, i: nat, j: nat)
    requires i < j < MAX_TOOL_CALL_INDEX && Started(events, j) && EarlyText(events, i) != ""
    ensures Assemble(Fronted(events, i)) != Assemble(Fronted(events, j))
  {
    var (b, c) := (Fronted(events, i), Fronted(events, j));
    FrontedSameParts(events, i);
    FrontedSameParts(events, j);
    assert Only(b, j) == Only(events, j) && Only(c, j) == Only(events, j);
    assert Started(b, j) && Started(c, j);
    hide Only, Fronted, Effective, Described, Assemble, Lead, Size, Started, TextOf;
    OwnFirst(events, i);
    LargerFirst(events, i, j);
    AssembledIs(b);
    AssembledIs(c);
    SizeIs(b, i);
    SizeIs(c, i);
    var es := Only(events, i);
    var n := Lead(es);
    LeadingText(es, 0, n);
    assert es[0..] == es;
    assert Assemble(b)[i].arguments == Described(es[n..]).arguments;
    assert Assemble(c)[i].arguments == EarlyText(events, i) + Described(es[n..]).arguments;
  }

  /** Interleaving: all streams with the same events per index give the same pending
      calls exactly when, for every index, the deltas in front of its first start
      add nothing or no larger index is started. */
  lemma InterleavingIgnoredIff(a: seq<StreamEvent>)
    ensures (forall b | SameParts(a, b) :: Assemble(b) == Assemble(a)) <==> OrderFree(a)
  {
    hide Assemble, EarlyText, Started;
    if OrderFree(a) {
      forall b | SameParts(a, b) ensures Assemble(b) == Assemble(a) {
        OrderFreeSame(a, b);
      }
    } else {
      var i: nat :| i < MAX_TOOL_CALL_INDEX && EarlyText(a, i) != "" && !NoneAbove(a, i);
      var j: nat :| i < j < MAX_TOOL_CALL_INDEX && Started(a, j);
      OrdersDiffer(a, i, j);
      FrontedSameParts(a, i);
      FrontedSameParts(a, j);
      hide SameParts, Fronted;
    }
  }

  /** Every index that carries events begins with its start. */
  predicate StartsFirst(events: seq<StreamEvent>) {
    forall i: nat | i < MAX_TOOL_CALL_INDEX && Only(events, i) != [] :: Only(events, i)[0].Start?
  }

  lemma StartsFirstIsFree(events: seq<StreamEvent>)
    requires StartsFirst(events)
    ensures OrderFree(events)
  {
    hide Only;
  }

  /** Streams with the same events for every index, each index beginning with its
      start, give the same pending calls. */
  lemma InterleavingIgnored(a: seq<StreamEvent>, b: seq<StreamEvent>)
    requires SameParts(a, b) && StartsFirst(a)
    ensures Assemble(a) == Assemble(b)
  {
    StartsFirstIsFree(a);
    hide SameParts, StartsFirst, OrderFree, Assemble;
    OrderFreeSame(a, b);
  }

  lemma Pair(d: StreamEvent, s: StreamEvent, i: nat)
    ensures Assemble([d, s]) == Accept(Accept([], d), s)
    ensures Only([d, s], i) == (if d.idx == i then [d] else []) + (if s.idx == i then [s] else [])
  {
    assert [d, s][..1] == [d] && [d][..0] == [];
    assert Assemble([d]) == Accept([], d);
    assert Only([d], i) == if d.idx == i then [d] else [];
  }

  /** A delta for an index that has no slot yet is dropped. */
  lemma DeltaBeforeStart()
    ensures var d, s := Delta(0, "x"), Start(1, "b", "g");
            && SameParts([d, s], [s, d])
            && Assemble([d, s]) != Assemble([s, d])
  {
    var d, s := Delta(0, "x"), Start(1, "b", "g");
    hide Only, Assemble;
    forall i: nat ensures Only([d, s], i) == Only([s, d], i) {
      Pair(d, s, i);
      Pair(s, d, i);
    }
    Pair(d, s, 0);
    Pair(s, d, 0);
    assert Accept([], s)[0].arguments == "";
    assert Accept(Accept([], s), d)[0].arguments == "x";
    assert Accept([], d) == [];
  }

  lemma {:induction false} DescribedArguments(events: seq<StreamEvent>)
    ensures Described(events).arguments == Arguments(events)
    decreases |events|
  {
    if events != [] { DescribedArguments(events[..|events| - 1]); }
  }

  /** A call has the identity of its last start, or none without a start. */
  lemma {:induction false} DescribedIdentity(es: seq<StreamEvent>, k: nat)
    requires k <= |es| && (forall j | k < j < |es| :: es[j].Delta?)
    ensures k < |es| && es[k].Start? ==> Described(es).id == es[k].id && Described(es).name == es[k].name
    ensures (forall e | e in es :: e.Delta?) ==> Described(es).id == "" && Described(es).name == ""
    decreases |es|
  {
    if es != [] {
      var n := |es| - 1;
      if k < n {
        DescribedIdentity(es[..n], k);
      } else {
        DescribedIdentity(es[..n], n);
      }
      assert es[n] in es;
    }
  }

  /** Indices from 0 to 63 are accepted; a start at such an index makes room for it. */
  lemma IndexLimit(idx: int, id: string, name: string)
    ensures |Assemble([Start(idx, id, name)])| == if 0 <= idx <= 63 then idx + 1 else 0
    ensures 0 <= idx <= 63 ==> Assemble([Start(idx, id, name)])[idx] == ToolCall(id, name, "")
    ensures forall k | 0 <= k < |Assemble([Start(idx, id, name)])| - 1 :: Assemble([Start(idx, id, name)])[k] == ToolCall("", "", "")
  {
    assert [Start(idx, id, name)][..0] == [];
    assert Assemble([]) == [];
  }

  /** The calls that are kept: those that were given a name. */
  function Named(pending: seq<ToolCall>): (r: seq<ToolCall>)
    ensures |r| <= |pending|
  {
    if pending == [] then []
    else
      var n := |pending| - 1;
      Named(pending[..n]) + (if pending[n].name != "" then [pending[n]] else [])
  }

  /** calls are the named ones, found at these indices in increasing order. */
  predicate KeptAt(pending: seq<ToolCall>, calls: seq<ToolCall>, idx: seq<nat>) {
    && |idx| == |calls|
    && (forall j | 0 <= j < |idx| :: idx[j] < |pending| && calls[j] == pending[idx[j]] && calls[j].name != "")
    && (forall j, k | 0 <= j < k < |idx| :: idx[j] < idx[k])
    && (forall i: nat | i < |pending| && pending[i].name != "" :: i in idx)
  }

  ghost predicate Kept(pending: seq<ToolCall>, calls: seq<ToolCall>) {
    exists idx :: KeptAt(pending, calls, idx)
  }

  lemma KeptMore(pending: seq<ToolCall>, c: ToolCall, calls: seq<ToolCall>, idx: seq<nat>) returns (more: seq<nat>)
    requires KeptAt(pending, calls, idx)
    ensures KeptAt(pending + [c], calls + (if c.name != "" then [c] else []), more)
  {
    var all := pending + [c];
    assert forall i | 0 <= i < |pending| :: all[i] == pending[i];
    if c.name == "" {
      more := idx;
      assert calls + [] == calls;
    } else {
      more := idx + [|pending|];
      assert more[|idx|] == |pending|;
      forall i: nat | i < |all| && all[i].name != "" ensures i in more {
        if i < |pending| { assert i in idx; }
      }
    }
  }

  /** Named keeps the named calls in the order of their indices. */
  lemma {:induction false} NamedAt(pending: seq<ToolCall>) returns (idx: seq<nat>)
    ensures KeptAt(pending, Named(pending), idx)
    decreases |pending|
  {
    if pending == [] {
      idx := [];
    } else {
      var n := |pending| - 1;
      hide KeptAt;
      NamedLast(pending);
      hide Named;
      idx := NamedAt(pending[..n]);
      idx := KeptMore(pending[..n], pending[n], Named(pending[..n]), idx);
      assert pending == pending[..n] + [pending[n]];
    }
  }

  lemma {:induction false} NamedMembers(pending: seq<ToolCall>)
    ensures Named(pending) != [] <==> exists c :: c in pending && c.name != ""
    decreases |pending|
  {
    if pending != [] {
      var n := |pending| - 1;
      NamedMembers(pending[..n]);
      if pending[n].name != "" { assert pending[n] in pending; }
    }
  }

  lemma NamedLast(pending: seq<ToolCall>)
    requires pending != []
    ensures var n := |pending| - 1; Named(pending) == Named(pending[..n]) + (if pending[n].name != "" then [pending[n]] else [])
  {
  }

  lemma NamedKept(pending: seq<ToolCall>)
    ensures Kept(pending, Named(pending))
  {
    var idx := NamedAt(pending);
  }

  /** The callbacks over a stream. */
  method RunCallbacks(events: seq<StreamEvent>) returns (pendingCalls: seq<ToolCall>)
    ensures pendingCalls == Assemble(events)
    ensures |pendingCalls| <= MAX_TOOL_CALL_INDEX
  {
    pendingCalls := [];
    var k := 0;
    while k < |events|
      invariant 0 <= k <= |events|
      invariant pendingCalls == Assemble(events[..k])
    {
      assert events[..k + 1][..k] == events[..k];
      match events[k] {
        case Start(idx, id, name) =>
          if Valid(idx) {
            if idx >= |pendingCalls| {
              pendingCalls := pendingCalls + seq(idx + 1 - |pendingCalls|, _ => EMPTY_CALL);
            }
            pendingCalls := pendingCalls[idx := pendingCalls[idx].(id := id, name := name)];
          }
        case Delta(idx, args) =>
          if Valid(idx) && idx < |pendingCalls| {
            pendingCalls := pendingCalls[idx := pendingCalls[idx].(arguments := pendingCalls[idx].arguments + args)];
          }
      }
      k := k + 1;
    }
    assert events[..k] == events;
  }
}
