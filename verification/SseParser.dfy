/** The parser object, and the caller's loop that feeds a chunk and drains it. */
module SseParser {
  import opened Basics
  import opened SseSpec

  class SseParser {
    var buffer: string
    var currentEventData: string
    var currentEventHasData: bool
    var isDone: bool

    function State(): Parser
      reads this
    {
      Parser(buffer, currentEventData, currentEventHasData, isDone)
    }

    constructor ()
      ensures State() == FRESH
    {
      buffer, currentEventData, currentEventHasData, isDone := "", "", false, false;
    }

    method Reset()
      modifies this
      ensures State() == FRESH
    {
      buffer, currentEventData, currentEventHasData, isDone := "", "", false, false;
    }

    method Feed(data: string)
      modifies this`buffer
      ensures State() == Fed(old(State()), data)
    {
      buffer := buffer + data;
    }

    method TryExtractLine() returns (line: string, found: bool)
      modifies this`buffer
      ensures found == ExtractLine(old(buffer)).Some?
      ensures found ==> ExtractLine(old(buffer)) == Some((line, buffer))
      ensures !found ==> buffer == old(buffer)
      ensures found ==> |buffer| < |old(buffer)|
    {
      line, found := "", false;
      var i := 0;
      while i < |buffer| && !IsTerminator(buffer[i])
        invariant 0 <= i <= |buffer|
        invariant buffer == old(buffer)
        invariant forall j | 0 <= j < i :: !IsTerminator(buffer[j])
      {
        i := i + 1;
      }
      LineEndIs(buffer, i);
      if i == |buffer| {
        return;
      }
      var termLen := 1;
      if buffer[i] == '\r' && i + 1 < |buffer| && buffer[i + 1] == '\n' {
        termLen := 2;
      }
      line, found := buffer[..i], true;
      buffer := buffer[i + termLen..];
    }

    /** The first event that can be read now. What is left drains to the rest. */
    method NextEvent() returns (event: Option<string>)
      modifies this
      ensures event.Some? ==> Drain(old(State())) == ([event.value] + Drain(State()).0, Drain(State()).1)
      ensures event.None? ==> Drain(old(State())) == ([], State())
      ensures event.None? ==> Drain(State()) == ([], State())
      ensures |buffer| <= |old(buffer)| && (event.Some? ==> |buffer| < |old(buffer)|)
    {
      if isDone {
        return None;
      }
      var line, more := TryExtractLine();
      ghost var before := old(State());
      while more
        invariant !isDone && !before.done && |buffer| <= |old(buffer)|
        invariant Drain(before) == Drain(old(State()))
        invariant more ==> ExtractLine(before.buffer) == Some((line, buffer)) && |buffer| < |old(buffer)|
        invariant before.data == currentEventData && before.hasData == currentEventHasData
        invariant !more ==> before == State() && ExtractLine(buffer).None?
        decreases |buffer| + (if more then 1 else 0)
      {
        LineTail(before, line, buffer);
        if line == "" {
          if currentEventHasData {
            if currentEventData == "[DONE]" {
              isDone := true;
              currentEventData, currentEventHasData := "", false;
              return None;
            }
            event := Some(currentEventData);
            currentEventData, currentEventHasData := "", false;
            return;
          }
        } else if line[0] == ':' {
        } else if "data:" <= line {
          var value := line[5..];
          if value != "" && value[0] == ' ' {
            value := value[1..];
          }
          if currentEventHasData {
            currentEventData := currentEventData + "\n";
          }
          currentEventData := currentEventData + value;
          currentEventHasData := true;
        }
        before := State();
        line, more := TryExtractLine();
      }
      return None;
    }

    /** OpenAiProvider's onChunk: feed the chunk, then read every event it completes. */
    method OnChunk(data: string) returns (events: seq<string>)
      modifies this
      ensures (events, State()) == Drain(Fed(old(State()), data))
    {
      hide Drain;
      Feed(data);
      ghost var fed := State();
      events := [];
      var event := NextEvent();
      if event.Some? { assert events + ([event.value] + Drain(State()).0) == [event.value] + Drain(State()).0; }
      while event.Some?
        invariant event.Some? ==> Drain(fed) == (events + ([event.value] + Drain(State()).0), Drain(State()).1)
        invariant event.None? ==> Drain(fed) == (events, State())
        decreases |buffer| + (if event.Some? then 1 else 0)
      {
        ghost var was, rest, e := events, Drain(State()).0, event.value;
        events := events + [event.value];
        assert was + ([e] + rest) == events + rest;
        event := NextEvent();
        if event.None? { assert events + rest == events; }
      }
    }
  }

  lemma {:induction false} LineEndIs(b: string, i: nat)
    requires i <= |b| && (forall j | 0 <= j < i :: !IsTerminator(b[j])) && (i < |b| ==> IsTerminator(b[i]))
    ensures LineEnd(b) == i
    decreases i
  {
    if i > 0 { LineEndIs(b[1..], i - 1); }
  }

  lemma LineTail(p: Parser, line: string, rest: string)
    requires !p.done && ExtractLine(p.buffer) == Some((line, rest))
    ensures var (e, q) := OnLine(p.(buffer := rest), line);
            && Drain(p) == (EventList(e) + Drain(q).0, Drain(q).1)
            && (e.None? ==> Drain(p) == Drain(q))
            && (q.done ==> Drain(q) == ([], q))
  {
    hide LineEnd, ExtractLine, OnLine;
    var (e, q) := OnLine(p.(buffer := rest), line);
    assert EventList(None) + Drain(q).0 == Drain(q).0;
  }
}
