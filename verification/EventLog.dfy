/** The event log of an agent: appending, reading back, replaying. */
module EventLog {
  import opened Basics
  import opened JsonValues
  import opened Llm
  import opened RecordTypes
  import opened JsonAccess
  import opened RecordJson
  import opened RecordRoundTrip

  /** A line of the log file: empty, text that is not JSON, or text of a value. */
  datatype Line = Empty | Garbled(what: string) | Value(json: Json)

  function LineRecord(line: Line): Read<WireRecord>
    requires !line.Empty?
  {
    match line
    case Garbled(what) => Err(Invalid("json parse error: " + what))
    case Value(json) => RecordOf(json)
  }

  /** The records of all lines that are not empty, or the first failure. */
  function ReadRecords(lines: seq<Line>): Read<seq<WireRecord>>
    decreases |lines|
  {
    if lines == [] then Ok([])
    else if lines[0].Empty? then ReadRecords(lines[1..])
    else
      var first :- LineRecord(lines[0]);
      var rest :- ReadRecords(lines[1..]);
      Ok([first] + rest)
  }

  /** The index of the first line that is not empty and not a record, or the length. */
  function BadLine(lines: seq<Line>): (i: nat)
    ensures i <= |lines|
    ensures forall k | 0 <= k < i :: lines[k].Empty? || LineRecord(lines[k]).Ok?
    ensures i < |lines| ==> !lines[i].Empty? && LineRecord(lines[i]).Err?
    decreases |lines|
  {
    if lines == [] || (!lines[0].Empty? && LineRecord(lines[0]).Err?) then 0 else 1 + BadLine(lines[1..])
  }

  /** The lines that are not empty. */
  function Filled(lines: seq<Line>): (r: seq<Line>)
    ensures forall l | l in r :: !l.Empty?
    decreases |lines|
  {
    if lines == [] then [] else (if lines[0].Empty? then [] else [lines[0]]) + Filled(lines[1..])
  }

  /** A log reads as the records of its lines that are not empty, in order, or fails
      with what is wrong with the first line that is not a record. */
  lemma {:induction false} RecordsAre(lines: seq<Line>)
    ensures match ReadRecords(lines)
            case Ok(wires) =>
              && BadLine(lines) == |lines| && |wires| == |Filled(lines)|
              && (forall j | 0 <= j < |wires| :: Filled(lines)[j].Value? && RecordOf(Filled(lines)[j].json) == Ok(wires[j]))
            case Err(failure) =>
              && BadLine(lines) < |lines|
              && var bad := lines[BadLine(lines)];
                 if bad.Garbled? then failure == Invalid("json parse error: " + bad.what)
                 else bad.Value? && RecordOf(bad.json) == Err(failure)
    decreases |lines|
  {
    hide RecordOf;
    if lines != [] {
      RecordsAre(lines[1..]);
    }
  }

  lemma ReadOne(wire: WireRecord)
    ensures ReadRecords([Value(RecordToJson(wire))]) == Ok([Normalize(wire)])
  {
    RecordRoundTripUpTo(wire);
    hide RecordOf, RecordToJson, Normalize;
    var lines := [Value(RecordToJson(wire))];
    assert lines[0] == Value(RecordToJson(wire)) && lines[1..] == [];
    assert ReadRecords([]) == Ok([]);
    assert [Normalize(wire)] + [] == [Normalize(wire)];
  }

  /** A line that was written reads back behind the records before it; what made
      a log unreadable before still does. */
  lemma {:induction false} ReadSnoc(lines: seq<Line>, wire: WireRecord)
    ensures ReadRecords(lines + [Value(RecordToJson(wire))])
         == match ReadRecords(lines)
            case Ok(wires) => Ok(wires + [Normalize(wire)])
            case Err(failure) => Err(failure)
    decreases |lines|
  {
    hide LineRecord, RecordToJson, Normalize;
    var more := lines + [Value(RecordToJson(wire))];
    if lines == [] {
      assert more == [Value(RecordToJson(wire))];
      ReadOne(wire);
      assert [] + [Normalize(wire)] == [Normalize(wire)];
    } else {
      assert more[0] == lines[0] && more[1..] == lines[1..] + [Value(RecordToJson(wire))];
      ReadSnoc(lines[1..], wire);
      if !lines[0].Empty? && LineRecord(lines[0]).Ok? && ReadRecords(lines[1..]).Ok? {
        var (first, rest) := (LineRecord(lines[0]).value, ReadRecords(lines[1..]).value);
        assert [first] + (rest + [Normalize(wire)]) == ([first] + rest) + [Normalize(wire)];
      }
    }
  }

  /** The records without their envelopes. */
  function Payloads(wires: seq<WireRecord>): (r: seq<AgentRecord>)
    ensures |r| == |wires|
  {
    seq(|wires|, i requires 0 <= i < |wires| => wires[i].record)
  }

  /** A record as it reads after writing. */
  function AsRead(record: AgentRecord): AgentRecord {
    Normalize(WireRecord(0, PROTOCOL, record)).record
  }

  lemma PayloadsSnoc(wires: seq<WireRecord>, now: int, record: AgentRecord)
    ensures Payloads(wires + [Normalize(WireRecord(now, PROTOCOL, record))]) == Payloads(wires) + [AsRead(record)]
  {
  }

  /** What a replay callback does with a record: its new state, what it tries
      to log meanwhile, and whether it succeeds. */
  datatype Applied<S> = Applied(state: S, logged: seq<AgentRecord>, ok: bool)

  /** The callback applied to record after record until it fails. */
  function Fold<S>(apply: (S, AgentRecord) -> Applied<S>, s: S, records: seq<AgentRecord>): (S, bool)
    decreases |records|
  {
    if records == [] then (s, true)
    else
      var a := apply(s, records[0]);
      if a.ok then Fold(apply, a.state, records[1..]) else (a.state, false)
  }

  /** The callback is applied to the first n records, each time to the state that it left
      before, and succeeds on all of them but perhaps the last. */
  predicate Walked<S(==)>(apply: (S, AgentRecord) -> Applied<S>, states: seq<S>, records: seq<AgentRecord>, n: nat)
    requires n <= |records| && |states| == n + 1
  {
    && (forall k | 0 <= k < n :: apply(states[k], records[k]).state == states[k + 1])
    && (forall k | 0 <= k < n - 1 :: apply(states[k], records[k]).ok)
  }

  /** The fold goes through all records, or up to the first that fails. */
  lemma {:induction false} FoldWalks<S>(apply: (S, AgentRecord) -> Applied<S>, s: S, records: seq<AgentRecord>)
    returns (states: seq<S>, n: nat)
    ensures n <= |records| && |states| == n + 1 && states[0] == s && Walked(apply, states, records, n)
    ensures Fold(apply, s, records).0 == states[n]
    ensures if Fold(apply, s, records).1 then n == |records| && (n > 0 ==> apply(states[n - 1], records[n - 1]).ok)
            else n > 0 && !apply(states[n - 1], records[n - 1]).ok
    decreases |records|
  {
    if records == [] {
      states, n := [s], 0;
    } else {
      var a := apply(s, records[0]);
      if a.ok {
        var more, m := FoldWalks(apply, a.state, records[1..]);
        states, n := [s] + more, m + 1;
        forall k | 0 <= k < n ensures apply(states[k], records[k]).state == states[k + 1] {
          if k > 0 { assert states[k] == more[k - 1] && records[k] == records[1..][k - 1] && states[k + 1] == more[k - 1 + 1]; }
        }
        forall k | 0 <= k < n - 1 ensures apply(states[k], records[k]).ok {
          if k > 0 { assert states[k] == more[k - 1] && records[k] == records[1..][k - 1]; }
        }
      } else {
        states, n := [s, a.state], 1;
      }
    }
  }

  datatype ReplayStatus = Replayed | NoPersistence | Closed | HostFailed | ReadFailed(line: nat, failure: Failure) | ApplyFailed

  /** The log. Its file has no lines while it is missing; canAppend and
      canRead say whether there is a host that would do so at the moment. */
  class AgentRecords {
    var lines: seq<Line>
    var closed: bool
    var restoring: bool
    var canAppend: bool
    var canRead: bool
    const persistence: bool

    ghost predicate Readable()
      reads this
    {
      ReadRecords(lines).Ok?
    }

    /** What the log holds. */
    ghost function Contents(): seq<AgentRecord>
      requires Readable()
      reads this
    {
      Payloads(ReadRecords(lines).value)
    }

    ghost predicate Writing()
      reads this
    {
      persistence && !closed && !restoring && canAppend
    }

    constructor (persistence: bool, host: bool)
      ensures lines == [] && !closed && !restoring && canAppend == canRead == host && this.persistence == persistence
      ensures Readable() && Contents() == []
    {
      this.persistence := persistence;
      lines, closed, restoring, canAppend, canRead := [], false, false, host, host;
    }

    method Log(record: AgentRecord, now: int) returns (ok: bool)
      modifies this`lines
      ensures ok == (restoring || Writing())
      ensures lines == if old(Writing()) then old(lines) + [Value(RecordToJson(WireRecord(now, PROTOCOL, record)))] else old(lines)
      ensures Readable() == old(Readable())
      ensures old(Readable()) ==>
                && Contents() == if old(Writing()) then old(Contents()) + [AsRead(record)] else old(Contents())
    {
      hide RecordToJson, ReadRecords, LineRecord, AsRead, Normalize, Payloads;
      if restoring { return true; }
      if !persistence { return false; }
      if closed { return false; }
      if !canAppend { return false; }
      ghost var before := lines;
      var wire := WireRecord(now, PROTOCOL, record);
      var line := WireRecordToJson(wire);
      lines := lines + [Value(line)];
      ReadSnoc(before, wire);
      if ReadRecords(before).Ok? {
        PayloadsSnoc(ReadRecords(before).value, now, record);
      }
      ok := true;
    }

    method ParseLine(line: Line) returns (r: Read<WireRecord>)
      requires !line.Empty?
      ensures r == LineRecord(line)
    {
      match line
      case Garbled(what) => r := Err(Invalid("json parse error: " + what));
      case Value(json) => r := ParseWireRecord(json);
    }

    method Read() returns (r: Result<seq<WireRecord>, ReplayStatus>)
      ensures r == if !persistence then Err(NoPersistence) else if closed then Err(Closed) else if !canRead then Err(HostFailed)
                   else match ReadRecords(lines)
                        case Ok(wires) => Ok(wires)
                        case Err(failure) => Err(ReadFailed(BadLine(lines) + 1, failure))
    {
      hide RecordOf, LineRecord;
      if !persistence { return Err(NoPersistence); }
      if closed { return Err(Closed); }
      if !canRead { return Err(HostFailed); }
      var records: seq<WireRecord> := [];
      assert lines[0..] == lines;
      OntoNothing(ReadRecords(lines));
      for i := 0 to |lines|
        invariant ReadRecords(lines) == Onto(records, ReadRecords(lines[i..]))
        invariant BadLine(lines) == i + BadLine(lines[i..])
      {
        assert lines[i..][0] == lines[i] && lines[i..][1..] == lines[i + 1..];
        if lines[i].Empty? { continue; }
        var parsed := ParseLine(lines[i]);
        if parsed.Err? {
          OntoFailure(records, Err(parsed.error));
          return Err(ReadFailed(i + 1, parsed.error));
        }
        OntoOneMore(records, parsed.value, ReadRecords(lines[i + 1..]));
        records := records + [parsed.value];
      }
      OntoEnd(records);
      r := Ok(records);
    }

    /** Replay: the callback sees every record in order, and nothing it tries to
        log is written. */
    method Replay<S>(apply: (S, AgentRecord) -> Applied<S>, s0: S, now: int) returns (s: S, status: ReplayStatus)
      modifies this`lines, this`restoring
      ensures lines == old(lines)
      ensures persistence && !closed && canRead && Readable() ==>
                !restoring
                && s == Fold(apply, s0, Contents()).0
                && status == if Fold(apply, s0, Contents()).1 then Replayed else ApplyFailed
      ensures !(persistence && !closed && canRead && Readable()) ==> s == s0 && restoring == old(restoring) && !status.Replayed?
    {
      hide ReadRecords;
      s := s0;
      var read := Read();
      if read.Err? { return s0, read.error; }
      restoring := true;
      ghost var records := Contents();
      assert records[0..] == records;
      status := Replayed;
      var i := 0;
      while i < |read.value|
        invariant 0 <= i <= |read.value| == |records|
        invariant restoring && lines == old(lines)
        invariant Fold(apply, s, records[i..]) == Fold(apply, s0, records)
        decreases |read.value| - i
      {
        assert records[i..][1..] == records[i + 1..];
        var applied := apply(s, read.value[i].record);
        TryLog(applied.logged, now);
        s := applied.state;
        if !applied.ok {
          status := ApplyFailed;
          break;
        }
        i := i + 1;
      }
      restoring := false;
    }

    /** What a callback logs while a replay is on. */
    method TryLog(records: seq<AgentRecord>, now: int)
      requires restoring
      modifies this`lines
      ensures lines == old(lines)
    {
      for k := 0 to |records|
        invariant lines == old(lines)
      {
        var _ := Log(records[k], now);
      }
    }
  }

  /** The messages a log holds. */
  function MessagesIn(records: seq<AgentRecord>): seq<Message>
    decreases |records|
  {
    if records == [] then []
    else
      var r := records[|records| - 1];
      MessagesIn(records[..|records| - 1]) + if r.AppendMessage? then [r.message] else []
  }

  lemma {:induction false} MessagesInConcat(a: seq<AgentRecord>, b: seq<AgentRecord>)
    ensures MessagesIn(a + b) == MessagesIn(a) + MessagesIn(b)
    decreases |b|
  {
    if b == [] {
      assert a + b == a;
    } else {
      assert (a + b)[..|a + b| - 1] == a + b[..|b| - 1];
      MessagesInConcat(a, b[..|b| - 1]);
    }
  }

  lemma {:induction false} NoMessagesIn(records: seq<AgentRecord>)
    requires forall r | r in records :: !r.AppendMessage?
    ensures MessagesIn(records) == []
    decreases |records|
  {
    if records != [] {
      assert records[|records| - 1] in records;
      NoMessagesIn(records[..|records| - 1]);
    }
  }
}
