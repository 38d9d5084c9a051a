/** Which two chunks are read as the one stream they make up. */
module SseBoundary {
  import opened Basics
  import opened SseSpec
  import opened SseChunks

  /** The first complete line of c that is blank or a data line is blank. */
  predicate ClosesNow(c: string)
    decreases |c|
  {
    match ExtractLine(c)
    case None => false
    case Some((line, rest)) => line == "" || (!("data:" <= line) && ClosesNow(rest))
  }

  /** Reading b behind p in two goes gives the events and the done flag of reading
      it in one. */
  ghost predicate Agrees(p: Parser, b: string) {
    && Drain(Fed(p, b)).0 == Drain(p).0 + Drain(Fed(Drain(p).1, b)).0
    && Drain(Fed(p, b)).1.done == Drain(Fed(Drain(p).1, b)).1.done
  }

  predicate Begins(e: string, prefix: string) {
    prefix + "\n" <= e
  }

  /** Data that goes on behind a line feed can only complete an event that does. */
  lemma {:induction false} FirstEventBegins(p: Parser, prefix: string)
    requires !p.done && p.hasData && Begins(p.data, prefix)
    ensures var (es, q) := Drain(p);
            if es == [] then !q.done else Begins(es[0], prefix)
    decreases |p.buffer|
  {
    if ExtractLine(p.buffer).Some? {
      var (line, rest) := ExtractLine(p.buffer).value;
      var (e, q) := OnLine(p.(buffer := rest), line);
      DrainLine(p, line, rest);
      LineBegins(p.(buffer := rest), line, prefix);
      hide Drain, OnLine, ExtractLine, Begins;
      if e.None? { FirstEventBegins(q, prefix); }
    } else {
      DrainNothing(p);
    }
  }

  lemma LineBegins(p: Parser, line: string, prefix: string)
    requires !p.done && p.hasData && Begins(p.data, prefix)
    ensures var (e, q) := OnLine(p, line);
            && (e.Some? ==> Begins(e.value, prefix))
            && (e.None? ==> !q.done && q.hasData && Begins(q.data, prefix))
  {
    assert p.data[|prefix|] == '\n';
  }

  /** What closing the event now leaves, against keeping it open. */
  ghost predicate ClosingAgrees(q: Parser) {
    var (e, closed) := OnLine(q, "");
    && Drain(q).0 == EventList(e) + Drain(closed).0
    && Drain(q).1.done == Drain(closed).1.done
  }

  lemma NothingCloses(q: Parser)
    requires q.hasData && !q.done && ExtractLine(q.buffer).None?
    ensures !ClosingAgrees(q)
  {
    var (_, closed) := OnLine(q, "");
    hide ExtractLine;
    DrainNothing(q);
    DrainNothing(closed);
  }

  lemma BlankCloses(q: Parser, rest: string)
    requires q.hasData && !q.done && ExtractLine(q.buffer) == Some(("", rest))
    ensures ClosingAgrees(q)
  {
    var (e, closed) := OnLine(q, "");
    DrainLine(q, "", rest);
    if closed.done {
      DrainNothing(closed);
      DrainNothing(closed.(buffer := rest));
    } else {
      DrainLine(closed, "", rest);
      hide Drain, ExtractLine;
      assert EventList(None) + Drain(closed.(buffer := rest)).0 == Drain(closed.(buffer := rest)).0;
    }
  }

  lemma DataKeepsOpen(q: Parser, line: string, rest: string)
    requires q.hasData && !q.done && ExtractLine(q.buffer) == Some((line, rest)) && "data:" <= line
    ensures !ClosingAgrees(q)
  {
    var (e, closed) := OnLine(q, "");
    var (f, more) := OnLine(q.(buffer := rest), line);
    DrainLine(q, line, rest);
    assert Begins(more.data, q.data);
    FirstEventBegins(more, q.data);
    assert EventList(None) + Drain(more).0 == Drain(more).0;
    if e.None? { DrainNothing(closed); }
    hide Drain, ExtractLine;
    assert e.Some? ==> (EventList(e) + Drain(closed).0)[0] == q.data;
    assert !Begins(q.data, q.data);
  }

  lemma OtherLineIs(q: Parser, line: string)
    requires line != "" && !("data:" <= line)
    ensures OnLine(q, line) == (None, q)
  {
  }

  lemma OtherLinePasses(q: Parser, line: string, rest: string)
    requires ExtractLine(q.buffer) == Some((line, rest)) && line != "" && !("data:" <= line)
    ensures Drain(q).0 == Drain(q.(buffer := rest)).0 && Drain(q).1.done == Drain(q.(buffer := rest)).1.done
  {
    hide ExtractLine, OnLine;
    if q.done {
      DrainNothing(q);
      DrainNothing(q.(buffer := rest));
    } else {
      OtherLineIs(q.(buffer := rest), line);
      DrainLine(q, line, rest);
      hide Drain;
      assert EventList(None) + Drain(q.(buffer := rest)).0 == Drain(q.(buffer := rest)).0;
    }
  }

  lemma SameOther(q: Parser, line: string, rest: string)
    requires ExtractLine(q.buffer) == Some((line, rest)) && line != "" && !("data:" <= line)
    ensures ClosingAgrees(q) <==> ClosingAgrees(q.(buffer := rest))
  {
    var (e, closed) := OnLine(q, "");
    assert OnLine(q.(buffer := rest), "") == (e, closed.(buffer := rest)) && closed.buffer == q.buffer;
    hide Drain, ExtractLine, OnLine;
    OtherLinePasses(q, line, rest);
    OtherLinePasses(closed, line, rest);
  }

  lemma {:induction false} ClosingAgreesIff(q: Parser)
    requires q.hasData && !q.done
    ensures ClosingAgrees(q) <==> ClosesNow(q.buffer)
    decreases |q.buffer|
  {
    hide ClosingAgrees, Drain, OnLine;
    match ExtractLine(q.buffer) {
      case None => NothingCloses(q);
      case Some((line, rest)) =>
        if line == "" {
          BlankCloses(q, rest);
        } else if "data:" <= line {
          DataKeepsOpen(q, line, rest);
        } else {
          SameOther(q, line, rest);
          ClosingAgreesIff(q.(buffer := rest));
        }
    }
  }

  /** What follows a whole pair is read as if the pair had not been cut. */
  lemma WholePair(p: Parser, c: string)
    requires EndsWithCr(p.buffer) && !Drain(p).1.done
    ensures var q := Drain(p).1;
            && Drain(Fed(p, "\n" + c)).0 == Drain(p).0 + Drain(Fed(q, c)).0
            && Drain(Fed(p, "\n" + c)).1.done == Drain(Fed(q, c)).1.done
  {
    hide Drain;
    LfCompletesPair(p);
    var r := Fed(p, "\n");
    assert Fed(r, c) == Fed(p, "\n" + c);
    assert !EndsWithCr(r.buffer);
    DrainTwice(r, c);
  }

  /** The LF on its own closes the event. */
  lemma LoneLf(q: Parser, c: string)
    requires q.buffer == "" && q.hasData && !q.done
    ensures var (e, closed) := OnLine(Fed(q, c), "");
            && Drain(Fed(q, "\n" + c)).0 == EventList(e) + Drain(closed).0
            && Drain(Fed(q, "\n" + c)).1.done == Drain(closed).1.done
  {
    var b := Fed(q, "\n" + c);
    assert b.buffer == "\n" + c && b.buffer[1..] == c;
    assert ExtractLine(b.buffer) == Some(("", c));
    assert b.(buffer := c) == Fed(q, c);
    DrainLine(b, "", c);
  }

  /** The boundary does not cut a CR LF pair with data pending, or the pending event is
      closed by the next blank or data line anyway. */
  predicate SafeBoundary(p: Parser, b: string) {
    !(SplitHurts(Drain(p).1, p.buffer) && StartsWithLf(b)) || ClosesNow(b[1..])
  }

  /** Two chunks are read as one stream exactly when their boundary is safe. */
  lemma BoundaryIsSafeIff(p: Parser, b: string)
    ensures Agrees(p, b)
        <==> SafeBoundary(p, b)
  {
    var q := Drain(p).1;
    if SplitHurts(q, p.buffer) && StartsWithLf(b) {
      var c := b[1..];
      assert b == "\n" + c;
      LfCompletesPair(p);
      WholePair(p, c);
      LoneLf(q, c);
      assert Fed(q, c).buffer == c;
      ClosingAgreesIff(Fed(q, c));
      hide Drain, OnLine, ClosesNow;
      var (e, closed) := OnLine(Fed(q, c), "");
      SameTail(Drain(p).0, Drain(Fed(q, c)).0, EventList(e) + Drain(closed).0);
    } else {
      DrainTwice(p, b);
      hide Drain;
    }
  }

  lemma SameTail(es: seq<string>, a: seq<string>, b: seq<string>)
    ensures es + a == es + b <==> a == b
  {
    if es + a == es + b {
      assert a == (es + a)[|es|..] && b == (es + b)[|es|..];
    }
  }

  // ------------------------------------------------------------------
  // Any number of chunks
  // ------------------------------------------------------------------

  lemma SameTrans(p: Parser, q: Parser, r: Parser)
    requires Same(p, q) && Same(q, r)
    ensures Same(p, r) && Same(q, p)
  {
  }

  /** An event that is closed by the next blank or data line anyway may be closed now:
      also the state afterwards is the same. */
  lemma {:induction false} ClosingIsSame(q: Parser)
    requires q.hasData && !q.done && ClosesNow(q.buffer)
    ensures Same(Drain(q).1, Drain(OnLine(q, "").1).1)
    decreases |q.buffer|
  {
    var (line, rest) := ExtractLine(q.buffer).value;
    hide Drain, ExtractLine;
    if line == "" {
      BlankIsSame(q, rest);
    } else {
      OtherLineIs(q.(buffer := rest), line);
      var closed := OnLine(q, "").1;
      assert OnLine(q.(buffer := rest), "").1 == closed.(buffer := rest) && closed.buffer == q.buffer;
      hide OnLine;
      ClosingIsSame(q.(buffer := rest));
      OtherIsSame(q, line, rest);
      OtherIsSame(closed, line, rest);
      SameTrans(Drain(q).1, Drain(q.(buffer := rest)).1, Drain(closed.(buffer := rest)).1);
      SameTrans(Drain(closed).1, Drain(closed.(buffer := rest)).1, Drain(closed.(buffer := rest)).1);
      SameTrans(Drain(q).1, Drain(closed.(buffer := rest)).1, Drain(closed).1);
    }
  }

  lemma BlankIsSame(q: Parser, rest: string)
    requires q.hasData && !q.done && ExtractLine(q.buffer) == Some(("", rest))
    ensures Same(Drain(q).1, Drain(OnLine(q, "").1).1)
  {
    var closed := OnLine(q, "").1;
    hide Drain, ExtractLine;
    DrainLine(q, "", rest);
    if closed.done {
      DrainNothing(closed);
      DrainNothing(closed.(buffer := rest));
    } else {
      DrainLine(closed, "", rest);
    }
  }

  lemma OtherIsSame(q: Parser, line: string, rest: string)
    requires ExtractLine(q.buffer) == Some((line, rest)) && line != "" && !("data:" <= line)
    ensures Same(Drain(q).1, Drain(q.(buffer := rest)).1)
  {
    hide Drain, ExtractLine, OnLine;
    if q.done {
      DrainNothing(q);
      DrainNothing(q.(buffer := rest));
    } else {
      OtherLineIs(q.(buffer := rest), line);
      DrainLine(q, line, rest);
    }
  }

  /** Behind a safe boundary the parser stands as it would without it. */
  lemma SafeIsSame(p: Parser, b: string)
    requires SafeBoundary(p, b)
    ensures Same(Drain(Fed(Drain(p).1, b)).1, Drain(Fed(p, b)).1)
  {
    var q := Drain(p).1;
    hide Drain, ClosesNow;
    if SplitHurts(q, p.buffer) && StartsWithLf(b) {
      PairIsSame(p, b[1..]);
      assert b == "\n" + b[1..];
    } else {
      DrainTwice(p, b);
      SameTrans(Drain(Fed(p, b)).1, Drain(Fed(q, b)).1, Drain(Fed(q, b)).1);
    }
  }

  lemma PairIsSame(p: Parser, c: string)
    requires SplitHurts(Drain(p).1, p.buffer) && ClosesNow(c)
    ensures Same(Drain(Fed(Drain(p).1, "\n" + c)).1, Drain(Fed(p, "\n" + c)).1)
  {
    hide Drain, OnLine, ClosesNow;
    LfCompletesPair(p);
    var (q, r) := (Drain(p).1, Fed(p, "\n"));
    assert Fed(r, c) == Fed(p, "\n" + c) && !EndsWithCr(r.buffer);
    DrainTwice(r, c);
    LoneLfState(q, c);
    assert Fed(q, c).buffer == c;
    ClosingIsSame(Fed(q, c));
    SameTrans(Drain(Fed(p, "\n" + c)).1, Drain(Fed(q, c)).1, Drain(Fed(q, "\n" + c)).1);
  }

  lemma LoneLfState(q: Parser, c: string)
    requires q.buffer == "" && q.hasData && !q.done
    ensures Drain(Fed(q, "\n" + c)).1 == Drain(OnLine(Fed(q, c), "").1).1
  {
    var b := Fed(q, "\n" + c);
    assert b.buffer == "\n" + c && b.buffer[1..] == c;
    assert ExtractLine(b.buffer) == Some(("", c));
    assert b.(buffer := c) == Fed(q, c);
    DrainLine(b, "", c);
  }

  /** The first k chunks, read one by one, give the events and the done flag of their
      whole. */
  predicate ReadAsOne(p: Parser, chunks: seq<string>, k: nat)
    requires k <= |chunks|
  {
    && DrainChunks(p, chunks[..k]).0 == Drain(Fed(p, Joined(chunks[..k]))).0
    && DrainChunks(p, chunks[..k]).1.done == Drain(Fed(p, Joined(chunks[..k]))).1.done
  }

  predicate SafeBefore(p: Parser, chunks: seq<string>, k: nat)
    requires k < |chunks|
  {
    SafeBoundary(Fed(p, Joined(chunks[..k])), chunks[k])
  }

  predicate StandsAsOne(p: Parser, chunks: seq<string>, k: nat)
    requires k <= |chunks|
  {
    ReadAsOne(p, chunks, k) && Same(DrainChunks(p, chunks[..k]).1, Drain(Fed(p, Joined(chunks[..k]))).1)
  }

  /** One chunk more. */
  lemma NextChunk(p: Parser, chunks: seq<string>, k: nat)
    requires k < |chunks| && StandsAsOne(p, chunks, k)
    ensures ReadAsOne(p, chunks, k + 1) <==> SafeBefore(p, chunks, k)
    ensures SafeBefore(p, chunks, k) ==> StandsAsOne(p, chunks, k + 1)
  {
    hide Drain, DrainChunks, Joined, ClosesNow, SplitHurts;
    var (x, c) := (Fed(p, Joined(chunks[..k])), chunks[k]);
    assert chunks[..k + 1] != [] && chunks[..k + 1][..k] == chunks[..k] && chunks[..k + 1][k] == c;
    ChunkStep(p, chunks[..k + 1]);
    assert Fed(x, c) == Fed(p, Joined(chunks[..k + 1]));
    var q := DrainChunks(p, chunks[..k]).1;
    SameFed(q, Drain(x).1, c);
    BoundaryIsSafeIff(x, c);
    if SafeBefore(p, chunks, k) {
      SafeIsSame(x, c);
      SameTrans(Drain(Fed(q, c)).1, Drain(Fed(Drain(x).1, c)).1, Drain(Fed(x, c)).1);
    }
  }

  lemma Nowhere(p: Parser, chunks: seq<string>)
    requires Drain(p) == ([], p)
    ensures StandsAsOne(p, chunks, 0)
  {
    assert chunks[..0] == [] && Joined([]) == "" && Fed(p, "") == p;
  }

  lemma {:induction false} SafeUpTo(p: Parser, chunks: seq<string>, k: nat)
    requires Drain(p) == ([], p) && k <= |chunks|
    requires forall j: nat | j < k :: SafeBefore(p, chunks, j)
    ensures StandsAsOne(p, chunks, k)
    decreases k
  {
    hide StandsAsOne, SafeBefore, Drain;
    if k == 0 {
      Nowhere(p, chunks);
    } else {
      SafeUpTo(p, chunks, k - 1);
      NextChunk(p, chunks, k - 1);
    }
  }

  lemma {:induction false} ReadUpTo(p: Parser, chunks: seq<string>, k: nat)
    requires Drain(p) == ([], p) && k <= |chunks|
    requires forall j: nat | j <= k :: ReadAsOne(p, chunks, j)
    ensures forall j: nat | j < k :: SafeBefore(p, chunks, j)
    decreases k
  {
    hide StandsAsOne, SafeBefore, ReadAsOne, Drain;
    if k > 0 {
      ReadUpTo(p, chunks, k - 1);
      SafeUpTo(p, chunks, k - 1);
      NextChunk(p, chunks, k - 1);
    }
  }

  /** A stream is read chunk by chunk as it would be whole, at every chunk, exactly when
      every boundary is safe. */
  lemma ChunkingIff(p: Parser, chunks: seq<string>)
    requires Drain(p) == ([], p)
    ensures (forall k: nat | k <= |chunks| :: ReadAsOne(p, chunks, k))
        <==> (forall k: nat | k < |chunks| :: SafeBefore(p, chunks, k))
  {
    hide ReadAsOne, SafeBefore, Drain;
    if forall k: nat | k <= |chunks| :: ReadAsOne(p, chunks, k) {
      ReadUpTo(p, chunks, |chunks|);
    }
    if forall k: nat | k < |chunks| :: SafeBefore(p, chunks, k) {
      forall k: nat | k <= |chunks| ensures ReadAsOne(p, chunks, k) { SafeReads(p, chunks, k); }
    }
  }

  lemma SafeReads(p: Parser, chunks: seq<string>, k: nat)
    requires Drain(p) == ([], p) && k <= |chunks|
    requires forall j: nat | j < k :: SafeBefore(p, chunks, j)
    ensures ReadAsOne(p, chunks, k)
  {
    hide ReadAsOne, SafeBefore, Drain;
    SafeUpTo(p, chunks, k);
  }
}
