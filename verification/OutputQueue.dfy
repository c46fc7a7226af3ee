/** The session output queue (execution/queue.go) over one start/stop life of run
    (execution/session.go): two producers append, one flusher retries the head chunk until
    its emit succeeds, run drains before it reports the result. */
module OutputQueue {
  import opened Text

  datatype Stdio = Stdout | Stderr

  /** What a producer read from a pipe. */
  datatype Output = Output(data: Bytes, stream: Stdio)

  datatype Chunk = Chunk(out: Output, offset: nat)

  /** The flusher goroutine. Sending: it holds a copy of the head and emit is running.
      Sent: emit returned nil, the head is not popped yet. */
  datatype Flusher = Waiting | Sending(chunk: Chunk) | Sent | Gone

  /** The run goroutine. */
  datatype Stage = Spawning | Pumping | Draining | Drained | Reported | Stopped

  datatype State = State(
    items: seq<Chunk>,
    offset: nat,
    closed: bool,
    flusher: Flusher,
    stage: Stage,
    open: set<Stdio>,       // pumps that have not reached EOF
    produced: seq<Output>,  // everything the pumps appended, in order
    emitted: seq<Chunk>,    // frames whose emit returned nil, in order
    wire: seq<Chunk>)       // frames that reached the server, whatever emit returned

  const FRESH := State([], 0, false, Waiting, Spawning, {}, [], [], [])

  datatype Step =
    | StartOk                // both pumps begin
    | StartErr               // spawn failed: the result is reported at once
    | Append(out: Output)
    | PumpEof(stream: Stdio)
    | BeginDrain             // both pumps done and the process reaped
    | DrainReturns
    | ReportResult
    | Stop                   // the deferred stop function
    | Peek                   // flusher copies the head
    | Emit(ok: bool, arrived: bool)  // a failed send may still have reached the server
    | GiveUp                 // emit failed and the context is done
    | Pop
    | FlusherExits

  predicate Enabled(s: State, step: Step)
  {
    match step
    case StartOk => s.stage.Spawning?
    case StartErr => s.stage.Spawning?
    case Append(out) => s.stage.Pumping? && out.stream in s.open && out.data != []
    case PumpEof(stream) => s.stage.Pumping? && stream in s.open
    case BeginDrain => s.stage.Pumping? && s.open == {}
    case DrainReturns => s.stage.Draining? && (s.items == [] || s.closed)
    case ReportResult => s.stage.Drained?
    case Stop => s.stage.Reported?
    case Peek => s.flusher.Waiting? && s.items != []
    case Emit(ok, arrived) => s.flusher.Sending? && (ok ==> arrived)
    case GiveUp => s.flusher.Sending?
    case Pop => s.flusher.Sent? && s.items != []
    case FlusherExits => s.flusher.Waiting? && s.items == [] && s.closed
  }

  function Apply(s: State, step: Step): State
    requires Enabled(s, step)
  {
    match step
    case StartOk => s.(stage := Pumping, open := {Stdout, Stderr})
    case StartErr => s.(stage := Reported)
    case Append(out) =>
      s.(items := s.items + [Chunk(out, s.offset)],
         offset := Wrapped(s.offset + |out.data|),
         produced := s.produced + [out])
    case PumpEof(stream) => s.(open := s.open - {stream})
    case BeginDrain => s.(stage := Draining)
    case DrainReturns => s.(stage := Drained)
    case ReportResult => s.(stage := Reported)
    case Stop => s.(stage := Stopped, closed := true)
    case Peek => s.(flusher := Sending(s.items[0]))
    case Emit(ok, arrived) =>
      var s' := s.(wire := if arrived then s.wire + [s.flusher.chunk] else s.wire);
      if ok then s'.(flusher := Sent, emitted := s.emitted + [s.flusher.chunk]) else s'.(flusher := Waiting)
    case GiveUp => s.(flusher := Gone)
    case Pop => s.(flusher := Waiting, items := s.items[1..])
    case FlusherExits => s.(flusher := Gone)
  }

  predicate ValidRun(s: State, steps: seq<Step>)
    decreases |steps|
  {
    steps == [] || (Enabled(s, steps[0]) && ValidRun(Apply(s, steps[0]), steps[1..]))
  }

  function Exec(s: State, steps: seq<Step>): State
    requires ValidRun(s, steps)
    decreases |steps|
  {
    if steps == [] then s else Exec(Apply(s, steps[0]), steps[1..])
  }

  // ---------------------------------------------------------------- what a run keeps

  /** Queued chunks whose emit has not succeeded. */
  function Unsent(s: State): seq<Chunk>
    requires s.flusher.Sent? ==> s.items != []
  {
    if s.flusher.Sent? then s.items[1..] else s.items
  }

  function TotalBytes(outs: seq<Output>): nat
  {
    if outs == [] then 0 else TotalBytes(outs[..|outs| - 1]) + |outs[|outs| - 1].data|
  }

  /** Chunk i is output i, stamped with the byte count before it. */
  predicate StampedAt(chunks: seq<Chunk>, outs: seq<Output>, i: nat)
    requires i < |chunks| == |outs|
  {
    chunks[i] == Chunk(outs[i], Wrapped(TotalBytes(outs[..i])))
  }

  /** The chunks are the outputs in order, each with its stamp. */
  ghost predicate Stamped(chunks: seq<Chunk>, outs: seq<Output>)
  {
    |chunks| == |outs| && forall i: nat :: i < |outs| ==> StampedAt(chunks, outs, i)
  }

  /** How the goroutines stand to each other. */
  predicate Shape(s: State)
  {
    && (s.flusher.Sent? ==> s.items != [])
    && (s.flusher.Sending? ==> s.items != [] && s.flusher.chunk == s.items[0])
    && (s.closed <==> s.stage.Stopped?)
    && (s.stage !in {Pumping, Draining} ==> s.items == [])
  }

  ghost predicate Inv(s: State)
  {
    && Shape(s)
    && Stamped(s.emitted + Unsent(s), s.produced)
    && s.offset == Wrapped(TotalBytes(s.produced))
  }

  lemma AppendStamps(chunks: seq<Chunk>, outs: seq<Output>, out: Output)
    requires Stamped(chunks, outs)
    ensures Stamped(chunks + [Chunk(out, Wrapped(TotalBytes(outs)))], outs + [out])
    ensures TotalBytes(outs + [out]) == TotalBytes(outs) + |out.data|
  {
    var chunks', outs' := chunks + [Chunk(out, Wrapped(TotalBytes(outs)))], outs + [out];
    assert outs'[..|outs|] == outs;
    forall i: nat | i < |outs'|
      ensures StampedAt(chunks', outs', i)
    {
      if i < |outs| {
        assert StampedAt(chunks, outs, i);
        assert outs'[..i] == outs[..i];
      }
    }
  }

  /** Only Append changes what was emitted plus what is still to send. */
  lemma UnsentStep(s: State, step: Step)
    requires Enabled(s, step) && Shape(s)
    ensures Shape(Apply(s, step))
    ensures var s' := Apply(s, step);
      s'.emitted + Unsent(s') == s.emitted + Unsent(s) + if step.Append? then [Chunk(step.out, s.offset)] else []
  {
    if step.Emit? && step.ok {
      assert s.items == [s.items[0]] + s.items[1..];
    }
  }

  lemma OffsetAdds(offset: nat, outs: seq<Output>, out: Output)
    requires offset == Wrapped(TotalBytes(outs))
    ensures Wrapped(offset + |out.data|) == Wrapped(TotalBytes(outs + [out]))
  {
    assert (outs + [out])[..|outs|] == outs;
    WrappedAdds(TotalBytes(outs), |out.data|);
  }

  lemma AppendStep(s: State, out: Output)
    requires Enabled(s, Append(out)) && Inv(s)
    ensures Inv(Apply(s, Append(out)))
  {
    UnsentStep(s, Append(out));
    OffsetAdds(s.offset, s.produced, out);
    AppendStamps(s.emitted + Unsent(s), s.produced, out);
  }

  lemma InvStep(s: State, step: Step)
    requires Enabled(s, step) && Inv(s)
    ensures Inv(Apply(s, step))
  {
    if step.Append? {
      AppendStep(s, step.out);
    } else {
      UnsentStep(s, step);
      assert s.emitted + Unsent(s) + [] == s.emitted + Unsent(s);
    }
  }

  lemma {:induction false} InvRun(s: State, steps: seq<Step>)
    requires ValidRun(s, steps) && Inv(s)
    ensures Inv(Exec(s, steps))
    decreases |steps|
  {
    if steps != [] {
      InvStep(s, steps[0]);
      InvRun(Apply(s, steps[0]), steps[1..]);
    }
  }

  ghost predicate Reachable(s: State)
  {
    exists steps :: ValidRun(FRESH, steps) && Exec(FRESH, steps) == s
  }

  /** Nothing lost, reordered or sent twice, whatever the producers' interleaving and the
      pattern of emit failures: what was emitted followed by what is still to send is
      exactly what was produced, every chunk carries the byte offset of its start, and once
      the result is reported everything has been emitted. */
  lemma OutputDelivered(s: State)
    requires Reachable(s)
    ensures s.flusher.Sent? ==> s.items != []
    ensures Stamped(s.emitted + Unsent(s), s.produced)
    ensures s.stage in {Reported, Stopped} ==> Stamped(s.emitted, s.produced)
  {
    var steps :| ValidRun(FRESH, steps) && Exec(FRESH, steps) == s;
    InvRun(FRESH, steps);
    if s.stage in {Reported, Stopped} {
      assert s.emitted + Unsent(s) == s.emitted;
    }
  }

  // ---------------------------------------------------------------- bytes

  function Concat(outs: seq<Output>): Bytes
  {
    if outs == [] then [] else Concat(outs[..|outs| - 1]) + outs[|outs| - 1].data
  }

  function Outs(chunks: seq<Chunk>): seq<Output>
  {
    seq(|chunks|, i requires 0 <= i < |chunks| => chunks[i].out)
  }

  lemma StampedOuts(chunks: seq<Chunk>, outs: seq<Output>)
    requires Stamped(chunks, outs)
    ensures Outs(chunks) == outs
  {
    forall i: nat | i < |outs|
      ensures Outs(chunks)[i] == outs[i]
    {
      assert StampedAt(chunks, outs, i);
    }
  }

  /** The outputs of one stream. */
  function OfStream(outs: seq<Output>, stream: Stdio): seq<Output>
  {
    if outs == [] then []
    else OfStream(outs[..|outs| - 1], stream) + if outs[|outs| - 1].stream == stream then [outs[|outs| - 1]] else []
  }

  lemma {:induction false} ConcatAppend(a: seq<Output>, b: seq<Output>)
    ensures Concat(a + b) == Concat(a) + Concat(b)
  {
    if b == [] {
      assert a + b == a;
    } else {
      var init, d := b[..|b| - 1], b[|b| - 1].data;
      ConcatAppend(a, init);
      assert (a + b)[..|a + b| - 1] == a + init;
      assert Concat(a) + Concat(init) + d == Concat(a) + (Concat(init) + d);
    }
  }

  lemma {:induction false} OfStreamAppend(a: seq<Output>, b: seq<Output>, stream: Stdio)
    ensures OfStream(a + b, stream) == OfStream(a, stream) + OfStream(b, stream)
  {
    if b == [] {
      assert a + b == a;
    } else {
      OfStreamAppend(a, b[..|b| - 1], stream);
      assert (a + b)[..|a + b| - 1] == a + b[..|b| - 1];
    }
  }

  /** Byte for byte, and stream by stream: emitted bytes then queued bytes are the produced
      bytes, for the merged output and for stdout and stderr alone. */
  lemma BytesDelivered(s: State, stream: Stdio)
    requires Reachable(s)
    ensures s.flusher.Sent? ==> s.items != []
    ensures Concat(Outs(s.emitted)) + Concat(Outs(Unsent(s))) == Concat(s.produced)
    ensures Concat(OfStream(Outs(s.emitted), stream)) + Concat(OfStream(Outs(Unsent(s)), stream))
         == Concat(OfStream(s.produced, stream))
  {
    OutputDelivered(s);
    var a, b := Outs(s.emitted), Outs(Unsent(s));
    StampedOuts(s.emitted + Unsent(s), s.produced);
    assert s.produced == a + b;
    ConcatAppend(a, b);
    OfStreamAppend(a, b, stream);
    ConcatAppend(OfStream(a, stream), OfStream(b, stream));
  }

  // ---------------------------------------------------------------- the receiving end

  /** A receiver that uses offsets: it appends a chunk that starts where its bytes end and
      ignores any other. */
  function Reassemble(wire: seq<Chunk>): Bytes
  {
    if wire == [] then []
    else
      var bytes, c := Reassemble(wire[..|wire| - 1]), wire[|wire| - 1];
      if c.offset == |bytes| then bytes + c.out.data else bytes
  }

  lemma {:induction false} ConcatLength(outs: seq<Output>)
    ensures |Concat(outs)| == TotalBytes(outs)
  {
    if outs != [] {
      ConcatLength(outs[..|outs| - 1]);
    }
  }

  lemma {:induction false} TotalMonotone(outs: seq<Output>, n: nat, m: nat)
    requires n <= m <= |outs| && NonEmpty(outs)
    ensures TotalBytes(outs[..n]) <= TotalBytes(outs[..m])
    ensures n < m ==> TotalBytes(outs[..n]) < TotalBytes(outs[..m])
    decreases m
  {
    if n < m {
      TotalMonotone(outs, n, m - 1);
      assert outs[..m][..m - 1] == outs[..m - 1];
    }
  }

  predicate NonEmpty(outs: seq<Output>)
  {
    forall i :: 0 <= i < |outs| ==> outs[i].data != []
  }

  /** The receiver holds the first k chunks, and perhaps the next one, whose send reported an
      error after it arrived. */
  predicate Held(wire: seq<Chunk>, outs: seq<Output>, k: nat)
  {
    || (k <= |outs| && Reassemble(wire) == Concat(outs[..k]))
    || (k + 1 <= |outs| && Reassemble(wire) == Concat(outs[..k + 1]))
  }

  lemma Arrival(wire: seq<Chunk>, outs: seq<Output>, k: nat)
    requires NonEmpty(outs) && k < |outs| && Held(wire, outs, k)
    ensures Reassemble(wire + [Chunk(outs[k], TotalBytes(outs[..k]))]) == Concat(outs[..k + 1])
  {
    var c := Chunk(outs[k], TotalBytes(outs[..k]));
    assert (wire + [c])[..|wire|] == wire;
    assert outs[..k + 1][..k] == outs[..k];
    ConcatLength(outs[..k]);
    ConcatLength(outs[..k + 1]);
    assert |Concat(outs[..k])| < |Concat(outs[..k + 1])|;
  }

  lemma HeldAppend(wire: seq<Chunk>, outs: seq<Output>, k: nat, out: Output)
    requires Held(wire, outs, k)
    ensures Held(wire, outs + [out], k)
  {
    assert k <= |outs| ==> (outs + [out])[..k] == outs[..k];
    assert k + 1 <= |outs| ==> (outs + [out])[..k + 1] == outs[..k + 1];
  }

  /** The chunk the flusher is sending is the next one the receiver needs or already has. */
  lemma SendingNext(s: State)
    requires Inv(s) && s.flusher.Sending? && NonEmpty(s.produced) && TotalBytes(s.produced) < WRAP
    ensures var k := |s.emitted|;
      k < |s.produced| && s.flusher.chunk == Chunk(s.produced[k], TotalBytes(s.produced[..k]))
  {
    var k := |s.emitted|;
    assert (s.emitted + Unsent(s))[k] == s.items[0];
    StampAt(s.emitted + Unsent(s), s.produced, k);
  }

  /** A stamp below the counter's range is the byte count itself. */
  lemma StampAt(chunks: seq<Chunk>, outs: seq<Output>, k: nat)
    requires Stamped(chunks, outs) && k < |chunks| && NonEmpty(outs) && TotalBytes(outs) < WRAP
    ensures chunks[k] == Chunk(outs[k], TotalBytes(outs[..k]))
  {
    assert StampedAt(chunks, outs, k);
    TotalMonotone(outs, k, |outs|);
    assert outs[..|outs|] == outs;
  }

  ghost predicate ReceiverInv(s: State)
  {
    && Inv(s) && NonEmpty(s.produced)
    && (TotalBytes(s.produced) < WRAP ==> Held(s.wire, s.produced, |s.emitted|))
  }

  lemma EmitHeld(s: State, ok: bool, arrived: bool)
    requires Enabled(s, Emit(ok, arrived)) && Inv(s) && NonEmpty(s.produced)
    requires TotalBytes(s.produced) < WRAP && Held(s.wire, s.produced, |s.emitted|)
    ensures var s' := Apply(s, Emit(ok, arrived)); Held(s'.wire, s'.produced, |s'.emitted|)
  {
    SendingNext(s);
    if arrived {
      Arrival(s.wire, s.produced, |s.emitted|);
    }
  }

  lemma AppendHeld(s: State, out: Output)
    requires Enabled(s, Append(out)) && Inv(s) && NonEmpty(s.produced)
    requires TotalBytes(s.produced) < WRAP ==> Held(s.wire, s.produced, |s.emitted|)
    ensures var s' := Apply(s, Append(out));
      NonEmpty(s'.produced) && (TotalBytes(s'.produced) < WRAP ==> Held(s'.wire, s'.produced, |s'.emitted|))
  {
    AppendStamps(s.emitted + Unsent(s), s.produced, out);
    if TotalBytes(s.produced) < WRAP {
      HeldAppend(s.wire, s.produced, |s.emitted|, out);
    }
  }

  lemma ReceiverStep(s: State, step: Step)
    requires Enabled(s, step) && ReceiverInv(s)
    ensures ReceiverInv(Apply(s, step))
  {
    InvStep(s, step);
    var s' := Apply(s, step);
    if step.Append? {
      AppendHeld(s, step.out);
    } else if step.Emit? {
      if TotalBytes(s.produced) < WRAP {
        EmitHeld(s, step.ok, step.arrived);
      }
    } else {
      assert s'.wire == s.wire && s'.produced == s.produced && s'.emitted == s.emitted;
    }
  }

  lemma {:induction false} ReceiverRun(s: State, steps: seq<Step>)
    requires ValidRun(s, steps) && ReceiverInv(s)
    ensures ReceiverInv(Exec(s, steps))
    decreases |steps|
  {
    if steps != [] {
      ReceiverStep(s, steps[0]);
      ReceiverRun(Apply(s, steps[0]), steps[1..]);
    }
  }

  /** Sends that fail after arriving are harmless: below 2^64 bytes the offsets let the
      receiver rebuild the output up to the last emitted chunk or the one after it, and all
      of it once the result is reported. */
  lemma ReceiverRebuildsOutput(s: State)
    requires Reachable(s) && TotalBytes(s.produced) < WRAP
    ensures Held(s.wire, s.produced, |s.emitted|)
    ensures s.stage in {Reported, Stopped} ==> Reassemble(s.wire) == Concat(s.produced)
  {
    var steps :| ValidRun(FRESH, steps) && Exec(FRESH, steps) == s;
    assert FRESH.produced[..0] == [];
    ReceiverRun(FRESH, steps);
    if s.stage in {Reported, Stopped} {
      OutputDelivered(s);
      assert s.produced[..|s.produced|] == s.produced;
    }
  }

  // ---------------------------------------------------------------- the queue object

  function Trues(results: seq<bool>): nat
  {
    if results == [] then 0 else (if results[0] then 1 else 0) + Trues(results[1..])
  }

  function Min(a: nat, b: nat): nat
  {
    if a < b then a else b
  }

  class Queue {
    var items: seq<Chunk>
    var offset: nat
    var closed: bool
    ghost var produced: seq<Output>
    ghost var emitted: seq<Chunk>

    ghost predicate Valid()
      reads this
    {
      Stamped(emitted + items, produced) && offset == Wrapped(TotalBytes(produced))
    }

    constructor ()
      ensures Valid() && items == [] && emitted == [] && produced == [] && !closed
    {
      items, offset, closed := [], 0, false;
      produced, emitted := [], [];
    }

    method Append(out: Output)
      requires Valid()
      modifies this
      ensures Valid() && produced == old(produced) + [out]
      ensures items == old(items) + [Chunk(out, old(offset))]
      ensures emitted == old(emitted) && closed == old(closed)
    {
      AppendStamps(emitted + items, produced, out);
      OffsetAdds(offset, produced, out);
      assert emitted + (items + [Chunk(out, offset)]) == emitted + items + [Chunk(out, offset)];
      items := items + [Chunk(out, offset)];
      offset := Wrapped(offset + |out.data|);
      produced := produced + [out];
    }

    /** drain's loop condition: whether the terminal result may be reported. */
    method MayReport() returns (done: bool)
      requires Valid()
      ensures done <==> items == [] || closed
      ensures done && !closed ==> Stamped(emitted, produced)
    {
      done := !(|items| > 0 && !closed);
      assert items == [] ==> emitted + items == emitted;
    }

    method Stop()
      requires Valid()
      modifies this`closed
      ensures Valid() && closed
    {
      closed := true;
    }

    /** A successful emit removes the head. */
    method EmitHead()
      requires Valid() && items != []
      modifies this`items, this`emitted
      ensures Valid() && items == old(items)[1..] && emitted == old(emitted) + [old(items)[0]]
    {
      assert emitted + items == (emitted + [items[0]]) + items[1..];
      emitted := emitted + [items[0]];
      items := items[1..];
    }

    /** The flusher over a stretch in which nothing is appended: results are the outcomes of
        its emit calls. A failed emit leaves the head in place, so exactly as many chunks as
        there were successes go out, from the front. */
    method Flush(results: seq<bool>)
      requires Valid()
      modifies this`items, this`emitted
      ensures Valid()
      ensures var n := Min(|old(items)|, Trues(results));
        items == old(items)[n..] && emitted == old(emitted) + old(items)[..n]
    {
      var rest := results;
      ghost var sent := 0;
      while rest != [] && items != []
        invariant Valid()
        invariant 0 <= sent <= |old(items)| && items == old(items)[sent..]
        invariant emitted == old(emitted) + old(items)[..sent]
        invariant sent + Trues(rest) == Trues(results)
        decreases |rest|
      {
        var ok := rest[0];
        rest := rest[1..];
        if ok {
          assert old(items)[sent..][1..] == old(items)[sent + 1..];
          assert old(items)[..sent] + [old(items)[sent]] == old(items)[..sent + 1];
          EmitHead();
          sent := sent + 1;
        }
      }
    }
  }
}
