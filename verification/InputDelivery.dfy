/** User-input delivery of one node session (execution/session.go, execution/stream_executor.go).

    A step is one critical section or one I/O outcome of deliverInput, drainPending,
    failPendingInputs, reportInputFailure, startRuntime or run. Steps of any number of
    goroutines interleave freely, subject to session.mu and drainMu. */
module InputDelivery {
  import opened Text

  /** The fields of NodeSessionInput that delivery depends on, as the wire carries them. */
  datatype NodeSessionInput = NodeSessionInput(clientMessageId: string, deliveryAttempt: uint32, kind: string,
                                               text: string)

  /** human_message (also the default), the control kinds eof and cancel, and everything
      else, which deliver refuses without a write. */
  datatype Kind = Human | Control | Unknown

  /** A decoded input: trimmed id, dedupe key and kind. */
  datatype Input = Input(id: string, key: string, kind: Kind, text: string)

  /** An input on its way through the session. order is its position in enqueue order,
      counted from 1; it is 0 until the input joins the queue. */
  datatype Frame = Frame(order: nat, input: Input)

  /** Where a run goroutine stands. Started: start returned and the post-start flush is owed.
      StartFailed and Exited: the final fail-all is owed. */
  datatype Phase = Spawning | StartFailed | Started | Live | Exited | Done

  /** One launched executor. attached: stdin is non-nil. closed: the process was reaped. */
  datatype Run = Run(interactive: bool, attached: bool, closed: bool, phase: Phase)

  /** The drainMu holder. Top: at the loop head. Probed: session.mu held, isClosed read false.
      Writing: session.mu released, the frame is being written. */
  datatype Drain = Idle | Top | Probed(run: nat) | Writing(run: nat, frame: Frame)

  datatype State = State(
    seen: set<string>,
    arriving: seq<Frame>,   // reserved, not yet queued
    pending: seq<Frame>,
    failing: seq<Frame>,    // taken off the queue, failure not yet reported
    settled: seq<Frame>,    // failure reported
    written: seq<Frame>,    // deliver returned nil, over all runs
    drain: Drain,
    owing: nat,             // deliverInput goroutines that queued a frame and still have to drain
    runs: seq<Run>,
    executor: Option<nat>,
    orders: nat,            // frames queued so far
    accepted: seq<Frame>)   // every input that passed the replay check

  const START := State({}, [], [], [], [], [], Idle, 0, [], None, 0, [])

  datatype Step =
    | Receive(input: Input)        // the dedupe critical section
    | Admit(at: nat)               // the enqueue critical section of arriving[at]
    | Launch(interactive: bool)    // startRuntime installs a new executor
    | Attach(run: nat)             // streamExecutor.start publishes stdin
    | StartOk(run: nat)
    | StartErr(run: nat)
    | BeginDrain                   // a deliverInput goroutine takes drainMu
    | BeginFlush(run: nat)         // the run goroutine takes drainMu for the post-start flush
    | Probe                        // loop head up to the isClosed read
    | Take                         // the ready read, then pop the head or stop
    | Deliver(ok: bool)            // stream.deliver returns
    | Exit(run: nat)               // wait returns and marks the stream closed
    | FailAll(run: nat)            // run's failPendingInputs takes the queue
    | Discard                      // delete's failPendingInputs takes the queue
    | Report(at: nat)              // reportInputFailure of failing[at]

  // ---------------------------------------------------------------- dedupe keys

  function KindOf(kind: string): Kind
  {
    var k := TrimSpace(kind);
    if k == "human_message" || k == "" then Human
    else if k == "eof" || k == "cancel" then Control
    else Unknown
  }

  function MessageId(raw: NodeSessionInput): string
  {
    TrimSpace(raw.clientMessageId)
  }

  function EffectiveAttempt(raw: NodeSessionInput): nat
  {
    if raw.deliveryAttempt == 0 then 1 else raw.deliveryAttempt
  }

  function MessageKey(raw: NodeSessionInput): string
  {
    if MessageId(raw) == "" then "" else MessageId(raw) + ":" + Decimal(EffectiveAttempt(raw))
  }

  function Decode(raw: NodeSessionInput): Input
  {
    Input(MessageId(raw), MessageKey(raw), KindOf(raw.kind), raw.text)
  }

  /** Inputs the dedupe set guards. */
  predicate Tracked(i: Input)
  {
    i.id != "" && i.kind == Human
  }

  predicate SaysMessage(raw: NodeSessionInput)
  {
    TrimSpace(raw.kind) in {"human_message", ""}
  }

  lemma KindMeans(raw: NodeSessionInput)
    ensures KindOf(raw.kind) == Human <==> SaysMessage(raw)
    ensures KindOf(raw.kind) == Unknown <==> TrimSpace(raw.kind) !in {"human_message", "", "eof", "cancel"}
  {
  }

  lemma KeyMeans(raw: NodeSessionInput)
    ensures MessageKey(raw) == "" <==> TrimSpace(raw.clientMessageId) == ""
  {
    assert MessageId(raw) != "" ==> |MessageKey(raw)| > |MessageId(raw)|;
  }

  /** What the wire fields decide: messages with an id are deduplicated, four kinds are
      deliverable, and only an input without an id has no key. */
  lemma DecodeMeans(raw: NodeSessionInput)
    ensures Tracked(Decode(raw)) <==> TrimSpace(raw.clientMessageId) != "" && SaysMessage(raw)
    ensures Decode(raw).kind == Human <==> SaysMessage(raw)
    ensures Decode(raw).kind == Unknown <==> TrimSpace(raw.kind) !in {"human_message", "", "eof", "cancel"}
    ensures Decode(raw).id == TrimSpace(raw.clientMessageId) && Decode(raw).text == raw.text
    ensures Decode(raw).key == "" <==> TrimSpace(raw.clientMessageId) == ""
  {
    KindMeans(raw);
    KeyMeans(raw);
  }

  lemma LastColon(id: string, digits: string)
    requires forall c :: c in digits ==> IsDigit(c)
    ensures var s := id + ":" + digits; forall p :: |id| < p < |s| ==> s[p] != ':'
  {
    var s := id + ":" + digits;
    forall p | |id| < p < |s| ensures s[p] != ':' {
      assert s[p] == digits[p - |id| - 1] && s[p] in digits;
    }
  }

  lemma ColonSplit(id1: string, d1: string, id2: string, d2: string)
    requires id1 + ":" + d1 == id2 + ":" + d2
    requires forall c :: c in d1 ==> IsDigit(c)
    requires forall c :: c in d2 ==> IsDigit(c)
    ensures id1 == id2 && d1 == d2
  {
    var s, t := id1 + ":" + d1, id2 + ":" + d2;
    LastColon(id1, d1);
    LastColon(id2, d2);
    assert s[|id1|] == ':' && t[|id2|] == ':';
    assert id1 == s[..|id1|] && id2 == t[..|id2|];
    assert d1 == s[|id1| + 1..] && d2 == t[|id2| + 1..];
  }

  /** One execution of one message on the wire: an attempt that is not set is the first. */
  predicate SameExecution(a: NodeSessionInput, b: NodeSessionInput)
  {
    && TrimSpace(a.clientMessageId) == TrimSpace(b.clientMessageId)
    && (a.deliveryAttempt == b.deliveryAttempt || {a.deliveryAttempt, b.deliveryAttempt} == {0, 1})
  }

  lemma AttemptsAgree(a: NodeSessionInput, b: NodeSessionInput)
    ensures EffectiveAttempt(a) == EffectiveAttempt(b)
       <==> a.deliveryAttempt == b.deliveryAttempt || {a.deliveryAttempt, b.deliveryAttempt} == {0, 1}
  {
    var x, y := a.deliveryAttempt, b.deliveryAttempt;
    if {x, y} == {0, 1} {
      assert x in {0, 1} && y in {0, 1};
      assert 0 in {x, y} && 1 in {x, y};
    }
    if (x == 0 && y == 1) || (x == 1 && y == 0) {
      assert {x, y} == {0, 1};
    }
  }

  /** messageKey tells executions apart, ids with ':' included. */
  lemma MessageKeyInjective(a: NodeSessionInput, b: NodeSessionInput)
    requires TrimSpace(a.clientMessageId) != "" || TrimSpace(b.clientMessageId) != ""
    ensures MessageKey(a) == MessageKey(b) <==> SameExecution(a, b)
  {
    AttemptsAgree(a, b);
    if MessageKey(a) == MessageKey(b) {
      ColonSplit(MessageId(a), Decimal(EffectiveAttempt(a)), MessageId(b), Decimal(EffectiveAttempt(b)));
      DecimalRoundTrip(EffectiveAttempt(a));
      DecimalRoundTrip(EffectiveAttempt(b));
    }
  }

  // ---------------------------------------------------------------- the step system

  /** session.mu is held across Probe and Take, and by nobody else between steps. */
  predicate MuFree(s: State)
  {
    !s.drain.Probed?
  }

  predicate RunIn(s: State, r: nat, phase: Phase)
  {
    r < |s.runs| && s.runs[r].phase == phase
  }

  predicate Sane(s: State)
  {
    && (s.executor.Some? ==> s.executor.value < |s.runs|)
    && (s.drain.Probed? ==> s.drain.run < |s.runs| && s.pending != [])
    && (s.drain.Writing? ==> s.drain.run < |s.runs|)
  }

  predicate Enabled(s: State, step: Step)
    requires Sane(s)
  {
    match step
    case Receive(i) => Tracked(i) ==> MuFree(s)
    case Admit(at) => at < |s.arriving| && MuFree(s)
    case Launch(_) => MuFree(s)
    case Attach(r) => RunIn(s, r, Spawning) && s.runs[r].interactive && !s.runs[r].attached
    case StartOk(r) => RunIn(s, r, Spawning) && (s.runs[r].interactive ==> s.runs[r].attached)
    case StartErr(r) => RunIn(s, r, Spawning)
    case BeginDrain => s.drain.Idle? && s.owing > 0
    case BeginFlush(r) => s.drain.Idle? && RunIn(s, r, Started)
    case Probe => s.drain.Top?
    case Take => s.drain.Probed?
    case Deliver(_) => s.drain.Writing?
    case Exit(r) => RunIn(s, r, Live)
    case FailAll(r) => (RunIn(s, r, StartFailed) || RunIn(s, r, Exited)) && MuFree(s)
    case Discard => MuFree(s)
    case Report(at) => at < |s.failing| && MuFree(s)
  }

  function Without<T>(xs: seq<T>, at: nat): seq<T>
    requires at < |xs|
  {
    xs[..at] + xs[at + 1..]
  }

  function WithPhase(s: State, r: nat, phase: Phase): State
    requires r < |s.runs|
  {
    s.(runs := s.runs[r := s.runs[r].(phase := phase)])
  }

  function FailQueue(s: State): State
  {
    s.(failing := s.failing + s.pending, pending := [])
  }

  function ApplyReceive(s: State, i: Input): State
  {
    if Tracked(i) && i.key in s.seen then s
    else
      var f := Frame(0, i);
      s.(seen := if Tracked(i) then s.seen + {i.key} else s.seen,
         arriving := s.arriving + [f],
         accepted := s.accepted + [f])
  }

  function ApplyAdmit(s: State, at: nat): State
    requires Sane(s) && at < |s.arriving|
  {
    var f := s.arriving[at];
    var s' := s.(arriving := Without(s.arriving, at));
    if s.executor.Some? && !s.runs[s.executor.value].interactive then
      s'.(failing := s.failing + [f])
    else
      s'.(pending := s.pending + [f.(order := s.orders + 1)], orders := s.orders + 1, owing := s.owing + 1)
  }

  function ApplyProbe(s: State): State
    requires Sane(s)
  {
    if s.pending == [] then s.(drain := Idle)
    else if s.executor.None? || !s.runs[s.executor.value].interactive then s.(drain := Idle)
    else if s.runs[s.executor.value].closed then FailQueue(s).(drain := Idle)
    else s.(drain := Probed(s.executor.value))
  }

  function ApplyTake(s: State): State
    requires Sane(s) && s.drain.Probed?
  {
    var run := s.runs[s.drain.run];
    if !run.closed && run.attached then
      s.(pending := s.pending[1..], drain := Writing(s.drain.run, s.pending[0]))
    else s.(drain := Idle)
  }

  function ApplyDeliver(s: State, ok: bool): State
    requires Sane(s) && s.drain.Writing?
  {
    var run, f := s.runs[s.drain.run], s.drain.frame;
    if f.input.kind == Unknown || run.closed then s.(failing := s.failing + [f], drain := Top)
    else if !run.attached then s.(pending := [f] + s.pending, drain := Idle)
    else if ok then s.(written := s.written + [f], drain := Top)
    else s.(failing := s.failing + [f], drain := Top)
  }

  function ApplyReport(s: State, at: nat): State
    requires at < |s.failing|
  {
    var f := s.failing[at];
    s.(failing := Without(s.failing, at),
       settled := s.settled + [f],
       seen := if f.input.id == "" then s.seen else s.seen - {f.input.key})
  }

  function Apply(s: State, step: Step): (s': State)
    requires Sane(s) && Enabled(s, step)
    ensures Sane(s')
  {
    match step
    case Receive(i) => ApplyReceive(s, i)
    case Admit(at) => ApplyAdmit(s, at)
    case Launch(interactive) =>
      s.(runs := s.runs + [Run(interactive, false, false, Spawning)], executor := Some(|s.runs|))
    case Attach(r) => s.(runs := s.runs[r := s.runs[r].(attached := true)])
    case StartOk(r) => WithPhase(s, r, Started)
    case StartErr(r) => WithPhase(s, r, StartFailed)
    case BeginDrain => s.(drain := Top, owing := s.owing - 1)
    case BeginFlush(r) => WithPhase(s, r, Live).(drain := Top)
    case Probe => ApplyProbe(s)
    case Take => ApplyTake(s)
    case Deliver(ok) => ApplyDeliver(s, ok)
    case Exit(r) => s.(runs := s.runs[r := s.runs[r].(phase := Exited, closed := true)])
    case FailAll(r) => WithPhase(FailQueue(s), r, Done)
    case Discard => FailQueue(s)
    case Report(at) => ApplyReport(s, at)
  }

  predicate ValidRun(s: State, steps: seq<Step>)
    requires Sane(s)
    decreases |steps|
  {
    steps == [] || (Enabled(s, steps[0]) && ValidRun(Apply(s, steps[0]), steps[1..]))
  }

  function Exec(s: State, steps: seq<Step>): (s': State)
    requires Sane(s) && ValidRun(s, steps)
    ensures Sane(s')
    decreases |steps|
  {
    if steps == [] then s else Exec(Apply(s, steps[0]), steps[1..])
  }

  lemma {:induction false} ExecAppend(s: State, xs: seq<Step>, ys: seq<Step>)
    requires Sane(s) && ValidRun(s, xs) && ValidRun(Exec(s, xs), ys)
    ensures ValidRun(s, xs + ys) && Exec(s, xs + ys) == Exec(Exec(s, xs), ys)
    decreases |xs|
  {
    if xs == [] {
      assert xs + ys == ys;
    } else {
      assert (xs + ys)[0] == xs[0] && (xs + ys)[1..] == xs[1..] + ys;
      ExecAppend(Apply(s, xs[0]), xs[1..], ys);
    }
  }

  // ---------------------------------------------------------------- counting frames

  /** What a count looks for: tracked frames with a key, or frames carrying one exact input. */
  datatype Probing = WithKey(key: string) | Exactly(input: Input)

  predicate Hits(q: Probing, f: Frame)
  {
    match q
    case WithKey(k) => Tracked(f.input) && f.input.key == k
    case Exactly(i) => f.input == i
  }

  function Count(fs: seq<Frame>, q: Probing): nat
  {
    if fs == [] then 0 else Count(fs[..|fs| - 1], q) + if Hits(q, fs[|fs| - 1]) then 1 else 0
  }

  lemma {:induction false} CountAppend(a: seq<Frame>, b: seq<Frame>, q: Probing)
    ensures Count(a + b, q) == Count(a, q) + Count(b, q)
  {
    if b == [] {
      assert a + b == a;
    } else {
      CountAppend(a, b[..|b| - 1], q);
      assert (a + b)[..|a + b| - 1] == a + b[..|b| - 1];
    }
  }

  lemma CountOne(f: Frame, q: Probing)
    ensures Count([f], q) == if Hits(q, f) then 1 else 0
  {
    assert [f][..0] == [];
  }

  lemma CountWithout(fs: seq<Frame>, at: nat, q: Probing)
    requires at < |fs|
    ensures Count(fs, q) == Count(Without(fs, at), q) + if Hits(q, fs[at]) then 1 else 0
  {
    assert fs == fs[..at] + [fs[at]] + fs[at + 1..];
    CountAppend(fs[..at] + [fs[at]], fs[at + 1..], q);
    CountAppend(fs[..at], [fs[at]], q);
    CountAppend(fs[..at], fs[at + 1..], q);
    CountOne(fs[at], q);
  }

  lemma {:induction false} CountMember(fs: seq<Frame>, at: nat, q: Probing)
    requires at < |fs| && Hits(q, fs[at])
    ensures Count(fs, q) >= 1
  {
    CountWithout(fs, at, q);
  }

  function InFlight(d: Drain): seq<Frame>
  {
    if d.Writing? then [d.frame] else []
  }

  /** Frames arriving, queued, in flight, being failed or written. */
  function LiveCount(s: State, q: Probing): nat
  {
    Count(s.arriving, q) + Count(s.pending, q) + Count(InFlight(s.drain), q) + Count(s.failing, q)
    + Count(s.written, q)
  }
}
