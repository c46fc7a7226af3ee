/** What every run of the input-delivery steps keeps, and the exact condition for
    at-most-once delivery. */
module InputDeliverySafety {
  import opened Text
  import opened InputDelivery

  // ---------------------------------------------------------------- conservation

  /** Every accepted input is somewhere: still alive, or its failure was reported. */
  ghost predicate NothingLost(s: State)
  {
    forall i: Input ::
      Count(s.accepted, Exactly(i)) == LiveCount(s, Exactly(i)) + Count(s.settled, Exactly(i))
  }

  /** Receive adds the accepted frame, Report removes the reported one, and every other
      step only moves frames between pools. */
  lemma MoveCount(s: State, step: Step, q: Probing)
    requires Sane(s) && Enabled(s, step) && !step.Receive? && !step.Report?
    ensures LiveCount(Apply(s, step), q) == LiveCount(s, q)
  {
    match step
    case Admit(at) => AdmitCount(s, at, q);
    case Probe => CountAppend(s.failing, s.pending, q);
    case Take => TakeCount(s, q);
    case Deliver(ok) => DeliverCount(s, ok, q);
    case FailAll(_) => CountAppend(s.failing, s.pending, q);
    case Discard => CountAppend(s.failing, s.pending, q);
    case _ =>
  }

  lemma ReceiveCount(s: State, i: Input, q: Probing)
    requires !(Tracked(i) && i.key in s.seen)
    ensures var s' := ApplyReceive(s, i);
      var hit := if Hits(q, Frame(0, i)) then 1 else 0;
      LiveCount(s', q) == LiveCount(s, q) + hit && Count(s'.accepted, q) == Count(s.accepted, q) + hit
  {
    CountAppend(s.arriving, [Frame(0, i)], q);
    CountAppend(s.accepted, [Frame(0, i)], q);
    CountOne(Frame(0, i), q);
  }

  lemma ReportCount(s: State, at: nat, q: Probing)
    requires at < |s.failing|
    ensures var s' := ApplyReport(s, at);
      var hit := if Hits(q, s.failing[at]) then 1 else 0;
      LiveCount(s', q) == LiveCount(s, q) - hit && Count(s'.settled, q) == Count(s.settled, q) + hit
  {
    CountWithout(s.failing, at, q);
    CountAppend(s.settled, [s.failing[at]], q);
    CountOne(s.failing[at], q);
  }

  /** An order number does not change what a frame is. */
  lemma CountNumbered(f: Frame, n: nat, q: Probing)
    ensures Count([f.(order := n)], q) == Count([f], q)
  {
    CountOne(f, q);
    CountOne(f.(order := n), q);
  }

  lemma AdmitCount(s: State, at: nat, q: Probing)
    requires Sane(s) && at < |s.arriving|
    ensures LiveCount(ApplyAdmit(s, at), q) == LiveCount(s, q)
  {
    var f, s' := s.arriving[at], ApplyAdmit(s, at);
    assert Count(s'.arriving, q) + Count([f], q) == Count(s.arriving, q) by {
      CountWithout(s.arriving, at, q);
      CountOne(f, q);
    }
    assert Count(s'.pending, q) + Count(s'.failing, q) == Count(s.pending, q) + Count(s.failing, q) + Count([f], q) by {
      CountAppend(s.failing, [f], q);
      CountAppend(s.pending, [f.(order := s.orders + 1)], q);
      CountNumbered(f, s.orders + 1, q);
    }
  }

  lemma TakeCount(s: State, q: Probing)
    requires Sane(s) && s.drain.Probed?
    ensures LiveCount(ApplyTake(s), q) == LiveCount(s, q)
  {
    assert s.pending == [s.pending[0]] + s.pending[1..];
    CountAppend([s.pending[0]], s.pending[1..], q);
  }

  lemma DeliverCount(s: State, ok: bool, q: Probing)
    requires Sane(s) && s.drain.Writing?
    ensures LiveCount(ApplyDeliver(s, ok), q) == LiveCount(s, q)
  {
    var s', f := ApplyDeliver(s, ok), s.drain.frame;
    assert InFlight(s'.drain) == [];
    if s'.failing != s.failing {
      CountAppend(s.failing, [f], q);
    } else if s'.written != s.written {
      CountAppend(s.written, [f], q);
    } else {
      CountAppend([f], s.pending, q);
    }
  }

  /** Steps that neither accept nor report a frame. */
  lemma MoveKeeps(s: State, step: Step)
    requires Sane(s) && Enabled(s, step) && !step.Receive? && !step.Report?
    ensures Apply(s, step).accepted == s.accepted && Apply(s, step).settled == s.settled
  {
  }

  lemma Balance(s: State, step: Step, q: Probing)
    requires Sane(s) && Enabled(s, step) && Count(s.accepted, q) == LiveCount(s, q) + Count(s.settled, q)
    ensures var s' := Apply(s, step); Count(s'.accepted, q) == LiveCount(s', q) + Count(s'.settled, q)
  {
    if step.Receive? {
      if !(Tracked(step.input) && step.input.key in s.seen) {
        ReceiveCount(s, step.input, q);
      }
    } else if step.Report? {
      ReportCount(s, step.at, q);
    } else {
      MoveCount(s, step, q);
      MoveKeeps(s, step);
    }
  }

  lemma NothingLostStep(s: State, step: Step)
    requires Sane(s) && Enabled(s, step) && NothingLost(s)
    ensures NothingLost(Apply(s, step))
  {
    forall i: Input
      ensures var s' := Apply(s, step);
        Count(s'.accepted, Exactly(i)) == LiveCount(s', Exactly(i)) + Count(s'.settled, Exactly(i))
    {
      Balance(s, step, Exactly(i));
    }
  }

  // ---------------------------------------------------------------- the dedupe set

  /** A key is reserved exactly when one tracked frame with that key is alive. */
  ghost predicate SeenExact(s: State)
  {
    forall k: string :: LiveCount(s, WithKey(k)) == if k in s.seen then 1 else 0
  }

  /** No control frame of the alphabet carries the key of a tracked message. */
  ghost predicate NoReuse(alphabet: iset<Input>)
  {
    forall c, h :: c in alphabet && h in alphabet && c.kind != Human && c.id != "" && Tracked(h)
      ==> c.key != h.key
  }

  ghost predicate InputsIn(fs: seq<Frame>, alphabet: iset<Input>)
  {
    forall i :: 0 <= i < |fs| ==> fs[i].input in alphabet
  }

  /** Every frame alive comes from the alphabet, and so does every reserved key. */
  ghost predicate FromAlphabet(s: State, alphabet: iset<Input>)
  {
    && InputsIn(s.arriving, alphabet)
    && InputsIn(s.pending, alphabet)
    && InputsIn(s.failing, alphabet)
    && InputsIn(InFlight(s.drain), alphabet)
    && (forall k :: k in s.seen ==> exists h :: h in alphabet && Tracked(h) && h.key == k)
  }

  lemma FromAlphabetStep(s: State, step: Step, alphabet: iset<Input>)
    requires Sane(s) && Enabled(s, step) && FromAlphabet(s, alphabet)
    requires step.Receive? ==> step.input in alphabet
    ensures FromAlphabet(Apply(s, step), alphabet)
  {
  }

  lemma SeenExactStep(s: State, step: Step, alphabet: iset<Input>)
    requires Sane(s) && Enabled(s, step) && SeenExact(s)
    requires NoReuse(alphabet) && FromAlphabet(s, alphabet)
    requires step.Receive? ==> step.input in alphabet
    ensures SeenExact(Apply(s, step))
  {
    var s' := Apply(s, step);
    forall k: string
      ensures LiveCount(s', WithKey(k)) == if k in s'.seen then 1 else 0
    {
      match step
      case Receive(x) => if !(Tracked(x) && x.key in s.seen) { ReceiveCount(s, x, WithKey(k)); }
      case Report(at) =>
        ReportCount(s, at, WithKey(k));
        assert s.failing[at].input in alphabet;
        if Hits(WithKey(k), s.failing[at]) {
          CountMember(s.failing, at, WithKey(k));
        }
      case _ => MoveCount(s, step, WithKey(k));
    }
  }

  // ---------------------------------------------------------------- FIFO

  /** What stdin has taken, then the frame being written, then the queue. */
  function Line(s: State): seq<Frame>
  {
    s.written + InFlight(s.drain) + s.pending
  }

  ghost predicate Increasing(fs: seq<Frame>)
  {
    forall i, j :: 0 <= i < j < |fs| ==> fs[i].order < fs[j].order
  }

  ghost predicate Fifo(s: State)
  {
    && Increasing(Line(s))
    && (forall i :: 0 <= i < |Line(s)| ==> 1 <= Line(s)[i].order <= s.orders)
  }

  lemma FifoDropTail(s: State, s': State, n: nat)
    requires Fifo(s) && s'.orders == s.orders && n <= |Line(s)| && Line(s') == Line(s)[..n]
    ensures Fifo(s')
  {
    forall i | 0 <= i < |Line(s')| ensures Line(s')[i] == Line(s)[i] {}
  }

  lemma FifoAdmit(s: State, at: nat)
    requires Sane(s) && at < |s.arriving| && Fifo(s)
    ensures Fifo(ApplyAdmit(s, at))
  {
    var s' := ApplyAdmit(s, at);
    if s'.orders != s.orders {
      assert Line(s') == Line(s) + [s.arriving[at].(order := s.orders + 1)];
    } else {
      assert Line(s') == Line(s);
    }
  }

  /** Steps after which the line is the same or only shorter at its end. */
  lemma FifoShorter(s: State, step: Step)
    requires Sane(s) && Enabled(s, step) && Fifo(s) && !step.Admit? && !step.Deliver?
    ensures Fifo(Apply(s, step))
  {
    var s' := Apply(s, step);
    assert Line(s') == Line(s)[..|Line(s')|];
    FifoDropTail(s, s', |Line(s')|);
  }

  lemma FifoStep(s: State, step: Step)
    requires Sane(s) && Enabled(s, step) && Fifo(s)
    ensures Fifo(Apply(s, step))
  {
    match step
    case Admit(at) => FifoAdmit(s, at);
    case Deliver(ok) => FifoDeliver(s, ok);
    case _ => FifoShorter(s, step);
  }

  lemma IncreasingWithout(fs: seq<Frame>, at: nat)
    requires Increasing(fs) && at < |fs|
    ensures Increasing(Without(fs, at))
    ensures forall i :: 0 <= i < |fs| - 1 ==> Without(fs, at)[i] == fs[if i < at then i else i + 1]
  {
  }

  lemma FifoDeliver(s: State, ok: bool)
    requires Sane(s) && s.drain.Writing? && Fifo(s)
    ensures Fifo(ApplyDeliver(s, ok))
  {
    var s' := ApplyDeliver(s, ok);
    var w, line, line' := |s.written|, Line(s), Line(s');
    if |line'| == |line| {
      assert line' == line;
    } else {
      // The in-flight frame left the line.
      assert line' == Without(line, w);
      IncreasingWithout(line, w);
    }
  }

  // ---------------------------------------------------------------- no stranding

  predicate AttachedStream(s: State, r: nat)
  {
    r < |s.runs| && s.runs[r].interactive && s.runs[r].attached
  }

  /** Someone is still bound to look at the queue on behalf of run r. */
  predicate Attended(s: State, r: nat)
    requires r < |s.runs|
  {
    s.owing > 0 || !s.drain.Idle? || s.runs[r].phase !in {Live, Done}
  }

  ghost predicate NeverStranded(s: State)
  {
    forall r :: s.executor == Some(r) && AttachedStream(s, r) && s.pending != [] ==> Attended(s, r)
  }

  /** A run is closed only once it has exited, and started streams have their stdin. */
  predicate RunOk(run: Run)
  {
    && (run.closed ==> run.phase in {Exited, Done})
    && (run.interactive && run.phase in {Started, Live, Exited} ==> run.attached)
  }

  /** The drain loop looks at the executor's stream, and writes to one with its stdin. */
  predicate DrainOk(s: State)
  {
    && (s.drain.Writing? ==> AttachedStream(s, s.drain.run))
    && (s.drain.Probed? ==>
          && s.executor == Some(s.drain.run) && s.drain.run < |s.runs|
          && s.runs[s.drain.run].interactive
          && (s.runs[s.drain.run].closed ==> s.runs[s.drain.run].phase == Exited))
  }

  ghost predicate RunsSound(s: State)
  {
    Sane(s) && DrainOk(s) && forall r :: 0 <= r < |s.runs| ==> RunOk(s.runs[r])
  }

  lemma RunOkStep(s: State, step: Step, r: nat)
    requires Sane(s) && Enabled(s, step) && RunsSound(s) && r < |Apply(s, step).runs|
    ensures RunOk(Apply(s, step).runs[r])
  {
    if r < |s.runs| {
      assert RunOk(s.runs[r]);
    }
  }

  /** The steps of the drain loop itself. */
  lemma DrainOkOwn(s: State, step: Step)
    requires Sane(s) && Enabled(s, step) && RunsSound(s) && (step.Probe? || step.Take? || step.Deliver?)
    ensures DrainOk(Apply(s, step))
  {
    if step.Probe? && s.executor.Some? {
      assert RunOk(s.runs[s.executor.value]);
    } else if step.Take? {
      assert RunOk(s.runs[s.drain.run]);
    }
  }

  lemma DrainOkOther(s: State, step: Step)
    requires Sane(s) && Enabled(s, step) && RunsSound(s) && !(step.Probe? || step.Take? || step.Deliver?)
    ensures DrainOk(Apply(s, step))
  {
    assert s.drain.Probed? || s.drain.Writing? ==> RunOk(s.runs[s.drain.run]);
  }

  lemma RunsSoundStep(s: State, step: Step)
    requires Sane(s) && Enabled(s, step) && RunsSound(s)
    ensures RunsSound(Apply(s, step))
  {
    if step.Probe? || step.Take? || step.Deliver? {
      DrainOkOwn(s, step);
    } else {
      DrainOkOther(s, step);
    }
    forall r | 0 <= r < |Apply(s, step).runs|
      ensures RunOk(Apply(s, step).runs[r])
    {
      RunOkStep(s, step, r);
    }
  }

  lemma NeverStrandedStep(s: State, step: Step)
    requires Sane(s) && Enabled(s, step) && RunsSound(s) && NeverStranded(s)
    ensures NeverStranded(Apply(s, step))
  {
  }

  // ---------------------------------------------------------------- whole runs

  ghost predicate Inv(s: State, alphabet: iset<Input>)
  {
    && RunsSound(s) && NothingLost(s) && Fifo(s) && NeverStranded(s)
    && FromAlphabet(s, alphabet) && (NoReuse(alphabet) ==> SeenExact(s))
  }

  ghost predicate ArrivalsIn(steps: seq<Step>, alphabet: iset<Input>)
  {
    forall i :: 0 <= i < |steps| && steps[i].Receive? ==> steps[i].input in alphabet
  }

  lemma {:induction false} InvRun(s: State, steps: seq<Step>, alphabet: iset<Input>)
    requires Sane(s) && ValidRun(s, steps) && Inv(s, alphabet) && ArrivalsIn(steps, alphabet)
    ensures Inv(Exec(s, steps), alphabet)
    decreases |steps|
  {
    if steps != [] {
      var step := steps[0];
      RunsSoundStep(s, step);
      NothingLostStep(s, step);
      FifoStep(s, step);
      NeverStrandedStep(s, step);
      FromAlphabetStep(s, step, alphabet);
      if NoReuse(alphabet) {
        SeenExactStep(s, step, alphabet);
      }
      InvRun(Apply(s, step), steps[1..], alphabet);
    }
  }

  ghost predicate Reachable(s: State, alphabet: iset<Input>)
  {
    exists steps :: ValidRun(START, steps) && ArrivalsIn(steps, alphabet) && Exec(START, steps) == s
  }

  lemma InvReachable(s: State, alphabet: iset<Input>)
    requires Reachable(s, alphabet)
    ensures Inv(s, alphabet)
  {
    var steps :| ValidRun(START, steps) && ArrivalsIn(steps, alphabet) && Exec(START, steps) == s;
    InvRun(START, steps, alphabet);
  }

  /** In every interleaving, the session lost no frame, kept queue order through stdin,
      and left no frame behind: once every goroutine that owes a drain or a fail-all has
      done it, a non-empty queue means the executor is not an attached stream. */
  lemma DeliverySafety(s: State, alphabet: iset<Input>)
    requires Reachable(s, alphabet)
    ensures NothingLost(s)
    ensures Increasing(Line(s))
    ensures s.owing == 0 && s.drain.Idle? && (forall r :: 0 <= r < |s.runs| ==> s.runs[r].phase in {Live, Done})
            && s.pending != [] && s.executor.Some?
            ==> !AttachedStream(s, s.executor.value)
  {
    InvReachable(s, alphabet);
  }

  /** The put-back branch of drainPending is dead: a frame being written always has a
      stream whose stdin is attached. */
  lemma PutBackUnreachable(s: State, alphabet: iset<Input>)
    requires Reachable(s, alphabet) && s.drain.Writing?
    ensures s.runs[s.drain.run].attached
  {
    InvReachable(s, alphabet);
  }

  /** With no key reuse, a key is in the seen set exactly when exactly one frame with that
      key is arriving, queued, in flight, being failed or written. */
  lemma SeenExactlyAlive(s: State, alphabet: iset<Input>, k: string)
    requires Reachable(s, alphabet) && NoReuse(alphabet)
    ensures k in s.seen <==> LiveCount(s, WithKey(k)) == 1
    ensures k !in s.seen <==> LiveCount(s, WithKey(k)) == 0
  {
    InvReachable(s, alphabet);
  }

  // ---------------------------------------------------------------- at most once

  ghost predicate AtMostOnce(s: State)
  {
    forall i, j :: 0 <= i < j < |s.written|
      && Tracked(s.written[i].input) && Tracked(s.written[j].input)
      ==> s.written[i].input.key != s.written[j].input.key
  }

  lemma AtMostOnceFromCount(s: State, i: nat, j: nat)
    requires SeenExact(s) && i < j < |s.written|
    requires Tracked(s.written[i].input) && Tracked(s.written[j].input)
    ensures s.written[i].input.key != s.written[j].input.key
  {
    var k := s.written[i].input.key;
    if s.written[j].input.key == k {
      var fs := s.written;
      CountWithout(fs, j, WithKey(k));
      CountMember(Without(fs, j), i, WithKey(k));
    }
  }

  lemma {:induction false} AtMostOnceHolds(s: State, alphabet: iset<Input>)
    requires Reachable(s, alphabet) && NoReuse(alphabet)
    ensures AtMostOnce(s)
  {
    InvReachable(s, alphabet);
    forall i, j | 0 <= i < j < |s.written|
      && Tracked(s.written[i].input) && Tracked(s.written[j].input)
      ensures s.written[i].input.key != s.written[j].input.key
    {
      AtMostOnceFromCount(s, i, j);
    }
  }

  // ---------------------------------------------------------------- the condition is needed

  lemma ReachStep(s: State, step: Step, alphabet: iset<Input>)
    requires Sane(s) && Reachable(s, alphabet) && Enabled(s, step)
    requires step.Receive? ==> step.input in alphabet
    ensures Reachable(Apply(s, step), alphabet)
  {
    var steps :| ValidRun(START, steps) && ArrivalsIn(steps, alphabet) && Exec(START, steps) == s;
    assert [step][1..] == [];
    assert ValidRun(s, [step]);
    assert Exec(s, [step]) == Exec(Apply(s, step), []) == Apply(s, step);
    ExecAppend(START, steps, [step]);
    assert ArrivalsIn(steps + [step], alphabet);
  }

  /** A session at rest: one live stream, nothing queued. */
  predicate AtRest(s: State)
  {
    && s.runs == [Run(true, true, false, Live)] && s.executor == Some(0)
    && s.drain == Idle && s.owing == 0 && s.arriving == [] && s.pending == []
  }

  lemma RestIsReachable(alphabet: iset<Input>) returns (s: State)
    ensures AtRest(s) && Reachable(s, alphabet) && s.seen == {} && s.failing == [] && s.written == []
  {
    assert ValidRun(START, []) && Exec(START, []) == START;
    s := START;
    s := ReachNext(s, Launch(true), alphabet);
    s := ReachNext(s, Attach(0), alphabet);
    s := ReachNext(s, StartOk(0), alphabet);
    s := ReachNext(s, BeginFlush(0), alphabet);
    s := ReachNext(s, Probe, alphabet);
  }

  lemma ReachNext(s: State, step: Step, alphabet: iset<Input>) returns (s': State)
    requires Sane(s) && Reachable(s, alphabet) && Enabled(s, step)
    requires step.Receive? ==> step.input in alphabet
    ensures Sane(s') && s' == Apply(s, step) && Reachable(s', alphabet)
  {
    ReachStep(s, step, alphabet);
    s' := Apply(s, step);
  }

  /** A frame is queued in a session at rest and its goroutine takes drainMu. */
  lemma Arrive(s: State, i: Input, alphabet: iset<Input>) returns (s': State)
    requires AtRest(s) && Reachable(s, alphabet) && i in alphabet
    requires !(Tracked(i) && i.key in s.seen)
    ensures Reachable(s', alphabet)
    ensures AtRest(s'.(pending := [], drain := Idle)) && s'.pending == [Frame(s.orders + 1, i)] && s'.drain == Top
    ensures s'.seen == if Tracked(i) then s.seen + {i.key} else s.seen
    ensures s'.written == s.written && s'.failing == s.failing
  {
    s' := Queued(s, i, alphabet);
    s' := ReachBegin(s', alphabet);
  }

  /** The frame is queued and its goroutine owes a drain. */
  lemma Queued(s: State, i: Input, alphabet: iset<Input>) returns (s': State)
    requires AtRest(s) && Reachable(s, alphabet) && i in alphabet
    requires !(Tracked(i) && i.key in s.seen)
    ensures Reachable(s', alphabet)
    ensures AtRest(s'.(pending := [], owing := 0)) && s'.pending == [Frame(s.orders + 1, i)] && s'.owing == 1
    ensures s'.seen == if Tracked(i) then s.seen + {i.key} else s.seen
    ensures s'.written == s.written && s'.failing == s.failing
  {
    var s1 := Apply(s, Receive(i));
    QueuedIs(s, i);
    ReachTwice(s, Receive(i), Admit(0), alphabet);
    s' := Apply(s1, Admit(0));
  }

  /** What the two critical sections of deliverInput do to a session at rest. */
  lemma QueuedIs(s: State, i: Input)
    requires AtRest(s) && !(Tracked(i) && i.key in s.seen)
    ensures Enabled(s, Receive(i)) && Enabled(Apply(s, Receive(i)), Admit(0))
    ensures var s' := Apply(Apply(s, Receive(i)), Admit(0));
      && AtRest(s'.(pending := [], owing := 0)) && s'.pending == [Frame(s.orders + 1, i)] && s'.owing == 1
      && s'.seen == (if Tracked(i) then s.seen + {i.key} else s.seen)
      && s'.written == s.written && s'.failing == s.failing
  {
    AdmitOnly(Apply(s, Receive(i)), Frame(0, i));
  }

  lemma ReachTwice(s: State, a: Step, b: Step, alphabet: iset<Input>)
    requires Sane(s) && Reachable(s, alphabet) && Enabled(s, a) && Enabled(Apply(s, a), b)
    requires (a.Receive? ==> a.input in alphabet) && (b.Receive? ==> b.input in alphabet)
    ensures Reachable(Apply(Apply(s, a), b), alphabet)
  {
    ReachStep(s, a, alphabet);
    ReachStep(Apply(s, a), b, alphabet);
  }

  lemma ReachBegin(s: State, alphabet: iset<Input>) returns (s': State)
    requires Sane(s) && Reachable(s, alphabet) && s.drain == Idle && s.owing > 0
    ensures Sane(s') && Reachable(s', alphabet) && s' == s.(drain := Top, owing := s.owing - 1)
  {
    s' := ReachNext(s, BeginDrain, alphabet);
  }

  /** The only arriving frame joins an empty queue of a stream session. */
  lemma AdmitOnly(s: State, f: Frame)
    requires Sane(s) && s.arriving == [f] && s.pending == [] && s.executor.Some? && s.runs[s.executor.value].interactive
    ensures ApplyAdmit(s, 0) == s.(arriving := [], pending := [f.(order := s.orders + 1)], orders := s.orders + 1,
                                   owing := s.owing + 1)
  {
    assert Without(s.arriving, 0) == [];
  }

  /** The drain loop writes the one queued frame, with the given outcome. */
  lemma Drained(s: State, f: Frame, ok: bool, alphabet: iset<Input>) returns (s': State)
    requires AtRest(s.(pending := [], drain := Idle)) && s.pending == [f] && s.drain == Top
    requires Reachable(s, alphabet)
    ensures AtRest(s') && Reachable(s', alphabet) && s'.seen == s.seen
    ensures if ok && f.input.kind != Unknown then s'.written == s.written + [f] && s'.failing == s.failing
            else s'.written == s.written && s'.failing == s.failing + [f]
  {
    s' := ReachNext(s, Probe, alphabet);
    s' := ReachNext(s', Take, alphabet);
    s' := ReachNext(s', Deliver(ok), alphabet);
    s' := ReachNext(s', Probe, alphabet);
  }

  /** One input passing through a session at rest, with the outcome of its write. */
  lemma Visit(s: State, i: Input, ok: bool, alphabet: iset<Input>) returns (s': State)
    requires AtRest(s) && Reachable(s, alphabet) && i in alphabet
    requires !(Tracked(i) && i.key in s.seen)
    ensures AtRest(s') && Reachable(s', alphabet)
    ensures s'.seen == if Tracked(i) then s.seen + {i.key} else s.seen
    ensures var f := Frame(s.orders + 1, i);
      if ok && i.kind != Unknown then s'.written == s.written + [f] && s'.failing == s.failing
      else s'.written == s.written && s'.failing == s.failing + [f]
  {
    s' := Arrive(s, i, alphabet);
    s' := Drained(s', Frame(s.orders + 1, i), ok, alphabet);
  }

  /** A control frame that fails while carrying the key of a written message frees that
      key, and the message is written a second time. */
  lemma ReuseWritesTwice(c: Input, h: Input, alphabet: iset<Input>) returns (s: State, i: nat, j: nat)
    requires c in alphabet && h in alphabet
    requires c.kind != Human && c.id != "" && Tracked(h) && c.key == h.key
    ensures Reachable(s, alphabet) && !AtMostOnce(s)
    ensures i < j < |s.written| && s.written[i].input == h && s.written[j].input == h
  {
    s := RestIsReachable(alphabet);
    s := Visit(s, h, true, alphabet);
    s := Visit(s, c, false, alphabet);
    s := ReachNext(s, Report(0), alphabet);
    s := Visit(s, h, true, alphabet);
    i, j := 0, 1;
    assert s.written[0].input == h && s.written[1].input == h;
  }

  /** At-most-once delivery, exactly: for the inputs a gateway may send, no run writes the
      same tracked key twice if and only if no control frame reuses a message's key. */
  lemma AtMostOnceExactly(alphabet: iset<Input>)
    ensures (forall s :: Reachable(s, alphabet) ==> AtMostOnce(s)) <==> NoReuse(alphabet)
  {
    if NoReuse(alphabet) {
      forall s | Reachable(s, alphabet) ensures AtMostOnce(s) {
        AtMostOnceHolds(s, alphabet);
      }
    } else {
      var c, h :| c in alphabet && h in alphabet && c.kind != Human && c.id != "" && Tracked(h)
                  && c.key == h.key;
      var s, i, j := ReuseWritesTwice(c, h, alphabet);
    }
  }

  // ---------------------------------------------------------------- in wire terms

  ghost function Inputs(wire: iset<NodeSessionInput>): iset<Input>
  {
    iset raw | raw in wire :: Decode(raw)
  }

  predicate Deduplicated(raw: NodeSessionInput)
  {
    TrimSpace(raw.clientMessageId) != "" && SaysMessage(raw)
  }

  /** No frame of another kind carries the id and attempt of a message. */
  ghost predicate WireNoReuse(wire: iset<NodeSessionInput>)
  {
    forall c, h :: c in wire && h in wire && Deduplicated(h) && !SaysMessage(c) ==> !SameExecution(c, h)
  }

  lemma ReuseOnWire(c: NodeSessionInput, h: NodeSessionInput)
    ensures Decode(c).kind != Human && Decode(c).id != "" && Tracked(Decode(h)) && Decode(c).key == Decode(h).key
       <==> Deduplicated(h) && !SaysMessage(c) && SameExecution(c, h)
  {
    DecodeMeans(c);
    DecodeMeans(h);
    if Deduplicated(h) {
      MessageKeyInjective(c, h);
    }
  }

  lemma NoReuseOnWire(wire: iset<NodeSessionInput>)
    ensures NoReuse(Inputs(wire)) <==> WireNoReuse(wire)
  {
    forall c, h | c in wire && h in wire
      ensures Decode(c) in Inputs(wire)
      ensures Decode(c).kind != Human && Decode(c).id != "" && Tracked(Decode(h)) && Decode(c).key == Decode(h).key
         <==> Deduplicated(h) && !SaysMessage(c) && SameExecution(c, h)
    {
      ReuseOnWire(c, h);
    }
    if !NoReuse(Inputs(wire)) {
      var x, y :| x in Inputs(wire) && y in Inputs(wire) && x.kind != Human && x.id != "" && Tracked(y)
                  && x.key == y.key;
      var c :| c in wire && Decode(c) == x;
      var h :| h in wire && Decode(h) == y;
      ReuseOnWire(c, h);
    }
  }

  /** The two written frames came from these wire inputs. */
  predicate WroteBoth(s: State, i: nat, j: nat, a: NodeSessionInput, b: NodeSessionInput)
  {
    i < j < |s.written| && s.written[i].input == Decode(a) && s.written[j].input == Decode(b)
  }

  /** No message that carries an id reaches stdin twice for one attempt, attempts 0 and 1
      being the same one, over any number of runs of the session. */
  lemma NoPairWrittenTwice(s: State, wire: iset<NodeSessionInput>, a: NodeSessionInput, b: NodeSessionInput,
                           i: nat, j: nat)
    requires WireNoReuse(wire) && Reachable(s, Inputs(wire)) && WroteBoth(s, i, j, a, b)
    requires TrimSpace(a.clientMessageId) != "" && TrimSpace(a.kind) in {"human_message", ""}
    requires TrimSpace(b.clientMessageId) != "" && TrimSpace(b.kind) in {"human_message", ""}
    ensures || TrimSpace(a.clientMessageId) != TrimSpace(b.clientMessageId)
            || (a.deliveryAttempt != b.deliveryAttempt && {a.deliveryAttempt, b.deliveryAttempt} != {0, 1})
  {
    NoReuseOnWire(wire);
    AtMostOnceHolds(s, Inputs(wire));
    DecodeMeans(a);
    DecodeMeans(b);
    MessageKeyInjective(a, b);
  }

  /** Exactly so: for the raw frames a gateway may send, every run keeps it if and only if no
      frame of another kind carries a message's id and attempt. */
  lemma WireAtMostOnceExactly(wire: iset<NodeSessionInput>)
    ensures WireNoReuse(wire) <==>
            forall s, i, j, a, b ::
              Reachable(s, Inputs(wire)) && a in wire && b in wire && WroteBoth(s, i, j, a, b) && Deduplicated(a)
              ==> !(Deduplicated(b) && SameExecution(a, b))
  {
    NoReuseOnWire(wire);
    if WireNoReuse(wire) {
      forall s, i, j, a, b |
          Reachable(s, Inputs(wire)) && a in wire && b in wire && WroteBoth(s, i, j, a, b) && Deduplicated(a)
        ensures !(Deduplicated(b) && SameExecution(a, b))
      {
        if Deduplicated(b) {
          NoPairWrittenTwice(s, wire, a, b, i, j);
        }
      }
    } else {
      var c, h :| c in wire && h in wire && Deduplicated(h) && !SaysMessage(c) && SameExecution(c, h);
      ReuseOnWire(c, h);
      var s, i, j := ReuseWritesTwice(Decode(c), Decode(h), Inputs(wire));
      assert WroteBoth(s, i, j, h, h);
    }
  }
}
