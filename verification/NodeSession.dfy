/** The session object itself: the fields deliverInput, drainPending and
    failPendingInputs update, with one method per critical section and the procedures
    built from them. Every method performs steps of the protocol in InputDelivery, so
    what is proved of all runs holds of the object. */
module NodeSessionObject {
  import opened Text
  import opened InputDelivery
  import Safety = InputDeliverySafety

  /** s' follows s by one protocol step, with arrivals from the alphabet only. */
  ghost predicate Linked(s: State, s': State, alphabet: iset<Input>)
  {
    && Sane(s) && Sane(s')
    && (exists step :: Enabled(s, step) && (step.Receive? ==> step.input in alphabet) && s' == Apply(s, step))
  }

  ghost predicate Chain(h: seq<State>, alphabet: iset<Input>)
  {
    && h != [] && h[0] == START
    && (forall i, j :: 0 <= i && j == i + 1 && j < |h| ==> Linked(h[i], h[j], alphabet))
  }

  lemma {:induction false} ChainReachable(h: seq<State>, alphabet: iset<Input>)
    requires Chain(h, alphabet)
    ensures Safety.Reachable(h[|h| - 1], alphabet)
  {
    if |h| == 1 {
      assert ValidRun(START, []) && Safety.ArrivalsIn([], alphabet) && Exec(START, []) == START;
    } else {
      ChainReachable(h[..|h| - 1], alphabet);
      assert Linked(h[|h| - 2], h[|h| - 1], alphabet);
      var step :| Enabled(h[|h| - 2], step) && (step.Receive? ==> step.input in alphabet)
                  && h[|h| - 1] == Apply(h[|h| - 2], step);
      Safety.ReachStep(h[|h| - 2], step, alphabet);
    }
  }

  /** The frames the stream takes, given which writes succeed. */
  function Taken(fs: seq<Frame>, accepts: Frame -> bool): seq<Frame>
  {
    if fs == [] then []
    else (if Accepted(fs[0], accepts) then [fs[0]] else []) + Taken(fs[1..], accepts)
  }

  /** The frames deliver returns an error for. */
  function Refused(fs: seq<Frame>, accepts: Frame -> bool): seq<Frame>
  {
    if fs == [] then []
    else (if Accepted(fs[0], accepts) then [] else [fs[0]]) + Refused(fs[1..], accepts)
  }

  /** Taken and Refused split the queue. */
  lemma {:induction false} SplitComplete(fs: seq<Frame>, accepts: Frame -> bool)
    ensures multiset(fs) == multiset(Taken(fs, accepts)) + multiset(Refused(fs, accepts))
  {
    if fs != [] {
      SplitComplete(fs[1..], accepts);
      assert fs == [fs[0]] + fs[1..];
    }
  }

  /** A frame is taken exactly if its kind can be delivered and its write succeeds, and is
      refused exactly otherwise. */
  lemma {:induction false} SplitExactly(fs: seq<Frame>, accepts: Frame -> bool, f: Frame)
    ensures f in Taken(fs, accepts) <==> f in fs && f.input.kind != Unknown && accepts(f)
    ensures f in Refused(fs, accepts) <==> f in fs && !(f.input.kind != Unknown && accepts(f))
  {
    if fs != [] {
      SplitExactly(fs[1..], accepts, f);
      assert f in fs <==> f == fs[0] || f in fs[1..];
    }
  }

  lemma Heads(f: Frame, rest: seq<Frame>)
    requires Safety.Increasing(rest) && forall i :: 0 <= i < |rest| ==> f.order < rest[i].order
    ensures Safety.Increasing([f] + rest)
  {
  }

  lemma Behind(fs: seq<Frame>, part: seq<Frame>)
    requires fs != [] && Safety.Increasing(fs) && forall i :: 0 <= i < |part| ==> part[i] in fs[1..]
    ensures forall i :: 0 <= i < |part| ==> fs[0].order < part[i].order
  {
    forall i | 0 <= i < |part|
      ensures fs[0].order < part[i].order
    {
      var j :| 0 <= j < |fs[1..]| && fs[1..][j] == part[i];
      assert fs[j + 1] == part[i];
    }
  }

  lemma PartsWithin(fs: seq<Frame>, accepts: Frame -> bool)
    ensures forall i :: 0 <= i < |Taken(fs, accepts)| ==> Taken(fs, accepts)[i] in fs
    ensures forall i :: 0 <= i < |Refused(fs, accepts)| ==> Refused(fs, accepts)[i] in fs
  {
    forall f
      ensures f in Taken(fs, accepts) ==> f in fs
      ensures f in Refused(fs, accepts) ==> f in fs
    {
      SplitExactly(fs, accepts, f);
    }
  }

  /** Both parts keep the queue's order. */
  lemma {:induction false} SplitOrdered(fs: seq<Frame>, accepts: Frame -> bool)
    requires Safety.Increasing(fs)
    ensures Safety.Increasing(Taken(fs, accepts)) && Safety.Increasing(Refused(fs, accepts))
  {
    if fs != [] {
      var rest := fs[1..];
      SplitOrdered(rest, accepts);
      PartsWithin(rest, accepts);
      Behind(fs, Taken(rest, accepts));
      Behind(fs, Refused(rest, accepts));
      Heads(fs[0], Taken(rest, accepts));
      Heads(fs[0], Refused(rest, accepts));
    }
  }

  /** The keys a batch of failure reports un-reserves. */
  function Freed(fs: seq<Frame>): set<string>
  {
    if fs == [] then {} else (if fs[0].input.id == "" then {} else {fs[0].input.key}) + Freed(fs[1..])
  }

  lemma FreedHead(f: Frame, rest: seq<Frame>)
    ensures Freed([f] + rest) == (if f.input.id == "" then {} else {f.input.key}) + Freed(rest)
  {
    assert ([f] + rest)[1..] == rest;
  }

  predicate Accepted(f: Frame, accepts: Frame -> bool)
  {
    f.input.kind != Unknown && accepts(f)
  }

  /** One turn of the drain loop, on the totals the loop keeps. */
  lemma TakenTurn(queue: seq<Frame>, accepts: Frame -> bool, written: seq<Frame>)
    requires queue != []
    ensures (if Accepted(queue[0], accepts) then written + [queue[0]] else written) + Taken(queue[1..], accepts)
         == written + Taken(queue, accepts)
  {
    if Accepted(queue[0], accepts) {
      assert Taken(queue, accepts) == [queue[0]] + Taken(queue[1..], accepts);
    }
  }

  lemma RefusedTurn(queue: seq<Frame>, accepts: Frame -> bool, settled: seq<Frame>)
    requires queue != []
    ensures (if Accepted(queue[0], accepts) then settled else settled + [queue[0]]) + Refused(queue[1..], accepts)
         == settled + Refused(queue, accepts)
  {
    if !Accepted(queue[0], accepts) {
      assert Refused(queue, accepts) == [queue[0]] + Refused(queue[1..], accepts);
    }
  }

  lemma FreedTurn(queue: seq<Frame>, accepts: Frame -> bool, seen: set<string>)
    requires queue != []
    ensures var f := queue[0];
      (if Accepted(f, accepts) || f.input.id == "" then seen else seen - {f.input.key})
        - Freed(Refused(queue[1..], accepts)) == seen - Freed(Refused(queue, accepts))
  {
    if !Accepted(queue[0], accepts) {
      assert Refused(queue, accepts) == [queue[0]] + Refused(queue[1..], accepts);
      FreedHead(queue[0], Refused(queue[1..], accepts));
    } else {
      assert Refused(queue, accepts) == [] + Refused(queue[1..], accepts) == Refused(queue[1..], accepts);
    }
  }

  class NodeSession {
    var seenMessageIDs: set<string>
    var pendingInputs: seq<Frame>
    var executor: Option<nat>
    var runs: seq<Run>
    var orders: nat
    ghost var arriving: seq<Frame>
    ghost var failing: seq<Frame>
    ghost var settled: seq<Frame>
    ghost var written: seq<Frame>
    ghost var accepted: seq<Frame>
    ghost var drain: Drain
    ghost var owing: nat
    ghost var history: seq<State>
    ghost const alphabet: iset<Input>  // what the gateway may send

    ghost function Snapshot(): State
      reads this
    {
      State(seenMessageIDs, arriving, pendingInputs, failing, settled, written, drain, owing,
            runs, executor, orders, accepted)
    }

    /** The fields are where a run of the protocol, step by step, has led. */
    ghost predicate Valid()
      reads this
    {
      Chain(history, alphabet) && history[|history| - 1] == Snapshot() && Sane(Snapshot())
    }

    /** So every result about reachable states is a result about the object. */
    lemma ValidIsReachable()
      requires Valid()
      ensures Safety.Reachable(Snapshot(), alphabet)
      ensures Safety.NoReuse(alphabet) ==> Safety.AtMostOnce(Snapshot())
    {
      ChainReachable(history, alphabet);
      if Safety.NoReuse(alphabet) {
        Safety.AtMostOnceHolds(Snapshot(), alphabet);
      }
    }

    constructor (ghost sends: iset<Input>)
      ensures Valid() && Snapshot() == START && alphabet == sends
    {
      alphabet := sends;
      seenMessageIDs, pendingInputs, executor, runs, orders := {}, [], None, [], 0;
      arriving, failing, settled, written, accepted := [], [], [], [], [];
      drain, owing, history := Idle, 0, [START];
    }

    /** Appends a step whose effect on the fields has been carried out. */
    ghost method Log(before: State, step: Step)
      requires Chain(history, alphabet) && history[|history| - 1] == before
      requires Sane(before) && Enabled(before, step) && Snapshot() == Apply(before, step)
      requires step.Receive? ==> step.input in alphabet
      modifies this`history
      ensures Valid()
    {
      history := history + [Snapshot()];
    }

    /** deliverInput's dedupe section. admitted is false for a replay, which is only ACKed. */
    method Reserve(input: Input) returns (admitted: bool)
      requires Valid() && MuFree(Snapshot()) && input in alphabet
      modifies this
      ensures Valid() && Snapshot() == Apply(old(Snapshot()), Receive(input))
      ensures admitted <==> !(Tracked(input) && input.key in old(seenMessageIDs))
      ensures admitted ==> arriving == old(arriving) + [Frame(0, input)]
    {
      ghost var before := Snapshot();
      admitted := !(Tracked(input) && input.key in seenMessageIDs);
      if admitted {
        if Tracked(input) {
          seenMessageIDs := seenMessageIDs + {input.key};
        }
        arriving := arriving + [Frame(0, input)];
        accepted := accepted + [Frame(0, input)];
      }
      Log(before, Receive(input));
    }

    /** deliverInput's enqueue section, for the frame that arrived last. */
    method Enqueue(input: Input) returns (queued: bool)
      requires Valid() && MuFree(Snapshot())
      requires arriving != [] && arriving[|arriving| - 1] == Frame(0, input)
      modifies this
      ensures Valid() && Snapshot() == Apply(old(Snapshot()), Admit(|old(arriving)| - 1))
      ensures queued <==> executor.None? || runs[executor.value].interactive
      ensures arriving == old(arriving)[..|old(arriving)| - 1]
    {
      ghost var before, at := Snapshot(), |arriving| - 1;
      queued := executor.None? || runs[executor.value].interactive;
      arriving := arriving[..at];
      if queued {
        pendingInputs := pendingInputs + [Frame(orders + 1, input)];
        orders, owing := orders + 1, owing + 1;
      } else {
        failing := failing + [Frame(0, input)];
      }
      assert Without(before.arriving, at) == arriving;
      Log(before, Admit(at));
    }

    /** reportInputFailure of the oldest frame of a batch that starts at index at. */
    method ReportInputFailure(ghost at: nat, f: Frame)
      requires Valid() && MuFree(Snapshot()) && at < |failing| && failing[at] == f
      modifies this
      ensures Valid() && Snapshot() == Apply(old(Snapshot()), Report(at))
    {
      ghost var before := Snapshot();
      if f.input.id != "" {
        seenMessageIDs := seenMessageIDs - {f.input.key};
      }
      failing, settled := Without(failing, at), settled + [f];
      Log(before, Report(at));
    }

    /** Reports a whole batch that was just moved behind the first `base` failing frames. */
    method ReportAll(batch: seq<Frame>, ghost base: nat)
      requires Valid() && MuFree(Snapshot()) && base <= |failing| && failing[base..] == batch
      modifies this
      ensures Valid()
      ensures Snapshot() == old(Snapshot()).(failing := old(failing)[..base], settled := old(settled) + batch,
                                             seen := old(seenMessageIDs) - Freed(batch))
    {
      var rest := batch;
      while rest != []
        invariant Valid() && base <= |failing| && failing[base..] == rest && failing[..base] == old(failing)[..base]
        invariant Snapshot() == old(Snapshot()).(failing := failing, settled := settled, seen := seenMessageIDs)
        invariant settled + rest == old(settled) + batch
        invariant seenMessageIDs - Freed(rest) == old(seenMessageIDs) - Freed(batch)
        decreases |rest|
      {
        assert failing[base] == rest[0];
        ReportInputFailure(base, rest[0]);
        rest := rest[1..];
      }
      assert failing == failing[..base];
    }

    /** failPendingInputs, as delete runs it. */
    method FailPendingInputs()
      requires Valid() && MuFree(Snapshot())
      modifies this
      ensures Valid()
      ensures Snapshot() == old(Snapshot()).(pending := [], settled := old(settled) + old(pendingInputs),
                                             seen := old(seenMessageIDs) - Freed(old(pendingInputs)))
    {
      ghost var before := Snapshot();
      var batch := pendingInputs;
      ghost var base := |failing|;
      failing := failing + pendingInputs;
      pendingInputs := [];
      Log(before, Discard);
      ReportAll(batch, base);
      assert before.failing == (before.failing + batch)[..base];
    }

    ghost predicate OpenStream()
      reads this
    {
      && executor.Some? && executor.value < |runs| && runs[executor.value].interactive
      && runs[executor.value].attached && !runs[executor.value].closed
    }

    ghost predicate ClosedStream()
      reads this
    {
      executor.Some? && executor.value < |runs| && runs[executor.value].interactive && runs[executor.value].closed
    }

    /** Nothing to write to yet: no executor, or a stream still without its stdin. */
    ghost predicate NoStreamYet()
      reads this
    {
      || executor.None?
      || (executor.value < |runs| && runs[executor.value].interactive && !runs[executor.value].attached &&
          !runs[executor.value].closed)
    }

    /** An executor that takes no input. */
    ghost predicate OneShot()
      reads this
    {
      executor.Some? && executor.value < |runs| && !runs[executor.value].interactive
    }

    /** The head leaves the queue for the stream: loop head, both stream reads, pop. */
    method PopHead() returns (f: Frame)
      requires Valid() && drain == Top && pendingInputs != [] && OpenStream()
      modifies this
      ensures Valid() && f == old(pendingInputs)[0]
      ensures Snapshot() == old(Snapshot()).(pending := old(pendingInputs)[1..],
                                             drain := Writing(old(executor).value, f))
    {
      ghost var before := Snapshot();
      drain := Probed(executor.value);
      Log(before, Probe);
      before := Snapshot();
      f := pendingInputs[0];
      pendingInputs, drain := pendingInputs[1..], Writing(executor.value, f);
      Log(before, Take);
    }

    /** The frame in flight could not be written. */
    method FailWrite(f: Frame, ok: bool)
      requires Valid() && OpenStream() && drain == Writing(executor.value, f) && (f.input.kind == Unknown || !ok)
      modifies this
      ensures Valid() && Snapshot() == old(Snapshot()).(drain := Top, failing := old(failing) + [f])
    {
      ghost var before := Snapshot();
      drain, failing := Top, failing + [f];
      Log(before, Deliver(ok));
    }

    /** deliver returns for the frame in flight; an error is reported at once. */
    method FinishWrite(f: Frame, ok: bool)
      requires Valid() && OpenStream() && drain == Writing(executor.value, f)
      modifies this
      ensures Valid()
      ensures f.input.kind != Unknown && ok ==>
        Snapshot() == old(Snapshot()).(drain := Top, written := old(written) + [f])
      ensures !(f.input.kind != Unknown && ok) ==>
        Snapshot() == old(Snapshot()).(drain := Top, settled := old(settled) + [f],
          seen := if f.input.id == "" then old(seenMessageIDs) else old(seenMessageIDs) - {f.input.key})
    {
      if f.input.kind != Unknown && ok {
        ghost var before := Snapshot();
        drain, written := Top, written + [f];
        Log(before, Deliver(ok));
      } else {
        FailWrite(f, ok);
        ghost var at := |failing| - 1;
        assert Without(failing, at) == old(failing);
        ReportInputFailure(at, f);
      }
    }

    /** The drain loop on an open stream: the whole queue, in order. */
    method DrainOpen(accepts: Frame -> bool)
      requires Valid() && drain == Top && OpenStream()
      modifies this
      ensures Valid()
      ensures Snapshot() == old(Snapshot()).(drain := Idle, pending := [],
        written := old(written) + Taken(old(pendingInputs), accepts),
        settled := old(settled) + Refused(old(pendingInputs), accepts),
        seen := old(seenMessageIDs) - Freed(Refused(old(pendingInputs), accepts)))
    {
      while pendingInputs != []
        invariant Valid() && drain == Top
        invariant Snapshot() == old(Snapshot()).(
          pending := pendingInputs, written := written, settled := settled, seen := seenMessageIDs)
        invariant written + Taken(pendingInputs, accepts) == old(written) + Taken(old(pendingInputs), accepts)
        invariant settled + Refused(pendingInputs, accepts) == old(settled) + Refused(old(pendingInputs), accepts)
        invariant seenMessageIDs - Freed(Refused(pendingInputs, accepts))
               == old(seenMessageIDs) - Freed(Refused(old(pendingInputs), accepts))
        decreases |pendingInputs|
      {
        TakenTurn(pendingInputs, accepts, written);
        RefusedTurn(pendingInputs, accepts, settled);
        FreedTurn(pendingInputs, accepts, seenMessageIDs);
        var f := PopHead();
        FinishWrite(f, accepts(f));
      }
      ghost var before := Snapshot();
      drain := Idle;
      Log(before, Probe);
    }

    /** drainPending by a deliverInput goroutine, undisturbed. accepts says which writes the
        pipe takes. An open stream gets the whole queue in order, a closed one fails it,
        anything else leaves it alone. */
    method DrainPending(accepts: Frame -> bool)
      requires Valid() && drain == Idle && owing > 0
      modifies this
      ensures Valid()
      ensures old(OpenStream()) ==>
        Snapshot() == old(Snapshot()).(owing := old(owing) - 1, pending := [],
          written := old(written) + Taken(old(pendingInputs), accepts),
          settled := old(settled) + Refused(old(pendingInputs), accepts),
          seen := old(seenMessageIDs) - Freed(Refused(old(pendingInputs), accepts)))
      ensures old(ClosedStream()) ==>
        Snapshot() == old(Snapshot()).(owing := old(owing) - 1, pending := [],
          settled := old(settled) + old(pendingInputs), seen := old(seenMessageIDs) - Freed(old(pendingInputs)))
      ensures !old(OpenStream()) && !old(ClosedStream()) ==>
        Snapshot() == old(Snapshot()).(owing := old(owing) - 1)
    {
      ghost var before := Snapshot();
      drain, owing := Top, owing - 1;
      Log(before, BeginDrain);
      if executor.Some? && runs[executor.value].interactive && runs[executor.value].closed {
        if pendingInputs == [] {
          before := Snapshot();
          drain := Idle;
          Log(before, Probe);
        } else {
          FailClosed();
        }
        return;
      }
      if executor.Some? && runs[executor.value].interactive && runs[executor.value].attached {
        DrainOpen(accepts);
      } else {
        LeaveQueue();
      }
    }

    /** The closed-stream branch: the whole queue is reported failed. */
    method FailClosed()
      requires Valid() && drain == Top && ClosedStream() && pendingInputs != []
      modifies this
      ensures Valid()
      ensures Snapshot() == old(Snapshot()).(drain := Idle, pending := [],
        settled := old(settled) + old(pendingInputs), seen := old(seenMessageIDs) - Freed(old(pendingInputs)))
    {
      ghost var before, base := Snapshot(), |failing|;
      var batch := pendingInputs;
      failing := failing + pendingInputs;
      pendingInputs, drain := [], Idle;
      Log(before, Probe);
      ReportAll(batch, base);
      assert before.failing == (before.failing + batch)[..base];
    }

    /** The branches that stop without touching the queue: no executor, not a stream, or a
        stream whose stdin is not attached. */
    method LeaveQueue()
      requires Valid() && drain == Top && !OpenStream() && !ClosedStream()
      modifies this
      ensures Valid() && Snapshot() == old(Snapshot()).(drain := Idle)
    {
      ghost var before := Snapshot();
      if executor.None? || !runs[executor.value].interactive || pendingInputs == [] {
        drain := Idle;
        Log(before, Probe);
      } else {
        drain := Probed(executor.value);
        Log(before, Probe);
        before := Snapshot();
        drain := Idle;
        Log(before, Take);
      }
    }

    /** deliverInput behind the reservation, for the frame that arrived last. */
    method Dispatch(input: Input, accepts: Frame -> bool)
      requires Valid() && drain == Idle && arriving != [] && arriving[|arriving| - 1] == Frame(0, input)
      modifies this
      ensures Valid() && drain == Idle && owing == old(owing) && arriving == old(arriving)[..|old(arriving)| - 1] &&
              failing == old(failing)
      ensures old(OpenStream()) ==>
        var queue := old(pendingInputs) + [Frame(old(orders) + 1, input)];
        pendingInputs == [] && written == old(written) + Taken(queue, accepts)
        && settled == old(settled) + Refused(queue, accepts)
      ensures old(ClosedStream()) ==>
        pendingInputs == [] && written == old(written)
        && settled == old(settled) + old(pendingInputs) + [Frame(old(orders) + 1, input)]
      ensures old(NoStreamYet()) ==>
        pendingInputs == old(pendingInputs) + [Frame(old(orders) + 1, input)] && written == old(written)
        && settled == old(settled)
      ensures old(OneShot()) ==>
        pendingInputs == old(pendingInputs) && written == old(written) && settled == old(settled) + [Frame(0, input)]
    {
      var queued := Enqueue(input);
      if queued {
        DrainPending(accepts);
      } else {
        ReportInputFailure(|failing| - 1, Frame(0, input));
        assert Without(old(failing) + [Frame(0, input)], |old(failing)|) == old(failing);
      }
    }

    /** deliverInput by one goroutine, undisturbed. */
    method DeliverInput(input: Input, accepts: Frame -> bool)
      requires Valid() && drain == Idle && input in alphabet
      modifies this
      ensures Valid() && drain == Idle && owing == old(owing) && arriving == old(arriving) && failing == old(failing)
      ensures Tracked(input) && input.key in old(seenMessageIDs) ==> Snapshot() == old(Snapshot())
      ensures old(OpenStream()) && !(Tracked(input) && input.key in old(seenMessageIDs)) ==>
        var queue := old(pendingInputs) + [Frame(old(orders) + 1, input)];
        pendingInputs == [] && written == old(written) + Taken(queue, accepts)
        && settled == old(settled) + Refused(queue, accepts)
      ensures old(ClosedStream()) && !(Tracked(input) && input.key in old(seenMessageIDs)) ==>
        pendingInputs == [] && written == old(written)
        && settled == old(settled) + old(pendingInputs) + [Frame(old(orders) + 1, input)]
      ensures old(NoStreamYet()) && !(Tracked(input) && input.key in old(seenMessageIDs)) ==>
        pendingInputs == old(pendingInputs) + [Frame(old(orders) + 1, input)] && written == old(written)
        && settled == old(settled)
      ensures old(OneShot()) && !(Tracked(input) && input.key in old(seenMessageIDs)) ==>
        pendingInputs == old(pendingInputs) && written == old(written) && settled == old(settled) + [Frame(0, input)]
    {
      var admitted := Reserve(input);
      if admitted {
        Dispatch(input, accepts);
      }
    }
  }
}
