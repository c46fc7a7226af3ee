/** The upstream gate (common/agent/client.go): serve opens a stream, sends headers and the
    register frame on it without the lock, opens the gate after the registration ack, and
    closes it again before it gives the stream up. Emitters go through EmitUpstream, which
    holds c.mu across its check and its Send. Serve cycles follow one another; emitters are
    arbitrary. */
module UpstreamGate {
  import opened Text

  /** What happens on one stream, in order. A send is recorded when it begins. */
  datatype Event = Headers | Register | Ack | Frame(id: nat)

  /** The serve goroutine, with the stream it works on. HeadersOut and RegisterOut: its own
      Send is running. Closing: the gate is shut, the stream is still current. */
  datatype Serve =
    | Offline
    | Opened(stream: nat)
    | HeadersOut(stream: nat)
    | AwaitHello(stream: nat)
    | RegisterOut(stream: nat)
    | AwaitAck(stream: nat)
    | Acked(stream: nat)
    | Serving(stream: nat)
    | Closing(stream: nat)

  datatype State = State(
    currentStream: Option<nat>,
    registered: bool,
    emitting: Option<nat>,       // the stream of the EmitUpstream Send in progress; c.mu is held
    serve: Serve,
    streams: seq<seq<Event>>,    // one log per stream ever opened
    refused: nat)                // EmitUpstream calls answered with ErrStreamGone

  const BOOT := State(None, false, None, Offline, [], 0)

  datatype Step =
    | Open
    | BeginHeaders | EndHeaders(ok: bool)
    | BeginRegister | HelloFails
    | EndRegister(ok: bool)
    | AckArrives(ok: bool)
    | OpenGate               // setRegistered(true)
    | ShutGate               // the deferred setRegistered(false)
    | GiveUpStream           // the deferred setCurrentStream(nil)
    | EmitBegin(id: nat)
    | EmitEnd

  predicate Enabled(s: State, step: Step)
  {
    match step
    case Open => s.serve.Offline? && s.emitting.None?
    case BeginHeaders => s.serve.Opened?
    case EndHeaders(_) => s.serve.HeadersOut?
    case BeginRegister => s.serve.AwaitHello?
    case HelloFails => s.serve.AwaitHello?
    case EndRegister(_) => s.serve.RegisterOut?
    case AckArrives(_) => s.serve.AwaitAck?
    case OpenGate => s.serve.Acked? && s.emitting.None?
    case ShutGate => s.serve.Serving? && s.emitting.None?
    case GiveUpStream => s.serve.Closing? && s.emitting.None?
    case EmitBegin(_) => s.emitting.None?
    case EmitEnd => s.emitting.Some?
  }

  function Logged(s: State, stream: nat, e: Event): State
  {
    if stream < |s.streams| then s.(streams := s.streams[stream := s.streams[stream] + [e]]) else s
  }

  function Apply(s: State, step: Step): State
    requires Enabled(s, step)
  {
    match step
    case Open =>
      s.(currentStream := Some(|s.streams|), streams := s.streams + [[]], serve := Opened(|s.streams|))
    case BeginHeaders => Logged(s, s.serve.stream, Headers).(serve := HeadersOut(s.serve.stream))
    case EndHeaders(ok) => s.(serve := if ok then AwaitHello(s.serve.stream) else Closing(s.serve.stream))
    case BeginRegister => Logged(s, s.serve.stream, Register).(serve := RegisterOut(s.serve.stream))
    case HelloFails => s.(serve := Closing(s.serve.stream))
    case EndRegister(ok) => s.(serve := if ok then AwaitAck(s.serve.stream) else Closing(s.serve.stream))
    case AckArrives(ok) =>
      if ok then Logged(s, s.serve.stream, Ack).(serve := Acked(s.serve.stream))
      else s.(serve := Closing(s.serve.stream))
    case OpenGate => s.(registered := true, serve := Serving(s.serve.stream))
    case ShutGate => s.(registered := false, serve := Closing(s.serve.stream))
    case GiveUpStream => s.(currentStream := None, serve := Offline)
    case EmitBegin(id) =>
      if s.currentStream.None? || !s.registered then s.(refused := s.refused + 1)
      else Logged(s, s.currentStream.value, Frame(id)).(emitting := s.currentStream)
    case EmitEnd => s.(emitting := None)
  }

  predicate ValidRun(s: State, steps: seq<Step>)
    decreases |steps|
  {
    steps == [] || (Enabled(s, steps[0]) && ValidRun(Apply(s, steps[0]), steps[1..]))
  }

  function Exec(s: State, steps: seq<Step>): State
    requires ValidRun(s, steps)
    decreases |steps|
  {
    if steps == [] then s else Exec(Apply(s, steps[0]), steps[1..])
  }

  // ---------------------------------------------------------------- what every run keeps

  /** Headers, then register, then the ack, then any number of emitted frames: a prefix of
      that, so nothing precedes register and no emitted frame precedes the ack. */
  predicate Orderly(log: seq<Event>)
  {
    forall i :: 0 <= i < |log| ==>
      if i == 0 then log[i] == Headers
      else if i == 1 then log[i] == Register
      else if i == 2 then log[i] == Ack
      else log[i].Frame?
  }

  function ServeStream(v: Serve): Option<nat>
  {
    if v.Offline? then None else Some(v.stream)
  }

  /** Sends in progress on a stream: the serve goroutine's own and EmitUpstream's. */
  function SendsRunning(s: State, stream: nat): nat
  {
    (if (s.serve.HeadersOut? || s.serve.RegisterOut?) && s.serve.stream == stream then 1 else 0)
    + (if s.emitting == Some(stream) then 1 else 0)
  }

  /** How far the current stream's log has got in each serve phase. */
  predicate Progress(v: Serve, log: seq<Event>)
  {
    match v
    case Opened(_) => |log| == 0
    case HeadersOut(_) => |log| == 1
    case AwaitHello(_) => |log| == 1
    case RegisterOut(_) => |log| == 2
    case AwaitAck(_) => |log| == 2
    case Acked(_) => |log| == 3
    case Serving(_) => |log| >= 3
    case _ => true
  }

  ghost predicate Inv(s: State)
  {
    && s.currentStream == ServeStream(s.serve)
    && (s.registered <==> s.serve.Serving?)
    && (!s.serve.Offline? ==> s.serve.stream == |s.streams| - 1 && Progress(s.serve, s.streams[s.serve.stream]))
    && (s.emitting.Some? ==> s.serve.Serving? && s.emitting == s.currentStream)
    && (forall k :: 0 <= k < |s.streams| ==> Orderly(s.streams[k]))
  }

  lemma InvStep(s: State, step: Step)
    requires Enabled(s, step) && Inv(s)
    ensures Inv(Apply(s, step))
  {
  }

  lemma {:induction false} InvRun(s: State, steps: seq<Step>)
    requires ValidRun(s, steps) && Inv(s)
    ensures Inv(Exec(s, steps))
    decreases |steps|
  {
    if steps != [] {
      InvStep(s, steps[0]);
      InvRun(Apply(s, steps[0]), steps[1..]);
    }
  }

  ghost predicate Reachable(s: State)
  {
    exists steps :: ValidRun(BOOT, steps) && Exec(BOOT, steps) == s
  }

  /** Across any number of serve cycles and emitters: on every stream ever opened the first
      payload frame is register and every EmitUpstream frame comes after the ack, and no two
      Sends on a stream overlap. */
  lemma GateHolds(s: State, stream: nat)
    requires Reachable(s) && stream < |s.streams|
    ensures Orderly(s.streams[stream])
    ensures SendsRunning(s, stream) <= 1
    ensures forall i :: 0 <= i < |s.streams[stream]| && s.streams[stream][i].Frame? ==> Ack in s.streams[stream][..i]
  {
    var steps :| ValidRun(BOOT, steps) && Exec(BOOT, steps) == s;
    InvRun(BOOT, steps);
    var log := s.streams[stream];
    forall i | 0 <= i < |log| && log[i].Frame? ensures Ack in log[..i] {
      assert log[..i][2] == Ack;
    }
  }

  // ---------------------------------------------------------------- nothing lost, doubled or reordered

  function FrameIds(log: seq<Event>): seq<nat>
  {
    if log == [] then []
    else
      var init, last := FrameIds(log[..|log| - 1]), log[|log| - 1];
      if last.Frame? then init + [last.id] else init
  }

  /** Everything EmitUpstream put on the wire, stream after stream. */
  function OnTheWire(streams: seq<seq<Event>>): seq<nat>
  {
    if streams == [] then [] else OnTheWire(streams[..|streams| - 1]) + FrameIds(streams[|streams| - 1])
  }

  predicate GateOpen(s: State)
  {
    s.currentStream.Some? && s.registered
  }

  /** The frames of the calls made while the gate was open, in call order. */
  function Admitted(s: State, steps: seq<Step>): seq<nat>
    requires ValidRun(s, steps)
    decreases |steps|
  {
    if steps == [] then []
    else
      (if steps[0].EmitBegin? && GateOpen(s) then [steps[0].id] else []) + Admitted(Apply(s, steps[0]), steps[1..])
  }

  /** How many calls there were. */
  function Calls(steps: seq<Step>): nat
  {
    if steps == [] then 0 else (if steps[0].EmitBegin? then 1 else 0) + Calls(steps[1..])
  }

  lemma WireLogged(streams: seq<seq<Event>>, e: Event)
    requires streams != []
    ensures var n := |streams| - 1;
      OnTheWire(streams[n := streams[n] + [e]]) == OnTheWire(streams) + if e.Frame? then [e.id] else []
  {
    var n := |streams| - 1;
    var log := streams[n] + [e];
    assert streams[n := log][..n] == streams[..n];
    assert log[..|log| - 1] == streams[n];
  }

  lemma WireOpened(streams: seq<seq<Event>>)
    ensures OnTheWire(streams + [[]]) == OnTheWire(streams)
  {
    assert (streams + [[]])[..|streams|] == streams;
  }

  lemma WireStep(s: State, step: Step)
    requires Enabled(s, step) && Inv(s)
    ensures OnTheWire(Apply(s, step).streams)
         == OnTheWire(s.streams) + if step.EmitBegin? && GateOpen(s) then [step.id] else []
  {
    match step
    case Open => WireOpened(s.streams);
    case BeginHeaders => WireLogged(s.streams, Headers);
    case BeginRegister => WireLogged(s.streams, Register);
    case AckArrives(ok) => WireLogged(s.streams, Ack);
    case EmitBegin(id) =>
      if GateOpen(s) {
        WireLogged(s.streams, Frame(id));
      }
    case _ =>
  }

  lemma {:induction false} WireRun(s: State, steps: seq<Step>)
    requires ValidRun(s, steps) && Inv(s)
    ensures OnTheWire(Exec(s, steps).streams) == OnTheWire(s.streams) + Admitted(s, steps)
    decreases |steps|
  {
    if steps != [] {
      WireStep(s, steps[0]);
      InvStep(s, steps[0]);
      WireRun(Apply(s, steps[0]), steps[1..]);
    }
  }

  lemma RefusedStep(s: State, step: Step)
    requires Enabled(s, step)
    ensures Apply(s, step).refused == s.refused + if step.EmitBegin? && !GateOpen(s) then 1 else 0
  {
  }

  lemma {:induction false} RefusedRun(s: State, steps: seq<Step>)
    requires ValidRun(s, steps)
    ensures Exec(s, steps).refused + |Admitted(s, steps)| == s.refused + Calls(steps)
    decreases |steps|
  {
    if steps != [] {
      RefusedStep(s, steps[0]);
      RefusedRun(Apply(s, steps[0]), steps[1..]);
    }
  }

  /** Over any reconnects, what went out is exactly what was called while the gate was open,
      once each and in call order; every other call was refused. */
  lemma GateConserves(steps: seq<Step>)
    requires ValidRun(BOOT, steps)
    ensures var s := Exec(BOOT, steps);
      OnTheWire(s.streams) == Admitted(BOOT, steps) && s.refused + |OnTheWire(s.streams)| == Calls(steps)
  {
    WireRun(BOOT, steps);
    RefusedRun(BOOT, steps);
  }

  // ---------------------------------------------------------------- the client object

  class Client {
    var currentStream: Option<nat>
    var registered: bool
    var streams: seq<seq<Event>>  // what went over each stream

    /** Between serve cycles: no stream, gate shut. */
    ghost predicate Disconnected()
      reads this
    {
      currentStream.None? && !registered
    }

    constructor ()
      ensures Disconnected() && streams == []
    {
      currentStream, registered, streams := None, false, [];
    }

    /** EmitUpstream. sendOk is what Send returns when it is reached. */
    method EmitUpstream(id: nat, sendOk: bool) returns (ok: bool)
      requires currentStream.Some? ==> currentStream.value < |streams|
      modifies this`streams
      ensures currentStream.None? || !registered ==> !ok && streams == old(streams)
      ensures currentStream.Some? && registered ==>
        && ok == sendOk
        && streams == old(streams)[currentStream.value := old(streams)[currentStream.value] + [Frame(id)]]
    {
      if currentStream.None? || !registered {
        return false;
      }
      streams := streams[currentStream.value := streams[currentStream.value] + [Frame(id)]];
      ok := sendOk;
    }

    /** One serve cycle: which of its waits and sends succeed, and the frames emitted while
        the gate is open. The new stream's log is the longest orderly one the outcomes
        allow, and the client ends disconnected on every path. */
    method ServeOnce(headersOk: bool, helloOk: bool, registerOk: bool, ackOk: bool, frames: seq<nat>)
      requires Disconnected()
      modifies this
      ensures Disconnected()
      ensures |streams| == |old(streams)| + 1 && streams[..|old(streams)|] == old(streams)
      ensures var log := streams[|old(streams)|];
        && Orderly(log)
        && |log| == (if !headersOk || !helloOk then 1 else if !registerOk || !ackOk then 2 else 3 + |frames|)
        && (forall i :: 3 <= i < |log| ==> log[i] == Frame(frames[i - 3]))
    {
      var n := |streams|;
      currentStream, streams := Some(n), streams + [[]];
      streams := streams[n := [Headers]];
      if headersOk && helloOk {
        streams := streams[n := [Headers, Register]];
        if registerOk && ackOk {
          streams := streams[n := [Headers, Register, Ack]];
          registered := true;
          var i := 0;
          while i < |frames|
            invariant 0 <= i <= |frames| && currentStream == Some(n) && registered
            invariant |streams| == n + 1 && streams[..n] == old(streams)
            invariant |streams[n]| == 3 + i && Orderly(streams[n])
            invariant forall k :: 3 <= k < 3 + i ==> streams[n][k] == Frame(frames[k - 3])
          {
            var ok := EmitUpstream(frames[i], true);
            i := i + 1;
          }
          registered := false;
        }
      }
      currentStream := None;
    }
  }
}
