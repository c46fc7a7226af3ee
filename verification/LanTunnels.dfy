/** The LAN tunnel reconcile machine (common/ioshost/lan.go). A pass decides under the lock
    from one presence probe and two reads of the claimed devices, then carries its actions out;
    passes do not overlap. Pause flags are read once or twice per device, each on its own. */
module LanTunnels {
  import opened Text

  const PROBE_EVERY := 30 * SECOND

  // ---------------------------------------------------------------- backoff

  /** lanBackoff in seconds. */
  function LanBackoff(failures: nat): nat
  {
    var shift := if failures == 0 then 0 else if failures - 1 > 4 then 4 else failures - 1;
    var seconds := 30 * (if shift == 0 then 1 else if shift == 1 then 2 else if shift == 2 then 4
                         else if shift == 3 then 8 else 16);
    if seconds > 300 then 300 else seconds
  }

  lemma BackoffMonotone(a: nat, b: nat)
    requires a <= b
    ensures 30 <= LanBackoff(a) <= LanBackoff(b) <= 300
    ensures b >= 5 ==> LanBackoff(b) == 300
    ensures [LanBackoff(1), LanBackoff(2), LanBackoff(3), LanBackoff(4)] == [30, 60, 120, 240]
  {
  }

  /** Times of consecutive failed opens, each at least its predecessor's backoff later. */
  predicate Spaced(times: seq<int>)
  {
    forall i, j :: 0 <= i && j == i + 1 < |times| ==> times[j] - times[i] >= LanBackoff(j) * SECOND
  }

  lemma {:induction false} SpanOf(times: seq<int>)
    requires Spaced(times) && |times| >= 5
    ensures times[|times| - 1] - times[0] >= (450 + 300 * (|times| - 5)) * SECOND
    decreases |times|
  {
    var n := |times| - 1;
    if n == 4 {
      assert times[1] - times[0] >= 30 * SECOND && times[2] - times[1] >= 60 * SECOND;
      assert times[3] - times[2] >= 120 * SECOND && times[4] - times[3] >= 240 * SECOND;
    } else {
      SpanOf(times[..n]);
      assert times[n] - times[n - 1] >= LanBackoff(n) * SECOND;
    }
  }

  // ---------------------------------------------------------------- one device

  /** tun stands for a non-nil handle; 0 is the zero time. */
  datatype LanState = LanState(tun: bool, lastProbe: int, nextTry: int, failures: nat, opening: bool)

  const NEW := LanState(false, 0, 0, 0, false)

  datatype Action = Drop(udid: string) | Probe(udid: string) | Open(udid: string)

  /** The answer to an alive check or an open, and when it came. */
  datatype Outcome = Outcome(ok: bool, at: int)

  /** Answers come after the pass started and before it ends. */
  ghost predicate Timely(outs: string -> Outcome, now: int, end: int)
  {
    forall u :: now <= outs(u).at <= end
  }

  type States = map<string, LanState>

  /** The times of each device's failures in a row. */
  type Fails = map<string, seq<int>>

  function Tunnels(states: States): set<string>
  {
    set u | u in states && states[u].tun
  }

  function Drops(actions: seq<Action>): set<string>
  {
    set i | 0 <= i < |actions| && actions[i].Drop? :: actions[i].udid
  }

  function Probes(actions: seq<Action>): set<string>
  {
    set i | 0 <= i < |actions| && actions[i].Probe? :: actions[i].udid
  }

  function Opens(actions: seq<Action>): set<string>
  {
    set i | 0 <= i < |actions| && actions[i].Open? :: actions[i].udid
  }

  /** A device has one action, or the drop of its old tunnel and then one open. */
  ghost predicate Orderly(actions: seq<Action>)
  {
    forall i, k :: 0 <= i < k < |actions| && actions[i].udid == actions[k].udid ==> actions[i].Drop? && actions[k].Open?
  }

  lemma Append(actions: seq<Action>, act: Action)
    ensures Drops(actions + [act]) == Drops(actions) + (if act.Drop? then {act.udid} else {})
    ensures Probes(actions + [act]) == Probes(actions) + (if act.Probe? then {act.udid} else {})
    ensures Opens(actions + [act]) == Opens(actions) + (if act.Open? then {act.udid} else {})
  {
    var all := actions + [act];
    assert forall i :: 0 <= i < |actions| ==> all[i] == actions[i];
    assert all[|actions|] == act;
  }

  lemma Behead(actions: seq<Action>)
    requires actions != [] && Orderly(actions)
    ensures var act, rest := actions[0], actions[1..];
      && Orderly(rest)
      && Drops(actions) == Drops(rest) + (if act.Drop? then {act.udid} else {})
      && Probes(actions) == Probes(rest) + (if act.Probe? then {act.udid} else {})
      && Opens(actions) == Opens(rest) + (if act.Open? then {act.udid} else {})
      && act.udid !in Drops(rest) && act.udid !in Probes(rest) && (!act.Drop? ==> act.udid !in Opens(rest))
  {
    var rest := actions[1..];
    assert forall i :: 0 <= i < |rest| ==> rest[i] == actions[i + 1];
    assert forall i :: 0 < i < |actions| ==> actions[i] == rest[i - 1];
  }

  /** The list with the drop of a device that has no action yet. */
  function Dropping(actions: seq<Action>, udid: string): (r: seq<Action>)
    requires Orderly(actions) && udid !in Drops(actions) && Probes(actions) == {} && Opens(actions) == {}
    ensures Orderly(r) && Drops(r) == Drops(actions) + {udid} && Probes(r) == {} && Opens(r) == {}
  {
    Append(actions, Drop(udid));
    assert forall i :: 0 <= i < |actions| && !actions[i].Drop? ==> actions[i].udid in Probes(actions) + Opens(actions);
    actions + [Drop(udid)]
  }

  /** The lock-held decision for one claimed device. */
  function Decide(st: LanState, udid: string, usb: bool, paused1: bool, paused2: bool, now: int)
    : (LanState, Option<Action>)
  {
    if st.tun then
      if usb && !paused1 then (st.(tun := false), Some(Drop(udid)))
      else if paused2 then (st, None)
      else if now - st.lastProbe >= PROBE_EVERY then (st.(lastProbe := now), Some(Probe(udid)))
      else (st, None)
    else if usb || st.opening || now < st.nextTry then (st, None)
    else (st.(opening := true), Some(Open(udid)))
  }

  function Opened(st: LanState, out: Outcome, stopped: bool): LanState
  {
    if out.ok && !stopped then st.(opening := false, tun := true, lastProbe := out.at, failures := 0, nextTry := 0)
    else st.(opening := false, failures := st.failures + 1, nextTry := out.at + LanBackoff(st.failures + 1) * SECOND)
  }

  function Probed(st: LanState, out: Outcome): LanState
  {
    if out.ok then st else st.(tun := false, nextTry := out.at)
  }

  // ---------------------------------------------------------------- a device's record

  /** What is known of a device between passes: no open in flight, no failures behind a live
      tunnel, and the next attempt due one backoff after the last failure. */
  predicate Settled(st: LanState, fails: seq<int>, clock: int)
  {
    && !st.opening && |fails| == st.failures && Spaced(fails)
    && (st.tun ==> st.failures == 0)
    && (st.failures > 0 ==>
          fails[|fails| - 1] <= clock && st.nextTry == fails[|fails| - 1] + LanBackoff(st.failures) * SECOND)
  }

  /** The failures behind the state after an open. */
  function FailsAfter(fails: seq<int>, out: Outcome, stopped: bool): seq<int>
  {
    if out.ok && !stopped then [] else fails + [out.at]
  }

  lemma OpenSettles(st: LanState, fails: seq<int>, clock: int, now: int, out: Outcome, stopped: bool, clock': int)
    requires Settled(st, fails, clock) && !st.tun && st.nextTry <= now <= out.at <= clock'
    ensures Settled(Opened(st.(opening := true), out, stopped), FailsAfter(fails, out, stopped), clock')
  {
    var f := FailsAfter(fails, out, stopped);
    forall i, j | 0 <= i && j == i + 1 < |f|
      ensures f[j] - f[i] >= LanBackoff(j) * SECOND
    {
      if j < |fails| {
        assert fails[j] - fails[i] >= LanBackoff(j) * SECOND;
      }
    }
  }

  // ---------------------------------------------------------------- one pass, device by device

  /** A pass over one claimed device: the decision, then the answer to its action. */
  function Pass(st: LanState, udid: string, usb: bool, paused1: bool, paused2: bool, now: int, out: Outcome,
                stopped: bool): LanState
  {
    var (st', act) := Decide(st, udid, usb, paused1, paused2, now);
    Answered(st', act, out, stopped)
  }

  function Answered(st: LanState, act: Option<Action>, out: Outcome, stopped: bool): LanState
  {
    match act
    case Some(Open(_)) => Opened(st, out, stopped)
    case Some(Probe(_)) => Probed(st, out)
    case _ => st
  }

  /** Which action a device gets: a tunnel is dropped for a cable and probed when its last
      answer is 30 seconds old, unless a pause forbids it; a missing one is opened as soon as
      the next attempt is due, paused or not. */
  lemma DecideMeans(st: LanState, udid: string, usb: bool, paused1: bool, paused2: bool, now: int)
    ensures var act := Decide(st, udid, usb, paused1, paused2, now).1;
      && (act == Some(Drop(udid)) <==> st.tun && usb && !paused1)
      && (act == Some(Probe(udid)) <==> st.tun && !(usb && !paused1) && !paused2 && now >= st.lastProbe + 30 * SECOND)
      && (act == Some(Open(udid)) <==> !st.tun && !usb && !st.opening && st.nextTry <= now)
      && (act.Some? ==> act.value in {Drop(udid), Probe(udid), Open(udid)})
  {
  }

  /** Whether a device has a tunnel after a pass. */
  predicate Tunnelled(st: LanState, usb: bool, paused1: bool, paused2: bool, now: int, out: Outcome, stopped: bool)
  {
    if st.tun then !(usb && !paused1) && (paused2 || now < st.lastProbe + 30 * SECOND || out.ok)
    else !usb && st.nextTry <= now && out.ok && !stopped
  }

  /** And its record: when it is looked at or tried again. */
  predicate Tended(st: LanState, st': LanState, usb: bool, paused1: bool, paused2: bool, now: int, out: Outcome,
                   stopped: bool)
  {
    && (st'.tun <==> Tunnelled(st, usb, paused1, paused2, now, out, stopped)) && !st'.opening
    && (!st.tun && st'.tun ==> st'.lastProbe == out.at && st'.failures == 0)
    && (!st.tun && (usb || now < st.nextTry) ==> st' == st)
    && (!st.tun && !st'.tun && !usb && st.nextTry <= now ==>
          st'.failures == st.failures + 1 && st'.nextTry == out.at + LanBackoff(st.failures + 1) * SECOND)
    && (st.tun && st'.tun ==>
          st' == if paused2 || now < st.lastProbe + 30 * SECOND then st else st.(lastProbe := now))
    && (st.tun && !st'.tun ==>
          st'.failures == st.failures && st'.nextTry == if usb && !paused1 then st.nextTry else out.at)
  }

  lemma PassTended(st: LanState, udid: string, usb: bool, paused1: bool, paused2: bool, now: int, out: Outcome,
                   stopped: bool)
    requires !st.opening
    ensures var st' := Pass(st, udid, usb, paused1, paused2, now, out, stopped);
      Tended(st, st', usb, paused1, paused2, now, out, stopped)
  {
  }

  /** A pause keeps the tunnel; without one, a cable takes it. */
  lemma PauseKeepsCableTakes(st: LanState, udid: string, usb: bool, paused1: bool, paused2: bool, now: int,
                             out: Outcome, stopped: bool)
    requires !st.opening
    ensures var st' := Pass(st, udid, usb, paused1, paused2, now, out, stopped);
      && (paused1 && paused2 && st.tun ==> st' == st)
      && (!paused1 && usb ==> !st'.tun)
      && (st'.tun && !st.tun ==> out.ok && !usb && !stopped && st.nextTry <= now)
  {
  }

  lemma PassSettles(st: LanState, udid: string, usb: bool, paused1: bool, paused2: bool, now: int, out: Outcome,
                    stopped: bool, fails: seq<int>, clock: int, clock': int)
    requires Settled(st, fails, clock) && clock <= now <= out.at <= clock'
    ensures var (st1, act) := Decide(st, udid, usb, paused1, paused2, now);
      Settled(Answered(st1, act, out, stopped),
              if act == Some(Open(udid)) then FailsAfter(fails, out, stopped) else fails, clock')
  {
    if !st.tun && !usb && now >= st.nextTry {
      OpenSettles(st, fails, clock, now, out, stopped, clock');
    }
  }

  function Before(states: States, udid: string): LanState
  {
    if udid in states then states[udid] else NEW
  }

  predicate Distinct(s: seq<string>)
  {
    forall i, j :: 0 <= i < j < |s| ==> s[i] != s[j]
  }

  // ---------------------------------------------------------------- the code

  /** What one pass reads: presence (None when the probe failed), the claims and pause flags. */
  datatype Reading = Reading(usb: set<string>, claimed: set<string>, targets: seq<string>,
                             paused1: seq<bool>, paused2: seq<bool>, now: int)

  predicate Proper(r: Reading)
  {
    Distinct(r.targets) && |r.paused1| == |r.paused2| == |r.targets|
  }

  function DecideAt(r: Reading, k: nat, states: States): (LanState, Option<Action>)
    requires Proper(r) && k < |r.targets|
  {
    Decide(Before(states, r.targets[k]), r.targets[k], r.targets[k] in r.usb, r.paused1[k], r.paused2[k], r.now)
  }

  function Acts(r: Reading, states: States): seq<Option<Action>>
    requires Proper(r)
  {
    seq(|r.targets|, k requires 0 <= k < |r.targets| => DecideAt(r, k, states).1)
  }

  /** The registry holds what the last reports say. */
  ghost predicate Told(registered: set<string>, reach: map<string, bool>)
  {
    forall u :: u in registered <==> u in reach && reach[u]
  }

  /** States, registry and reports while the actions in rest are still to be carried out. */
  ghost predicate Ahead(states: States, registered: set<string>, reach: map<string, bool>, rest: seq<Action>)
  {
    && Orderly(rest) && Told(registered, reach)
    && registered == Tunnels(states) + Drops(rest) && Drops(rest) !! Tunnels(states)
    && Probes(rest) <= Tunnels(states) && Opens(rest) <= states.Keys - Tunnels(states)
  }

  lemma TunnelsUpdate(states: States, u: string, st: LanState)
    ensures Tunnels(states[u := st]) == if st.tun then Tunnels(states) + {u} else Tunnels(states) - {u}
  {
  }

  lemma AheadDrop(states: States, registered: set<string>, reach: map<string, bool>, rest: seq<Action>, u: string)
    requires Ahead(states, registered, reach, [Drop(u)] + rest)
    ensures Ahead(states, registered - {u}, reach[u := false], rest)
  {
    assert ([Drop(u)] + rest)[1..] == rest;
    Behead([Drop(u)] + rest);
  }

  lemma AheadProbe(states: States, registered: set<string>, reach: map<string, bool>, rest: seq<Action>, u: string,
                   st: LanState)
    requires Ahead(states, registered, reach, [Probe(u)] + rest)
    ensures u in states && states[u].tun
    ensures if st.tun then Ahead(states[u := st], registered, reach, rest)
            else Ahead(states[u := st], registered - {u}, reach[u := false], rest)
  {
    assert ([Probe(u)] + rest)[1..] == rest;
    Behead([Probe(u)] + rest);
    TunnelsUpdate(states, u, st);
    assert u in Probes([Probe(u)] + rest);
  }

  lemma AheadOpen(states: States, registered: set<string>, reach: map<string, bool>, rest: seq<Action>, u: string,
                  st: LanState)
    requires Ahead(states, registered, reach, [Open(u)] + rest)
    ensures u in states && !states[u].tun
    ensures if st.tun then Ahead(states[u := st], registered + {u}, reach[u := true], rest)
            else Ahead(states[u := st], registered, reach, rest)
  {
    assert ([Open(u)] + rest)[1..] == rest;
    Behead([Open(u)] + rest);
    TunnelsUpdate(states, u, st);
    assert u in Opens([Open(u)] + rest);
  }

  class LanAgent {
    var states: States
    var registered: set<string>       // the tunnel manager's LAN tunnels
    var reach: map<string, bool>      // the last Reachable report per device
    var stopped: bool
    ghost var fails: Fails

    /** Between passes, at any time from clock on. */
    ghost predicate Valid(clock: int)
      reads this
    {
      && registered == Tunnels(states)
      && Told(registered, reach)
      && AllSettled(states, fails, clock)
      && (stopped ==> registered == {})
    }

    constructor ()
      ensures Valid(0) && registered == {} && !stopped
    {
      states, registered, reach, stopped, fails := map[], {}, map[], false, map[];
    }

    /** Forget devices that are no longer claimed; their tunnels are to be dropped. */
    method Prune(claimed: set<string>) returns (actions: seq<Action>)
      modifies this`states
      ensures states == Pruned(old(states), claimed)
      ensures Drops(actions) == Tunnels(old(states)) - claimed && Probes(actions) == {} && Opens(actions) == {}
      ensures Orderly(actions)
    {
      actions := [];
      var rest := states.Keys;
      while rest != {}
        invariant rest <= old(states).Keys && Orderly(actions) && Probes(actions) == {} && Opens(actions) == {}
        invariant forall u :: u in states <==> u in old(states) && (u in rest || u in claimed)
        invariant forall u :: u in states ==> states[u] == old(states)[u]
        invariant forall u :: u in Drops(actions) <==>
                  u in old(states) && u !in rest && u !in claimed && old(states)[u].tun
        decreases |rest|
      {
        var u :| u in rest;
        rest := rest - {u};
        if u !in claimed {
          if states[u].tun {
            actions := Dropping(actions, u);
          }
          states := states - {u};
        }
      }
    }

    /** The decisions of one pass, device by device. */
    method Plan(r: Reading, pruned: seq<Action>) returns (actions: seq<Action>)
      requires Proper(r) && Orderly(pruned) && Probes(pruned) == {} && Opens(pruned) == {}
      requires forall u :: u in Drops(pruned) ==> u !in states
      modifies this`states
      ensures Orderly(actions) && Sorted(r.targets, Acts(r, old(states)), Drops(pruned), actions, |r.targets|)
      ensures Planned(r, old(states), states)
      ensures forall k :: 0 <= k < |r.targets| ==>
                PlanShown(r, k, Before(old(states), r.targets[k]), Drops(pruned), actions)
    {
      actions := pruned;
      ghost var acts := Acts(r, old(states));
      for i := 0 to |r.targets|
        invariant Orderly(actions) && Sorted(r.targets, acts, Drops(pruned), actions, i)
        invariant PlannedUpTo(r, old(states), states, i)
      {
        var u := r.targets[i];
        PlannedNext(r, old(states), states, i);
        assert acts[i] == DecideAt(r, i, old(states)).1;
        SortedNext(r.targets, acts, Drops(pruned), actions, i);
        actions := PlanOne(u, u in r.usb, r.paused1[i], r.paused2[i], r.now, actions);
      }
      assert r.targets[..|r.targets|] == r.targets;
      PlanShows(r, old(states), Drops(pruned), actions);
    }

    method PlanOne(u: string, usb: bool, paused1: bool, paused2: bool, now: int, actions: seq<Action>)
      returns (actions': seq<Action>)
      modifies this`states
      ensures states == old(states)[u := Decide(Before(old(states), u), u, usb, paused1, paused2, now).0]
      ensures var act := Decide(Before(old(states), u), u, usb, paused1, paused2, now).1;
        actions' == if act.Some? then actions + [act.value] else actions
    {
      actions' := actions;
      var st := if u in states then states[u] else NEW;
      if st.tun {
        if usb && !paused1 {
          st := st.(tun := false);
          actions' := actions + [Drop(u)];
        } else if paused2 {
          // mid-job: neither probed nor dropped
        } else if now - st.lastProbe >= PROBE_EVERY {
          st := st.(lastProbe := now);
          actions' := actions + [Probe(u)];
        }
      } else if !usb && !st.opening && now >= st.nextTry {
        st := st.(opening := true);
        actions' := actions + [Open(u)];
      }
      states := states[u := st];
    }

    ghost predicate Pending(rest: seq<Action>)
      reads this
    {
      Ahead(states, registered, reach, rest) && fails.Keys == states.Keys
    }

    /** drop, then setReachable(false). */
    method DropTunnel(u: string)
      modifies this`registered, this`reach
      ensures registered == old(registered) - {u} && reach == old(reach)[u := false]
    {
      registered := registered - {u};
      reach := reach[u := false];
    }

    method OpenTunnel(u: string, out: Outcome)
      requires u in states && u in fails
      modifies this`states, this`registered, this`reach, this`fails
      ensures states == old(states)[u := Opened(old(states)[u], out, stopped)]
      ensures fails == old(fails)[u := FailsAfter(old(fails)[u], out, stopped)]
      ensures registered == if out.ok && !stopped then old(registered) + {u} else old(registered)
      ensures reach == if out.ok && !stopped then old(reach)[u := true] else old(reach)
    {
      var st := states[u].(opening := false, failures := states[u].failures + 1);
      st := st.(nextTry := out.at + LanBackoff(st.failures) * SECOND);
      if out.ok && !stopped {
        st := st.(tun := true, lastProbe := out.at, failures := 0, nextTry := 0);
      }
      states := states[u := st];
      fails := fails[u := FailsAfter(fails[u], out, stopped)];
      if out.ok && !stopped {
        registered := registered + {u};
        reach := reach[u := true];
      }
    }

    method ProbeTunnel(u: string, out: Outcome)
      requires u in states && states[u].tun
      modifies this`states, this`registered, this`reach
      ensures states == old(states)[u := Probed(old(states)[u], out)]
      ensures registered == if out.ok then old(registered) else old(registered) - {u}
      ensures reach == if out.ok then old(reach) else old(reach)[u := false]
    {
      if !out.ok {
        states := states[u := states[u].(tun := false, nextTry := out.at)];
        DropTunnel(u);
      }
    }

    method RunAction(act: Action, ghost rest: seq<Action>, out: Outcome)
      requires Pending([act] + rest)
      modifies this`states, this`registered, this`reach, this`fails
      ensures Pending(rest) && Did(act, out, stopped, old(states), states, old(fails), fails)
    {
      match act
      case Drop(u) =>
        AheadDrop(states, registered, reach, rest, u);
        DropTunnel(u);
      case Probe(u) =>
        AheadProbe(states, registered, reach, rest, u, Probed(Before(states, u), out));
        ProbeTunnel(u, out);
      case Open(u) =>
        AheadOpen(states, registered, reach, rest, u, Opened(Before(states, u), out, stopped));
        OpenTunnel(u, out);
    }

    method RunActions(actions: seq<Action>, outs: string -> Outcome)
      requires Orderly(actions) && Pending(actions)
      modifies this`states, this`registered, this`reach, this`fails
      ensures Pending([]) && Done(actions, {}, outs, stopped, old(states), states, old(fails), fails)
    {
      OpensApart(actions);
      var rest := actions;
      while rest != []
        invariant Pending(rest) && Opens(rest) <= Opens(actions) && Probes(rest) <= Probes(actions)
        invariant Done(actions, Opens(rest) + Probes(rest), outs, stopped, old(states), states, old(fails), fails)
        decreases |rest|
      {
        var act := rest[0];
        assert rest == [act] + rest[1..];
        Behead(rest);
        DoneNext(actions, rest, outs, stopped, old(states), states, old(fails), fails);
        RunAction(act, rest[1..], outs(act.udid));
        rest := rest[1..];
      }
    }

    /** However many passes it took: n >= 5 consecutive failed opens of a claimed device span
        at least 450 + 300(n - 5) seconds. */
    lemma FailuresSpan(clock: int, u: string)
      requires Valid(clock) && u in states && states[u].failures >= 5
      ensures u in fails && |fails[u]| == states[u].failures
      ensures fails[u][|fails[u]| - 1] - fails[u][0] >= (450 + 300 * (states[u].failures - 5)) * SECOND
    {
      SpanOf(fails[u]);
    }

    /** One pass, from now to end. None: the presence probe failed. */
    method Reconcile(probe: Option<Reading>, outs: string -> Outcome, ghost clock: int, ghost end: int)
      requires Valid(clock)
      requires probe.Some? ==>
                 Proper(probe.value) && clock <= probe.value.now <= end && Timely(outs, probe.value.now, end)
      modifies this`states, this`registered, this`reach, this`fails
      ensures probe.None? ==>
                Valid(clock) && states == old(states) && registered == old(registered) && reach == old(reach)
      ensures probe.None? ==> fails == old(fails)
      ensures probe.Some? ==>
                Valid(end) && Swept(probe.value, outs, stopped, old(states), states, old(fails), fails, end)
      ensures probe.Some? ==> ReconcileShown(probe.value, outs, stopped, old(states), states)
      ensures probe.Some? ==> var r := probe.value;
        && (forall u :: u !in r.targets ==> (u in registered <==> u in old(registered) && u in r.claimed))
        && (forall k :: 0 <= k < |r.targets| ==>
              var u := r.targets[k];
              u in registered <==>
                if u in old(registered) && u in r.claimed then
                  && !(u in r.usb && !r.paused1[k])
                  && (r.paused2[k] || r.now < old(states)[u].lastProbe + 30 * SECOND || outs(u).ok)
                else
                  && u !in r.usb && outs(u).ok && !stopped
                  && (if u in old(states) && u in r.claimed then old(states)[u].nextTry else 0) <= r.now)
      ensures probe.Some? && AllPaused(probe.value) ==> old(registered) * probe.value.claimed <= registered
      ensures probe.Some? && NonePaused(probe.value) ==>
        forall u :: u in probe.value.targets && u in probe.value.usb ==> u !in registered
    {
      if probe.Some? {
        Sweep(probe.value, outs, clock, end);
        PausedPass(probe.value, outs, stopped, old(states), states);
        PassShows(probe.value, outs, stopped, old(states), states);
        TunnelsShown(probe.value, outs, stopped, old(states), states);
        if stopped {
          StoppedStays(probe.value, outs, old(states), states);
        }
      }
    }

    /** The part of a pass under the lock. */
    method Choose(r: Reading, ghost clock: int) returns (actions: seq<Action>)
      requires Valid(clock) && Proper(r)
      modifies this`states, this`fails
      ensures Pending(actions) && Chosen(r, old(states), states, old(fails), fails, clock, actions)
    {
      var pruned := Prune(r.claimed);
      fails := FailsOf(states, r.targets, fails);
      actions := Plan(r, pruned);
      PlanAhead(r, old(states), states, reach, Drops(pruned), actions);
      PlanSettled(r, old(states), states, old(fails), clock);
    }

    method Sweep(r: Reading, outs: string -> Outcome, ghost clock: int, ghost end: int)
      requires Valid(clock) && Proper(r) && clock <= r.now <= end
      requires Timely(outs, r.now, end)
      modifies this`states, this`registered, this`reach, this`fails
      ensures Pending([]) && Swept(r, outs, stopped, old(states), states, old(fails), fails, end)
    {
      var actions := Choose(r, clock);
      ghost var s2, f2 := states, fails;
      RunActions(actions, outs);
      SweepDone(r, old(states), s2, states, old(fails), f2, fails, actions, outs, stopped, clock, end);
    }

    /** Stop between passes: every tunnel goes, and none is opened afterwards. */
    method Stop(ghost clock: int)
      requires Valid(clock)
      modifies this
      ensures Valid(clock) && stopped && registered == {} && states.Keys == old(states).Keys
    {
      stopped := true;
      var udids := Tunnels(states);
      states := map u | u in states :: states[u].(tun := false);
      while udids != {}
        invariant registered == udids && Told(registered, reach)
        invariant states == map u | u in old(states) :: old(states)[u].(tun := false)
        invariant fails == old(fails) && stopped
        decreases |udids|
      {
        var u :| u in udids;
        udids := udids - {u};
        DropTunnel(u);
      }
    }
  }

  function Pruned(states: States, claimed: set<string>): States
  {
    map u | u in states && u in claimed :: states[u]
  }

  /** The states after a whole pass, device by device. */
  ghost predicate Passed(r: Reading, outs: string -> Outcome, stopped: bool, s: States, s': States)
    requires Proper(r)
  {
    && (forall k :: 0 <= k < |r.targets| ==>
        r.targets[k] in s' && s'[r.targets[k]] == PassAt(r, k, Pruned(s, r.claimed), outs, stopped))
    && (forall u :: u !in r.targets ==>
          (u in s' <==> u in s && u in r.claimed) && (u in s' && u in s ==> s'[u] == s[u]))
  }

  /** The consecutive failed opens on record after a pass: an attempt extends or clears
      them, being forgotten clears them, nothing else does anything. */
  ghost predicate Recorded(r: Reading, outs: string -> Outcome, stopped: bool, s: States, f: Fails, f': Fails)
    requires Proper(r)
  {
    var s1 := Pruned(s, r.claimed);
    var f1 := FailsOf(s1, r.targets, f);
    forall k :: 0 <= k < |r.targets| ==>
      && r.targets[k] in f1 && r.targets[k] in f'
      && f'[r.targets[k]] ==
         if DecideAt(r, k, s1).1 == Some(Open(r.targets[k]))
         then FailsAfter(f1[r.targets[k]], outs(r.targets[k]), stopped) else f1[r.targets[k]]
  }

  function PassAt(r: Reading, k: nat, s: States, outs: string -> Outcome, stopped: bool): LanState
    requires Proper(r) && k < |r.targets|
  {
    Pass(Before(s, r.targets[k]), r.targets[k], r.targets[k] in r.usb, r.paused1[k], r.paused2[k], r.now,
         outs(r.targets[k]), stopped)
  }

  /** The states between the decisions and the actions. */
  ghost predicate Planned(r: Reading, s1: States, s2: States)
    requires Proper(r)
  {
    && (forall k :: 0 <= k < |r.targets| ==> r.targets[k] in s2 && s2[r.targets[k]] == DecideAt(r, k, s1).0)
    && (forall u :: u !in r.targets ==> (u in s2 <==> u in s1) && (u in s2 ==> s2[u] == s1[u]))
  }

  ghost predicate PlannedUpTo(r: Reading, s1: States, s2: States, i: nat)
    requires Proper(r) && i <= |r.targets|
  {
    && (forall k :: 0 <= k < i ==> r.targets[k] in s2 && s2[r.targets[k]] == DecideAt(r, k, s1).0)
    && (forall u :: u !in r.targets[..i] ==> (u in s2 <==> u in s1) && (u in s2 ==> s2[u] == s1[u]))
  }

  lemma PlannedNext(r: Reading, s1: States, s2: States, i: nat)
    requires Proper(r) && i < |r.targets| && PlannedUpTo(r, s1, s2, i)
    ensures Before(s2, r.targets[i]) == Before(s1, r.targets[i])
    ensures PlannedUpTo(r, s1, s2[r.targets[i] := DecideAt(r, i, s1).0], i + 1)
  {
    assert r.targets[i] !in r.targets[..i];
    assert r.targets[..i + 1] == r.targets[..i] + [r.targets[i]];
  }

  lemma ListedAt(r: Reading, s1: States, pruned: set<string>, actions: seq<Action>, k: nat)
    requires Proper(r) && k < |r.targets| && Sorted(r.targets, Acts(r, s1), pruned, actions, |r.targets|)
    ensures Listed(r.targets[k], DecideAt(r, k, s1).1, pruned, actions)
  {
    assert Acts(r, s1)[k] == DecideAt(r, k, s1).1;
  }

  lemma ListedNot(r: Reading, s1: States, pruned: set<string>, actions: seq<Action>, u: string)
    requires Proper(r) && u !in r.targets && Sorted(r.targets, Acts(r, s1), pruned, actions, |r.targets|)
    ensures (u in Drops(actions) <==> u in pruned) && u !in Probes(actions) && u !in Opens(actions)
  {
    assert r.targets[..|r.targets|] == r.targets;
  }

  /** The decision for one device, seen from the registry. */
  lemma AheadAt(r: Reading, s0: States, s2: States, pruned: set<string>, actions: seq<Action>, k: nat)
    requires Proper(r) && k < |r.targets| && Planned(r, Pruned(s0, r.claimed), s2) && pruned == Tunnels(s0) - r.claimed
    requires Sorted(r.targets, Acts(r, Pruned(s0, r.claimed)), pruned, actions, |r.targets|)
    ensures var u := r.targets[k];
      && (u in Tunnels(s0) <==> u in Tunnels(s2) || u in Drops(actions)) && !(u in Tunnels(s2) && u in Drops(actions))
      && (u in Probes(actions) ==> u in Tunnels(s2)) && (u in Opens(actions) ==> u in s2 && u !in Tunnels(s2))
  {
    ListedAt(r, Pruned(s0, r.claimed), pruned, actions, k);
  }

  lemma PlanAhead(r: Reading, s0: States, s2: States, reach: map<string, bool>, pruned: set<string>,
                  actions: seq<Action>)
    requires Proper(r) && Planned(r, Pruned(s0, r.claimed), s2) && Told(Tunnels(s0), reach)
    requires pruned == Tunnels(s0) - r.claimed && Orderly(actions)
    requires Sorted(r.targets, Acts(r, Pruned(s0, r.claimed)), pruned, actions, |r.targets|)
    ensures Ahead(s2, Tunnels(s0), reach, actions)
  {
    var s1 := Pruned(s0, r.claimed);
    forall u
      ensures u in Tunnels(s0) <==> u in Tunnels(s2) || u in Drops(actions)
      ensures !(u in Tunnels(s2) && u in Drops(actions))
      ensures u in Probes(actions) ==> u in Tunnels(s2)
      ensures u in Opens(actions) ==> u in s2 && u !in Tunnels(s2)
    {
      if u in r.targets {
        var k :| 0 <= k < |r.targets| && r.targets[k] == u;
        AheadAt(r, s0, s2, pruned, actions, k);
      } else {
        ListedNot(r, s1, pruned, actions, u);
      }
    }
  }

  /** One claimed device through a whole pass. */
  lemma DoneAt(r: Reading, s1: States, s2: States, s3: States, f2: Fails, f3: Fails, pruned: set<string>,
               actions: seq<Action>, outs: string -> Outcome, stopped: bool, clock: int, end: int, k: nat)
    requires Proper(r) && k < |r.targets| && clock <= r.now <= outs(r.targets[k]).at <= end && Planned(r, s1, s2)
    requires Sorted(r.targets, Acts(r, s1), pruned, actions, |r.targets|) &&
             Done(actions, {}, outs, stopped, s2, s3, f2, f3)
    requires Settled(Before(s1, r.targets[k]), f2[r.targets[k]], clock)
    ensures var u := r.targets[k];
      && u in s3 && s3[u] == PassAt(r, k, s1, outs, stopped) && Settled(s3[u], f3[u], end)
      && f3[u] == if DecideAt(r, k, s1).1 == Some(Open(u)) then FailsAfter(f2[u], outs(u), stopped) else f2[u]
  {
    var u := r.targets[k];
    ListedAt(r, s1, pruned, actions, k);
    assert Outcomes(u in Opens(actions), u in Probes(actions), outs(u), stopped, s2[u], s3[u], f2[u], f3[u]);
    PassSettles(Before(s1, u), u, u in r.usb, r.paused1[k], r.paused2[k], r.now, outs(u), stopped, f2[u], clock, end);
  }

  lemma DoneNot(r: Reading, s1: States, s2: States, s3: States, f2: Fails, f3: Fails, pruned: set<string>,
                actions: seq<Action>, outs: string -> Outcome, stopped: bool, u: string)
    requires Proper(r) && u !in r.targets && Planned(r, s1, s2)
    requires Sorted(r.targets, Acts(r, s1), pruned, actions, |r.targets|) &&
             Done(actions, {}, outs, stopped, s2, s3, f2, f3)
    ensures (u in s3 <==> u in s1) && (u in s3 ==> s3[u] == s1[u] && f3[u] == f2[u])
  {
    ListedNot(r, s1, pruned, actions, u);
    if u in s2 {
      assert Outcomes(u in Opens(actions), u in Probes(actions), outs(u), stopped, s2[u], s3[u], f2[u], f3[u]);
    }
  }

  /** What the actions leave, and what led there. */
  ghost predicate Through(r: Reading, s1: States, s2: States, s3: States, f2: Fails, f3: Fails,
                          pruned: set<string>, actions: seq<Action>, outs: string -> Outcome, stopped: bool)
  {
    && Proper(r) && Planned(r, s1, s2)
    && Sorted(r.targets, Acts(r, s1), pruned, actions, |r.targets|) && Done(actions, {}, outs, stopped, s2, s3, f2, f3)
  }

  ghost predicate AllSettled(s: States, f: Fails, clock: int)
  {
    s.Keys == f.Keys && forall u :: u in s ==> Settled(s[u], f[u], clock)
  }

  ghost predicate SettledFrom(s1: States, s2: States, f: Fails, clock: int)
  {
    s2.Keys == f.Keys && forall u :: u in s2 ==> Settled(Before(s1, u), f[u], clock)
  }

  function FailsOf(s1: States, targets: seq<string>, f: Fails): Fails
  {
    map u | u in s1.Keys + (set k | 0 <= k < |targets| :: targets[k]) :: if u in s1 && u in f then f[u] else []
  }

  lemma PlanSettled(r: Reading, s0: States, s2: States, f: Fails, clock: int)
    requires Proper(r) && AllSettled(s0, f, clock) && Planned(r, Pruned(s0, r.claimed), s2)
    ensures SettledFrom(Pruned(s0, r.claimed), s2, FailsOf(Pruned(s0, r.claimed), r.targets, f), clock)
  {
    var s1 := Pruned(s0, r.claimed);
    var f2 := FailsOf(s1, r.targets, f);
    forall u
      ensures u in s2 <==> u in f2
      ensures u in s2 ==> Settled(Before(s1, u), f2[u], clock)
    {
      if u in r.targets {
        var k :| 0 <= k < |r.targets| && r.targets[k] == u;
      }
    }
  }

  lemma PassDone(r: Reading, s0: States, s2: States, s3: States, f2: Fails, f3: Fails, pruned: set<string>,
                 actions: seq<Action>, outs: string -> Outcome, stopped: bool, clock: int, end: int)
    requires Through(r, Pruned(s0, r.claimed), s2, s3, f2, f3, pruned, actions, outs, stopped)
    requires clock <= r.now <= end && Timely(outs, r.now, end)
    requires SettledFrom(Pruned(s0, r.claimed), s2, f2, clock)
    ensures Passed(r, outs, stopped, s0, s3) && AllSettled(s3, f3, end)
  {
    PassedAll(r, s0, s2, s3, f2, f3, pruned, actions, outs, stopped, clock, end);
    forall u | u in s3
      ensures Settled(s3[u], f3[u], end)
    {
      SettledAgain(r, Pruned(s0, r.claimed), s2, s3, f2, f3, pruned, actions, outs, stopped, clock, end, u);
    }
  }

  /** What the lock-held part hands to the actions. */
  ghost predicate Chosen(r: Reading, s0: States, s2: States, f0: Fails, f2: Fails, clock: int,
                         actions: seq<Action>)
    requires Proper(r)
  {
    && Planned(r, Pruned(s0, r.claimed), s2) && f2 == FailsOf(Pruned(s0, r.claimed), r.targets, f0)
    && Sorted(r.targets, Acts(r, Pruned(s0, r.claimed)), Tunnels(s0) - r.claimed, actions, |r.targets|)
    && SettledFrom(Pruned(s0, r.claimed), s2, f2, clock)
  }

  /** What a whole pass leaves. */
  ghost predicate Swept(r: Reading, outs: string -> Outcome, stopped: bool, s: States, s': States, f: Fails,
                        f': Fails, clock: int)
    requires Proper(r)
  {
    Passed(r, outs, stopped, s, s') && AllSettled(s', f', clock) && Recorded(r, outs, stopped, s, f, f')
  }

  lemma SweepDone(r: Reading, s0: States, s2: States, s3: States, f0: Fails, f2: Fails,
                  f3: Fails, actions: seq<Action>, outs: string -> Outcome, stopped: bool, clock: int, end: int)
    requires Proper(r) && Chosen(r, s0, s2, f0, f2, clock, actions) && Done(actions, {}, outs, stopped, s2, s3, f2, f3)
    requires clock <= r.now <= end && Timely(outs, r.now, end)
    ensures Swept(r, outs, stopped, s0, s3, f0, f3, end)
  {
    PassDone(r, s0, s2, s3, f2, f3, Tunnels(s0) - r.claimed, actions, outs, stopped, clock, end);
    RecordedAll(r, s0, s2, s3, f0, f3, Tunnels(s0) - r.claimed, actions, outs, stopped, clock, end);
  }

  lemma RecordedAll(r: Reading, s0: States, s2: States, s3: States, f0: Fails, f3: Fails, pruned: set<string>,
                    actions: seq<Action>, outs: string -> Outcome, stopped: bool, clock: int, end: int)
    requires Through(r, Pruned(s0, r.claimed), s2, s3, FailsOf(Pruned(s0, r.claimed), r.targets, f0), f3, pruned,
                     actions, outs, stopped)
    requires clock <= r.now <= end && Timely(outs, r.now, end)
    requires SettledFrom(Pruned(s0, r.claimed), s2, FailsOf(Pruned(s0, r.claimed), r.targets, f0), clock)
    ensures Recorded(r, outs, stopped, s0, f0, f3)
  {
    var s1 := Pruned(s0, r.claimed);
    var f2 := FailsOf(s1, r.targets, f0);
    forall k | 0 <= k < |r.targets|
      ensures r.targets[k] in f2 && r.targets[k] in f3
      ensures f3[r.targets[k]] ==
              if DecideAt(r, k, s1).1 == Some(Open(r.targets[k]))
              then FailsAfter(f2[r.targets[k]], outs(r.targets[k]), stopped) else f2[r.targets[k]]
    {
      DoneAt(r, s1, s2, s3, f2, f3, pruned, actions, outs, stopped, clock, end, k);
    }
  }

  lemma PassedAll(r: Reading, s0: States, s2: States, s3: States, f2: Fails, f3: Fails, pruned: set<string>,
                  actions: seq<Action>, outs: string -> Outcome, stopped: bool, clock: int, end: int)
    requires Through(r, Pruned(s0, r.claimed), s2, s3, f2, f3, pruned, actions, outs, stopped)
    requires clock <= r.now <= end && Timely(outs, r.now, end)
    requires SettledFrom(Pruned(s0, r.claimed), s2, f2, clock)
    ensures Passed(r, outs, stopped, s0, s3)
  {
    var s1 := Pruned(s0, r.claimed);
    forall k | 0 <= k < |r.targets|
      ensures r.targets[k] in s3 && s3[r.targets[k]] == PassAt(r, k, s1, outs, stopped)
    {
      DoneAt(r, s1, s2, s3, f2, f3, pruned, actions, outs, stopped, clock, end, k);
    }
    forall u | u !in r.targets
      ensures (u in s3 <==> u in s1) && (u in s3 ==> s3[u] == s1[u])
    {
      DoneNot(r, s1, s2, s3, f2, f3, pruned, actions, outs, stopped, u);
    }
  }

  lemma SettledAgain(r: Reading, s1: States, s2: States, s3: States, f2: Fails, f3: Fails, pruned: set<string>,
                     actions: seq<Action>, outs: string -> Outcome, stopped: bool, clock: int, end: int, u: string)
    requires Through(r, s1, s2, s3, f2, f3, pruned, actions, outs, stopped)
    requires clock <= r.now <= end && r.now <= outs(u).at <= end && u in s3
    requires Settled(Before(s1, u), f2[u], clock)
    ensures Settled(s3[u], f3[u], end)
  {
    if u in r.targets {
      var k :| 0 <= k < |r.targets| && r.targets[k] == u;
      DoneAt(r, s1, s2, s3, f2, f3, pruned, actions, outs, stopped, clock, end, k);
    } else {
      DoneNot(r, s1, s2, s3, f2, f3, pruned, actions, outs, stopped, u);
    }
  }

  /** The planned actions of one device, on its record and the readings. */
  ghost predicate PlanShown(r: Reading, k: nat, st: LanState, pruned: set<string>, actions: seq<Action>)
    requires Proper(r) && k < |r.targets|
  {
    var u := r.targets[k];
    && (u in Drops(actions) <==> u in pruned || (st.tun && u in r.usb && !r.paused1[k]))
    && (u in Probes(actions) <==>
          st.tun && !(u in r.usb && !r.paused1[k]) && !r.paused2[k] && r.now >= st.lastProbe + 30 * SECOND)
    && (u in Opens(actions) <==> !st.tun && u !in r.usb && !st.opening && st.nextTry <= r.now)
  }

  lemma PlanShows(r: Reading, s1: States, pruned: set<string>, actions: seq<Action>)
    requires Proper(r) && Sorted(r.targets, Acts(r, s1), pruned, actions, |r.targets|)
    ensures forall k :: 0 <= k < |r.targets| ==> PlanShown(r, k, Before(s1, r.targets[k]), pruned, actions)
  {
    forall k | 0 <= k < |r.targets|
      ensures PlanShown(r, k, Before(s1, r.targets[k]), pruned, actions)
    {
      var u := r.targets[k];
      ListedAt(r, s1, pruned, actions, k);
      DecideMeans(Before(s1, u), u, u in r.usb, r.paused1[k], r.paused2[k], r.now);
    }
  }

  /** What a device that is claimed, or claimed again, starts a pass with. */
  function Entering(states: States, claimed: set<string>, u: string): LanState
  {
    if u in states && u in claimed then states[u] else NEW
  }

  /** A whole pass on the records: targets are tended, other claimed devices left alone, and
      the rest forgotten. */
  ghost predicate ReconcileShown(r: Reading, outs: string -> Outcome, stopped: bool, s: States, s': States)
    requires Proper(r)
  {
    && (forall k :: 0 <= k < |r.targets| ==>
          var u := r.targets[k];
          u in s' && Tended(Entering(s, r.claimed, u), s'[u], u in r.usb, r.paused1[k], r.paused2[k], r.now, outs(u),
                            stopped))
    && (forall u :: u !in r.targets ==>
          (u in s' <==> u in s && u in r.claimed) && (u in s' && u in s ==> s'[u] == s[u]))
  }

  lemma PassShows(r: Reading, outs: string -> Outcome, stopped: bool, s: States, s': States)
    requires Proper(r) && Passed(r, outs, stopped, s, s') && forall u :: u in s ==> !s[u].opening
    ensures ReconcileShown(r, outs, stopped, s, s')
  {
    forall k | 0 <= k < |r.targets|
      ensures var u := r.targets[k];
        u in s' && Tended(Entering(s, r.claimed, u), s'[u], u in r.usb, r.paused1[k], r.paused2[k], r.now, outs(u),
                          stopped)
    {
      var u := r.targets[k];
      PassTended(Entering(s, r.claimed, u), u, u in r.usb, r.paused1[k], r.paused2[k], r.now, outs(u), stopped);
    }
  }

  lemma TunnelsShown(r: Reading, outs: string -> Outcome, stopped: bool, s: States, s': States)
    requires Proper(r) && ReconcileShown(r, outs, stopped, s, s')
    ensures forall u :: u !in r.targets ==> (u in Tunnels(s') <==> u in Tunnels(s) && u in r.claimed)
    ensures forall k :: 0 <= k < |r.targets| ==>
              var u := r.targets[k];
              u in Tunnels(s') <==>
                if u in Tunnels(s) && u in r.claimed then
                  && !(u in r.usb && !r.paused1[k])
                  && (r.paused2[k] || r.now < s[u].lastProbe + 30 * SECOND || outs(u).ok)
                else
                  && u !in r.usb && outs(u).ok && !stopped
                  && (if u in s && u in r.claimed then s[u].nextTry else 0) <= r.now
  {
  }

  predicate AllPaused(r: Reading)
  {
    (forall k :: 0 <= k < |r.paused1| ==> r.paused1[k]) && (forall k :: 0 <= k < |r.paused2| ==> r.paused2[k])
  }

  predicate NonePaused(r: Reading)
  {
    forall k :: 0 <= k < |r.paused1| ==> !r.paused1[k]
  }

  /** A paused pass takes no claimed device's tunnel; an unpaused one leaves none on a cable. */
  lemma PausedPass(r: Reading, outs: string -> Outcome, stopped: bool, s: States, s': States)
    requires Proper(r) && Passed(r, outs, stopped, s, s') && forall u :: u in s ==> !s[u].opening
    ensures AllPaused(r) ==> Tunnels(s) * r.claimed <= Tunnels(s')
    ensures NonePaused(r) ==> forall u :: u in r.targets && u in r.usb ==> u !in Tunnels(s')
  {
    forall u
      ensures AllPaused(r) && u in Tunnels(s) && u in r.claimed ==> u in Tunnels(s')
      ensures NonePaused(r) && u in r.targets && u in r.usb ==> u !in Tunnels(s')
    {
      if u in r.targets {
        var k :| 0 <= k < |r.targets| && r.targets[k] == u;
        PauseKeepsCableTakes(Before(Pruned(s, r.claimed), u), u, u in r.usb, r.paused1[k], r.paused2[k], r.now,
                             outs(u), stopped);
      }
    }
  }

  /** A stopped agent opens nothing. */
  lemma StoppedStays(r: Reading, outs: string -> Outcome, s: States, s': States)
    requires Proper(r) && Passed(r, outs, true, s, s') && Tunnels(s) == {}
    ensures Tunnels(s') == {}
  {
    forall u | u in s'
      ensures !s'[u].tun
    {
      assert u in s ==> u in Tunnels(s) || !s[u].tun;
      if u in r.targets {
        var k :| 0 <= k < |r.targets| && r.targets[k] == u;
        assert !Before(Pruned(s, r.claimed), u).tun;
      }
    }
  }

  /** One action touches its own device only. */
  ghost predicate Did(act: Action, out: Outcome, stopped: bool, s: States, s': States, f: Fails, f': Fails)
  {
    && s'.Keys == s.Keys == f'.Keys == f.Keys
    && (forall u :: u in s && u != act.udid ==> s'[u] == s[u] && f'[u] == f[u])
    && (act.udid in s ==>
          && s'[act.udid] == Result(s[act.udid], act.Open?, act.Probe?, out, stopped)
          && f'[act.udid] == if act.Open? then FailsAfter(f[act.udid], out, stopped) else f[act.udid])
  }

  /** All actions but those of the devices in left have had their effect. */
  ghost predicate Done(actions: seq<Action>, left: set<string>, outs: string -> Outcome, stopped: bool,
                       s: States, s': States, f: Fails, f': Fails)
  {
    && s'.Keys == s.Keys == f'.Keys == f.Keys
    && forall u :: u in s ==> Outcomes(u in Opens(actions) && u !in left, u in Probes(actions) && u !in left,
                                       outs(u), stopped, s[u], s'[u], f[u], f'[u])
  }

  predicate Outcomes(opens: bool, probes: bool, out: Outcome, stopped: bool, st: LanState, st': LanState,
                     f: seq<int>, f': seq<int>)
  {
    st' == Result(st, opens, probes, out, stopped) && f' == if opens then FailsAfter(f, out, stopped) else f
  }

  lemma DoneNext(actions: seq<Action>, rest: seq<Action>, outs: string -> Outcome, stopped: bool,
                 s: States, s': States, f: Fails, f': Fails)
    requires rest != [] && Orderly(rest) && Opens(rest) <= Opens(actions) && Probes(rest) <= Probes(actions)
    requires Opens(actions) !! Probes(actions)
    requires Done(actions, Opens(rest) + Probes(rest), outs, stopped, s, s', f, f')
    ensures forall s'', f'' :: Did(rest[0], outs(rest[0].udid), stopped, s', s'', f', f'') ==>
              Done(actions, Opens(rest[1..]) + Probes(rest[1..]), outs, stopped, s, s'', f, f'')
  {
    Behead(rest);
    var act, left, left' := rest[0], Opens(rest) + Probes(rest), Opens(rest[1..]) + Probes(rest[1..]);
    forall s'', f'' | Did(act, outs(act.udid), stopped, s', s'', f', f'')
      ensures Done(actions, left', outs, stopped, s, s'', f, f'')
    {
      forall u | u in s
        ensures Outcomes(u in Opens(actions) && u !in left', u in Probes(actions) && u !in left',
                         outs(u), stopped, s[u], s''[u], f[u], f''[u])
      {
        assert Outcomes(u in Opens(actions) && u !in left, u in Probes(actions) && u !in left,
                        outs(u), stopped, s[u], s'[u], f[u], f'[u]);
      }
    }
  }

  lemma OpensApart(actions: seq<Action>)
    requires Orderly(actions)
    ensures Opens(actions) !! Probes(actions)
  {
  }

  function Result(st: LanState, opens: bool, probes: bool, out: Outcome, stopped: bool): LanState
  {
    if opens then Opened(st, out, stopped) else if probes then Probed(st, out) else st
  }

  /** After i devices, the actions are the pruned drops and what was decided for those devices. */
  ghost predicate Sorted(targets: seq<string>, acts: seq<Option<Action>>, pruned: set<string>, actions: seq<Action>,
                         i: nat)
    requires i <= |targets| == |acts|
  {
    && (forall u :: u in Drops(actions) ==> u in pruned || u in targets[..i])
    && (forall u :: u in Probes(actions) ==> u in targets[..i])
    && (forall u :: u in Opens(actions) ==> u in targets[..i])
    && (forall u :: u in pruned ==> u in Drops(actions))
    && (forall k :: 0 <= k < i ==> Listed(targets[k], acts[k], pruned, actions))
  }

  ghost predicate Listed(u: string, act: Option<Action>, pruned: set<string>, actions: seq<Action>)
  {
    && (u in Drops(actions) <==> u in pruned || act == Some(Drop(u)))
    && (u in Probes(actions) <==> act == Some(Probe(u)))
    && (u in Opens(actions) <==> act == Some(Open(u)))
  }

  lemma OrderlyNext(actions: seq<Action>, act: Action)
    requires Orderly(actions) && act.udid !in Probes(actions) && act.udid !in Opens(actions)
    requires act.udid in Drops(actions) ==> act.Open?
    ensures Orderly(actions + [act])
  {
    forall k | 0 <= k < |actions| && actions[k].udid == act.udid
      ensures actions[k].Drop? && act.Open?
    {
      assert actions[k].Probe? ==> act.udid in Probes(actions);
      assert actions[k].Open? ==> act.udid in Opens(actions);
      assert actions[k].Drop? ==> act.udid in Drops(actions);
    }
  }

  /** act is a decision for u that respects the drop already listed for it. */
  ghost predicate Suits(u: string, act: Option<Action>, pruned: set<string>)
  {
    act.Some? ==> act.value.udid == u && (u in pruned ==> act.value.Open?)
  }

  lemma SortedNext(targets: seq<string>, acts: seq<Option<Action>>, pruned: set<string>, actions: seq<Action>, i: nat)
    requires Distinct(targets) && i < |targets| == |acts| && Sorted(targets, acts, pruned, actions, i) &&
             Orderly(actions)
    requires Suits(targets[i], acts[i], pruned)
    ensures var actions' := if acts[i].Some? then actions + [acts[i].value] else actions;
      Sorted(targets, acts, pruned, actions', i + 1) && Orderly(actions')
  {
    var u, act := targets[i], acts[i];
    assert targets[..i + 1] == targets[..i] + [u];
    assert u !in targets[..i];
    if act.Some? {
      Append(actions, act.value);
      OrderlyNext(actions, act.value);
    }
    var actions' := if act.Some? then actions + [act.value] else actions;
    forall k | 0 <= k < i + 1
      ensures Listed(targets[k], acts[k], pruned, actions')
    {
      if k < i {
        assert targets[k] != u && Listed(targets[k], acts[k], pruned, actions);
      }
    }
  }
}
