/** Claiming a device, controlling its connection loop and losing it again
    (common/ioshost/manager.go), across several critical sections. */
module DeviceLifecycle {
  import opened Text
  import opened DeviceInventory
  import opened Safety = DeviceInventorySafety

  // ---------------------------------------------------------------- claiming

  /** The device as the redeemed credential leaves it. */
  predicate ClaimShown(before: Device, after: Device, stopped: bool, id: string, credential: string, name: string,
                       bundle: string, revision: int)
  {
    && after.account.claimed && after.account.deviceId == id && after.account.revision == revision
    && after.account.bundle == (if bundle != "" then bundle else before.account.bundle)
    && after.info == before.info.(name := name) && after.lastError == ""
    && !after.local.claiming && after.local.credential == credential
    && (after.local.running <==> before.local.running || !stopped)
    && after.local.loops == before.local.loops + (if before.local.running || stopped then 0 else 1)
    && after.present == before.present && after.lanOn == before.lanOn && after.wda == before.wda
  }

  /** While a claim is out for pairing the device looks unchanged and cannot be claimed a
      second time, so one phone never mints two credentials. */
  lemma ClaimReserves(s: State, u: string)
    requires u in s.devices && !s.devices[u].account.claimed && !s.devices[u].local.claiming
    ensures var s1 := Apply(s, ClaimBegin(u));
      && Only(s, s1, u) && s1.devices[u].local.claiming && Taken(s1) == Taken(s) && s1.snapshots == s.snapshots
      && Apply(s1, ClaimBegin(u)) == s1
  {
    var s1 := Apply(s, ClaimBegin(u));
    assert Taken(s1).view.devices == Taken(s).view.devices;
  }

  /** A redeemed code claims the device and starts its loop; a refused one frees it for
      another try and says why. Either way the server is told. */
  lemma ClaimSettles(s: State, u: string, id: string, credential: string, name: string, bundle: string, revision: int,
                     error: string)
    requires u in s.devices && s.devices[u].local.claiming
    ensures var s1 := Apply(s, ClaimDone(u, id, credential, name, bundle, revision));
      && Only(s, s1, u) && ClaimShown(s.devices[u], s1.devices[u], s.stopped, id, credential, name, bundle, revision)
      && s1.rev == s.rev + 1 && s1.snapshots == s.snapshots + [Taken(s1)]
    ensures var s1 := Apply(s, ClaimFailed(u, error));
      && Only(s, s1, u) && !s1.devices[u].local.claiming && s1.devices[u].lastError == "pairing failed: " + error
      && s1.devices[u].account == s.devices[u].account && s1.devices[u].local.running == s.devices[u].local.running
      && s1.rev == s.rev + 1 && s1.snapshots == s.snapshots + [Taken(s1)]
  {
  }

  /** A wiped credential unclaims the device where it stands and asks for a new claim, which
      is then possible again. */
  lemma WipeAsksForClaim(s: State, u: string)
    requires Enabled(s, Wiped(u)) && !s.devices[u].local.claiming
    ensures var s1 := Apply(s, Wiped(u));
      && Only(s, s1, u) && !s1.devices[u].account.claimed && s1.devices[u].account.deviceId == ""
      && !s1.devices[u].controlOn && s1.devices[u].lastError == "credential wiped by server; re-claim required"
      && s1.rev == s.rev + 1 && s1.snapshots == s.snapshots + [Taken(s1)]
      && Apply(s1, ClaimBegin(u)).devices[u].local.claiming
  {
    var s1 := Apply(s, Wiped(u));
    ClaimReserves(s1, u);
  }

  // ---------------------------------------------------------------- the connection loop

  predicate SameClaim(before: Device, after: Device)
  {
    && after.account == before.account && after.info == before.info && after.wda == before.wda
    && after.local.credential == before.local.credential && after.present == before.present
    && after.lanOn == before.lanOn && after.lastError == before.lastError
  }

  /** STOP pins the device off and START brings it back, without touching claim, credential
      or badge; a device without a credential is refused both. */
  lemma StopThenStart(s: State, u: string)
    requires u in s.devices && s.devices[u].local.credential != "" && !s.stopped
    ensures var s1 := Apply(s, StopRunner(u, false));
      && Only(s, s1, u) && !s1.devices[u].local.running && s1.devices[u].local.userStopped && !s1.devices[u].controlOn
      && SameClaim(s.devices[u], s1.devices[u]) && s1.rev > s.rev
    ensures var s1 := Apply(s, StopRunner(u, false)); var s2 := Apply(s1, StartRunner(u));
      && Only(s, s2, u) && s2.devices[u].local.running && !s2.devices[u].local.userStopped
      && s2.devices[u].local.loops == s.devices[u].local.loops + 1
      && SameClaim(s.devices[u], s2.devices[u]) && s2.rev > s1.rev && Apply(s2, StartRunner(u)) == s2
  {
    var s1 := Apply(s, StopRunner(u, false));
    StopShown(s, u, s1);
    StartShown(s1, u, Apply(s1, StartRunner(u)));
  }

  lemma StopShown(s: State, u: string, s1: State)
    requires u in s.devices && s.devices[u].local.credential != "" && s1 == Apply(s, StopRunner(u, false))
    ensures Only(s, s1, u) && SameClaim(s.devices[u], s1.devices[u]) && s1.rev == s.rev + 1 && s1.stopped == s.stopped
    ensures var l := s1.devices[u].local;
      !l.running && l.userStopped && !s1.devices[u].controlOn && l.loops == s.devices[u].local.loops
  {
  }

  lemma StartShown(s: State, u: string, s1: State)
    requires u in s.devices && s.devices[u].local.credential != "" && !s.devices[u].local.running && !s.stopped
    requires s1 == Apply(s, StartRunner(u))
    ensures Only(s, s1, u) && SameClaim(s.devices[u], s1.devices[u]) && s1.rev == s.rev + 1
    ensures var l := s1.devices[u].local; l.running && !l.userStopped && l.loops == s.devices[u].local.loops + 1
    ensures Apply(s1, StartRunner(u)) == s1
  {
  }

  lemma RefusedWithoutCredential(s: State, u: string, restart: bool)
    requires u in s.devices && s.devices[u].local.credential == ""
    ensures Apply(s, StartRunner(u)) == s && Apply(s, StopRunner(u, restart)) == s && Apply(s, Restarted(u)) == s
  {
  }

  // ---------------------------------------------------------------- no link without a loop

  /** A device shown as controlled has a connection loop that has not ended. */
  predicate Attended(devices: Devices)
  {
    forall u :: u in devices && devices[u].controlOn ==> devices[u].local.loops > 0
  }

  lemma ChangeAttended(d: Device, step: Step, stopped: bool)
    requires d.controlOn ==> d.local.loops > 0
    requires step.LinkState? ==> d.local.loops > 0
    ensures var c := ChangeOf(d, step, stopped); c.To? && c.device.controlOn ==> c.device.local.loops > 0
  {
  }

  lemma ChangedAttended(s: State, u: string, c: Change)
    requires Attended(s.devices) && (c.To? && c.device.controlOn ==> c.device.local.loops > 0)
    ensures Attended(Changed(s, u, c).devices)
  {
  }

  lemma {:induction false} UpsertAttended(devices: Devices, list: seq<Found>, n: nat)
    requires n <= |list| && Attended(devices)
    ensures Attended(UpsertAll(devices, list, n).0)
  {
    if n > 0 {
      UpsertAttended(devices, list, n - 1);
    }
  }

  lemma DeviceAttended(s: State, step: Step, u: string)
    requires Attended(s.devices) && u in s.devices && (step.LinkState? ==> s.devices[u].local.loops > 0)
    ensures Attended(ApplyToDevice(s, step, u).devices)
  {
    ChangeAttended(s.devices[u], step, s.stopped);
    ChangedAttended(s, u, ChangeOf(s.devices[u], step, s.stopped));
  }

  lemma StepAttended(s: State, step: Step)
    requires Attended(s.devices) && Enabled(s, step)
    ensures Attended(Apply(s, step).devices)
  {
    match step
    case Discover(list, _) => UpsertAttended(s.devices, list, |list|);
    case ScanFailed(_) =>
    case StreamLost(_) =>
    case TakeSnapshot =>
    case StopAll =>
    case _ =>
      if step.udid in s.devices {
        DeviceAttended(s, step, step.udid);
      }
  }

  lemma {:induction false} RunAttended(s: State, steps: seq<Step>, expiries: iset<string>)
    requires Attended(s.devices) && ValidRun(s, steps, expiries)
    ensures Attended(Exec(s, steps, expiries).devices)
    decreases |steps|
  {
    if steps != [] {
      StepAttended(s, steps[0]);
      RunAttended(Apply(s, steps[0]), steps[1..], expiries);
    }
  }

  /** In every run: no device is shown as controlled once all of its loops have ended. */
  lemma LinkNeedsLoop(s: State, expiries: iset<string>)
    requires Reachable(s, expiries)
    ensures Attended(s.devices)
  {
    var s0, steps :| Initial(s0) && ValidRun(s0, steps, expiries) && Exec(s0, steps, expiries) == s;
    RunAttended(s0, steps, expiries);
  }
}
