/** The manager object of common/ioshost/manager.go: each method is the code of one critical
    section, takes the step of the same name and keeps the manager's invariant. */
module DeviceManagerObject {
  import opened Text
  import opened DeviceInventory
  import Discovery = DeviceDiscovery
  import Safety = DeviceInventorySafety

  class DeviceManager {
    var devices: Devices
    var rev: nat
    var enumerateError: string
    var snapshots: seq<Snapshot>
    var stopped: bool
    ghost const expiries: iset<string>   // the expiries that jobs may report

    constructor (configured: Devices, ghost expiries: iset<string>)
      requires forall u :: u in configured ==> Safety.Adopted(configured[u])
      ensures Valid() && Safety.Initial(Now()) && devices == configured && this.expiries == expiries
    {
      devices, rev, enumerateError, snapshots, stopped := configured, 0, "", [], false;
      this.expiries := expiries;
    }

    function Now(): State
      reads this
    {
      State(devices, rev, enumerateError, snapshots, stopped)
    }

    /** Progress stays within bounds, and with separate expiries a revision names one view:
        all snapshots agree with each other and with the inventory. */
    ghost predicate Valid()
      reads this
    {
      Safety.Sound(Now(), expiries)
    }

    /** Since the last critical section nothing was taken back, all snapshots agree, and the
        revision moved if the view did. */
    twostate predicate Advanced()
      reads this
    {
      Safety.Advances(old(Now()), Now(), expiries)
    }

    /** The revision moved and a snapshot went out if and only if the view changed. */
    twostate predicate ToldExactly()
      reads this
    {
      Safety.Separate(expiries) ==> Safety.ToldExactly(old(Now()), Now())
    }

    /** No device but u was touched, and none was added or lost. */
    twostate predicate OnlyDevice(u: string)
      reads this
    {
      Safety.Only(old(Now()), Now(), u)
    }

    method MarkDirtyLocked()
      modifies this`rev
      ensures rev == old(rev) + 1
    {
      rev := rev + 1;
    }

    method ReportLocked()
      modifies this`snapshots
      ensures snapshots == old(snapshots) + [Taken(Now())]
    {
      snapshots := snapshots + [Snapshot(rev, ViewOf(devices, enumerateError))];
    }

    /** Store the device, move the revision, send a snapshot. */
    method PutAndReport(u: string, d: Device)
      modifies this`devices, this`rev, this`snapshots
      ensures Now() == Put(old(Now()), u, d, true, true)
    {
      devices := devices[u := d];
      MarkDirtyLocked();
      ReportLocked();
    }

    /** The snapshot sent last. */
    function Last(): Snapshot
      requires snapshots != []
      reads this
    {
      snapshots[|snapshots| - 1]
    }

    // -------------------------------------------------------------- discovery

    static method Refresh(known: Info, learnt: Info) returns (info: Info, changed: bool)
      ensures info == Refreshed(known, learnt) && (changed <==> info != known)
    {
      info, changed := known, false;
      if learnt.name != "" && info.name == "" {
        info := info.(name := learnt.name);
        changed := true;
      }
      if learnt.model != "" && learnt.model != info.model {
        info := info.(model := learnt.model);
        changed := true;
      }
      if learnt.version != "" && learnt.version != info.version {
        info := info.(version := learnt.version);
        changed := true;
      }
    }

    method UpsertLocked(f: Found) returns (changed: bool)
      modifies this`devices
      ensures var known := f.udid in old(devices);
        var d := if known then old(devices)[f.udid] else BLANK;
        devices == old(devices)[f.udid := Upserted(d, f)] && (changed <==> !known || Upserted(d, f) != d)
      ensures var before, after := Discovery.Known(old(devices), f.udid), devices[f.udid];
        && after.present && after.connection == f.connection && after.wda == before.wda
        && Discovery.SameBehind(before, after)
        && after.info.name == (if before.info.name != "" then before.info.name else f.info.name)
        && after.info.model == (if f.info.model != "" then f.info.model else before.info.model)
        && after.info.version == (if f.info.version != "" then f.info.version else before.info.version)
    {
      var known := f.udid in devices;
      var d := if known then devices[f.udid] else BLANK;
      changed := !known || !d.present;
      if f.connection != d.connection {
        changed := true;
      }
      var info, learnt := Refresh(d.info, f.info);
      changed := changed || learnt;
      devices := devices[f.udid := d.(present := true, connection := f.connection, info := info)];
    }

    method UpsertAllLocked(list: seq<Found>) returns (seen: set<string>, changed: bool)
      modifies this`devices
      ensures (devices, changed) == UpsertAll(old(devices), list, |list|) && seen == Seen(list)
    {
      seen, changed := {}, false;
      for i := 0 to |list|
        invariant (devices, changed) == UpsertAll(old(devices), list, i)
        invariant seen == Seen(list[..i])
      {
        seen := seen + {list[i].udid};
        var c := UpsertLocked(list[i]);
        changed := changed || c;
        assert Seen(list[..i + 1]) == Seen(list[..i]) + {list[i].udid} by {
          assert forall j :: 0 <= j < i ==> list[..i + 1][j] == list[..i][j];
          assert list[..i + 1][i] == list[i];
        }
      }
      assert list[..|list|] == list;
    }

    /** Devices that were not seen lose present. */
    method MarkAbsentLocked(seen: set<string>) returns (changed: bool)
      modifies this`devices
      ensures devices == Marked(old(devices), {}, seen) && (changed <==> AnyLost(old(devices), seen))
    {
      changed := false;
      var rest := devices.Keys;
      while rest != {}
        invariant rest <= old(devices).Keys && devices == Marked(old(devices), rest, seen)
        invariant changed <==> exists u :: u in old(devices) && u !in rest && u !in seen && old(devices)[u].present
        decreases |rest|
      {
        var u :| u in rest;
        MarkedNext(old(devices), rest, seen, u);
        rest := rest - {u};
        if u !in seen && devices[u].present {
          devices := devices[u := devices[u].(present := false)];
          changed := true;
        }
      }
    }

    method AgeLocked(u: string, badges: (string, int) -> Badge) returns (changed: bool)
      requires u in devices
      modifies this`devices
      ensures devices == old(devices)[u := Settled(old(devices)[u], true, badges)]
      ensures changed <==> AgedTo(old(devices)[u], badges).Some?
    {
      var d := devices[u];
      changed := false;
      if d.wda.state == Ready || d.wda.state == Installed || d.wda.state == RenewalDue {
        var window := if d.local.renewDays > 0 then d.local.renewDays else 14;
        match badges(d.wda.expires, window)
        case Past =>
          devices, changed := devices[u := d.(wda := d.wda.(state := Expired))], true;
        case InWindow =>
          devices, changed := devices[u := d.(wda := d.wda.(state := RenewalDue))], true;
        case _ =>
      }
    }

    /** The clock advances the control badge. */
    method RefreshWdaExpiryLocked(badges: (string, int) -> Badge) returns (changed: bool)
      modifies this`devices
      ensures devices == AgedAll(old(devices), {}, badges) && (changed <==> AnyAged(old(devices), badges))
    {
      changed := false;
      var rest := devices.Keys;
      while rest != {}
        invariant rest <= old(devices).Keys && devices == AgedAll(old(devices), rest, badges)
        invariant changed <==> exists u :: u in old(devices) && u !in rest && AgedTo(old(devices)[u], badges).Some?
        decreases |rest|
      {
        var u :| u in rest;
        AgedNext(old(devices), rest, badges, u);
        rest := rest - {u};
        var c := AgeLocked(u, badges);
        changed := changed || c;
      }
    }

    /** The lock-held comparison of the list with the inventory. */
    method ReconcileLocked(list: seq<Found>, badges: (string, int) -> Badge) returns (changed: bool)
      modifies this`devices
      ensures devices == SettleAll(UpsertAll(old(devices), list, |list|).0, Seen(list), badges)
      ensures changed <==>
        var (ds, upserted) := UpsertAll(old(devices), list, |list|);
        upserted || AnyLost(ds, Seen(list)) || AnyAged(ds, badges)
    {
      var seen;
      seen, changed := UpsertAllLocked(list);
      ghost var ds := devices;
      var lost := MarkAbsentLocked(seen);
      ghost var ds1 := devices;
      var aged := RefreshWdaExpiryLocked(badges);
      Composed(ds, ds1, devices, seen, badges);
      changed := changed || lost || aged;
    }

    /** The critical section of a scan. */
    method ApplyListLocked(list: seq<Found>, badges: (string, int) -> Badge)
      modifies this`devices, this`rev, this`enumerateError, this`snapshots
      ensures Now() == ApplyDiscover(old(Now()), list, badges)
    {
      var changed := ReconcileLocked(list, badges);
      if enumerateError != "" {
        enumerateError := "";
        changed := true;
      }
      if changed {
        MarkDirtyLocked();
        ReportLocked();
      }
    }

    /** A scan shows exactly the listed devices as present, refreshes what it learnt of them,
        ages the badges, and leaves claims, credentials and everything else alone. It is
        reported once, if anything changed. */
    method ApplySnapshot(list: seq<Found>, badges: (string, int) -> Badge)
      requires Valid()
      modifies this`devices, this`rev, this`enumerateError, this`snapshots
      ensures Now() == Apply(old(Now()), Discover(list, badges))
      ensures Valid() && Advanced() && enumerateError == "" && Discovery.ToldOnce(old(Now()), Now())
      ensures forall i :: 0 <= i < |list| ==> list[i].udid in devices
      ensures forall u :: u in devices ==> (devices[u].present <==> exists i :: 0 <= i < |list| && list[i].udid == u)
      ensures Discovery.Discovered(old(devices), devices, list, badges)
    {
      ghost var s := Now();
      ApplyListLocked(list, badges);
      Safety.StepSound(s, Discover(list, badges), expiries);
      Discovery.DiscoverTells(s, list, badges);
      Discovery.DiscoverShows(s, list, badges);
      Discovery.ListedArePresent(s.devices, devices, list, badges);
    }

    /** A failed scan is always reported. Repeating the same failure repeats the snapshot; a
        new one moves the revision. No device is forgotten. */
    method ScanFailure(error: string)
      requires Valid()
      modifies this`rev, this`enumerateError, this`snapshots
      ensures Now() == Apply(old(Now()), ScanFailed(error))
      ensures Valid() && Advanced()
      ensures Last().view == ViewOf(old(devices), error)
      ensures rev == old(rev) <==> error == old(enumerateError)
      ensures old(snapshots) != [] && old(Last()) == old(Taken(Now())) ==>
                (Last() == old(Last()) <==> error == old(enumerateError))
    {
      Safety.StepSound(Now(), ScanFailed(error), expiries);
      if enumerateError != error {
        enumerateError := error;
        MarkDirtyLocked();
      }
      ReportLocked();
    }

    // -------------------------------------------------------------- job and LAN write-back

    /** Only a changed text key is marked and reported. */
    method NoteWdaState(u: string, w: Wda, lastError: string)
      requires u in devices
      modifies this`devices, this`rev, this`snapshots
      ensures Now() == Safety.NotedOn(old(Now()), u, w, lastError)
    {
      var before := StateKey(devices[u].wda, devices[u].lastError);
      devices := devices[u := devices[u].(wda := w, lastError := lastError)];
      if StateKey(w, lastError) == before {
        return;
      }
      MarkDirtyLocked();
      ReportLocked();
    }

    /** The device shows a job from now on and keeps its recorded expiry. */
    method NoteWdaJobStarted(u: string)
      requires Valid()
      modifies this`devices, this`rev, this`snapshots
      ensures Now() == Apply(old(Now()), JobStarted(u))
      ensures Valid() && Advanced() && ToldExactly() && OnlyDevice(u)
      ensures u in devices ==>
                && devices[u].wda == Wda(Preparing, old(devices)[u].wda.expires, 0, "queued")
                && devices[u].lastError == old(devices)[u].lastError
    {
      Safety.NoteSound(Now(), JobStarted(u), expiries);
      if u in devices {
        Safety.NoteIs(Now(), JobStarted(u));
        NoteWdaState(u, devices[u].wda.(state := Preparing, progress := 0, stage := QUEUED), devices[u].lastError);
      }
    }

    /** The record while a job reports progress. */
    static method ProgressOf(before: Wda, percent: int, stage: string) returns (w: Wda)
      ensures w == Progressed(before, percent, stage)
    {
      w := before;
      if w.state == Preparing {
        w := w.(progress := if percent < 0 then 0 else if percent > 100 then 100 else percent);
        if stage != "" {
          w := w.(stage := stage);
        }
      }
    }

    /** Progress never changes the state of the badge, and without a running job nothing. */
    method NoteWdaJobProgress(u: string, percent: int, stage: string)
      requires Valid() && PipeFree(stage)
      modifies this`devices, this`rev, this`snapshots
      ensures Now() == Apply(old(Now()), JobProgress(u, percent, stage))
      ensures Valid() && Advanced() && ToldExactly() && OnlyDevice(u)
      ensures u in devices ==> devices[u].wda.state == old(devices)[u].wda.state && devices[u].wda.progress <= 100
      ensures u in devices && devices[u].wda.state == Preparing ==>
                && (0 <= percent <= 100 ==> devices[u].wda.progress == percent)
                && (percent < 0 ==> devices[u].wda.progress == 0) && (percent > 100 ==> devices[u].wda.progress == 100)
                && devices[u].wda.stage == if stage != "" then stage else old(devices)[u].wda.stage
      ensures u in devices && devices[u].wda.state != Preparing ==> Now() == old(Now())
    {
      Safety.NoteSound(Now(), JobProgress(u, percent, stage), expiries);
      if u in devices {
        Safety.NoteIs(Now(), JobProgress(u, percent, stage));
        Safety.ProgressMeans(Now(), u, percent, stage);
        var w := ProgressOf(devices[u].wda, percent, stage);
        NoteWdaState(u, w, devices[u].lastError);
      }
    }

    /** The record and error a job's result leaves behind. */
    static method ResultOf(before: Wda, lastError: string, controlOn: bool, ok: bool, cancelled: bool, installed: bool,
                           code: string, message: string, expires: string) returns (w: Wda, error: string)
      ensures (w, error) == Resulted(before, lastError, controlOn, ok, cancelled, installed, code, message, expires)
    {
      w, error := before.(progress := 0, stage := ""), lastError;
      if cancelled {
        if w.state == Preparing {
          w := w.(state := Missing);
        }
      } else if ok || installed {
        w := w.(state := if controlOn then Ready else Installed);
        if expires != "" {
          w := w.(expires := expires);
        }
        if ok {
          error := "";
        } else if message != "" {
          error := message;
        } else if code != "" {
          error := code;
        }
      } else {
        w := w.(state := Failed);
        if message != "" {
          error := message;
        } else if code != "" {
          error := code;
        }
      }
    }

    /** Whatever the result, the device is no longer being prepared. It fails exactly when a
        job that was not cancelled left no runner, or had failed before a cancelled one; a
        recorded expiry is never lost. */
    method NoteWdaJobResult(u: string, ok: bool, cancelled: bool, installed: bool, code: string, message: string,
                            expires: string)
      requires Valid() && (expires in expiries || expires == "")
      modifies this`devices, this`rev, this`snapshots
      ensures Now() == Apply(old(Now()), JobResult(u, ok, cancelled, installed, code, message, expires))
      ensures Valid() && Advanced() && ToldExactly() && OnlyDevice(u)
      ensures u in devices ==>
                var d, before := devices[u], old(devices)[u];
                && Safety.ResultShown(before.wda, d.wda, before.controlOn, ok, cancelled, installed, expires)
                && Safety.ReasonShown(before.lastError, d.lastError, ok, cancelled, code, message)
    {
      ghost var step := JobResult(u, ok, cancelled, installed, code, message, expires);
      Safety.NoteSound(Now(), step, expiries);
      if u in devices {
        var d := devices[u];
        Safety.NoteIs(Now(), step);
        Safety.ResultNoted(Now(), step);
        var w, error := ResultOf(d.wda, d.lastError, d.controlOn, ok, cancelled, installed, code, message, expires);
        NoteWdaState(u, w, error);
      }
    }

    /** Afterwards the device is shown exactly when a cable or the network reaches it; losing
        the network goes unsaid while a cable hides it. */
    method NoteLanReachable(u: string, on: bool)
      requires Valid()
      modifies this`devices, this`rev, this`snapshots
      ensures Now() == Apply(old(Now()), LanReachable(u, on))
      ensures Valid() && Advanced() && OnlyDevice(u)
      ensures u in devices ==>
                var d, before := devices[u], old(devices)[u];
                && d.lanOn == on && d.present == before.present && ToProto(d).present == (before.present || on)
                && ToProto(d).connection == (if on && !before.present then Network else before.connection)
                && (on && !before.lanOn ==> d.lastError == "" && rev > old(rev))
      ensures u in devices && !on && devices[u].present ==>
                Taken(Now()) == old(Taken(Now())) && snapshots == old(snapshots)
    {
      Safety.StepSound(Now(), LanReachable(u, on), expiries);
      if u in devices {
        Safety.LanMeans(Now(), u, on);
      }
      if u !in devices || devices[u].lanOn == on {
        return;
      }
      var d := devices[u].(lanOn := on);
      if !on && d.present {
        devices := devices[u := d];
        return;
      }
      if on {
        d := d.(lastError := "");
      }
      PutAndReport(u, d);
    }

    /** The hint shows exactly while the network does not reach the device, and becoming
        reachable clears it. */
    method NoteLanPairingPending(u: string)
      requires Valid()
      modifies this`devices, this`rev, this`snapshots
      ensures Now() == Apply(old(Now()), LanPairing(u))
      ensures Valid() && Advanced() && OnlyDevice(u)
      ensures u in devices && devices[u].lanOn ==> Now() == old(Now())
      ensures u in devices && !devices[u].lanOn ==>
                && devices[u].lastError == LAN_PAIRING_HINT
                && Apply(Now(), LanReachable(u, true)).devices[u].lastError == ""
    {
      Safety.StepSound(Now(), LanPairing(u), expiries);
      if u in devices && !devices[u].lanOn {
        Safety.PairingMeans(Now(), u);
      }
      if u in devices && !devices[u].lanOn {
        PutAndReport(u, devices[u].(lastError := LAN_PAIRING_HINT));
      }
    }

    // -------------------------------------------------------------- the connection loop's callbacks

    /** The shown link follows the loop. A job's badge is left alone; any other badge that a
        flip leaves behind is never Ready without a link. */
    method OnDeviceState(u: string, online: bool)
      requires Valid() && Enabled(Now(), LinkState(u, online))
      modifies this`devices, this`rev, this`snapshots
      ensures Now() == Apply(old(Now()), LinkState(u, online))
      ensures Valid() && Advanced() && OnlyDevice(u)
      ensures devices[u].controlOn == online && (rev == old(rev) <==> online == old(devices)[u].controlOn)
      ensures devices[u].wda.state == Preparing <==> old(devices)[u].wda.state == Preparing
      ensures rev != old(rev) && devices[u].wda.state != Preparing ==> (devices[u].wda.state == Ready <==> online)
      ensures devices[u].wda.state in {old(devices)[u].wda.state, Ready, Installed}
      ensures rev != old(rev) && online && devices[u].wda.state != Preparing ==> devices[u].lastError == ""
    {
      Safety.StepSound(Now(), LinkState(u, online), expiries);
      Safety.LinkMeans(Now(), u, online);
      var d := devices[u];
      if online == d.controlOn {
        return;
      }
      d := d.(controlOn := online);
      if online && d.wda.state != Preparing {
        d := d.(wda := d.wda.(state := Ready), lastError := "");
      } else if !online && d.wda.state == Ready {
        d := d.(wda := d.wda.(state := Installed));
      }
      PutAndReport(u, d);
    }

    /** A pulled cable never costs the device its claim, credential or badge; a plugged one
        is not reported before the scan that follows. */
    method OnDeviceEvent(u: string, attached: bool)
      requires Valid()
      modifies this`devices, this`rev, this`snapshots
      ensures Now() == Apply(old(Now()), if attached then Attach(u) else Detach(u))
      ensures Valid() && Advanced() && OnlyDevice(u)
      ensures u in devices ==>
                var d, before := devices[u], old(devices)[u];
                && d.account == before.account && d.wda == before.wda && d.local.credential == before.local.credential
                && (!attached ==> !d.present && d.local == before.local && (before.present ==> !d.controlOn))
                && (attached ==> !d.local.userStopped && d.present == before.present)
      ensures attached ==> Taken(Now()) == old(Taken(Now())) && snapshots == old(snapshots)
    {
      Safety.StepSound(Now(), if attached then Attach(u) else Detach(u), expiries);
      Safety.AttachSilent(Now(), u);
      if u in devices {
        if attached {
          devices := devices[u := devices[u].(local := devices[u].local.(userStopped := false))];
        } else if devices[u].present {
          PutAndReport(u, devices[u].(present := false, controlOn := false));
        }
      }
    }

    /** The record survives its release: unclaimed, stopped and told, its credential kept
        unless asked otherwise. */
    method ReleaseDevice(u: string, deleteCredential: bool)
      requires Valid()
      modifies this`devices, this`rev, this`snapshots
      ensures Now() == Apply(old(Now()), Release(u, deleteCredential))
      ensures Valid() && Advanced() && OnlyDevice(u)
      ensures u in devices ==>
                && !devices[u].account.claimed && !devices[u].local.running && devices[u].info == old(devices)[u].info
                && devices[u].account.deviceId == "" && !devices[u].controlOn
                && devices[u].wda == old(devices)[u].wda.(state := Unknown)
                && devices[u].local.credential == (if deleteCredential then "" else old(devices)[u].local.credential)
                && snapshots != [] && Last() == Taken(Now()) && rev > old(rev)
    {
      Safety.StepSound(Now(), Release(u, deleteCredential), expiries);
      if u !in devices {
        return;
      }
      var d := devices[u];
      d := d.(account := d.account.(claimed := false, deviceId := ""), controlOn := false,
              wda := d.wda.(state := Unknown), local := d.local.(running := false));
      if deleteCredential {
        d := d.(local := d.local.(credential := ""));
      }
      PutAndReport(u, d);
    }

    static method ConfiguredWith(before: Device, revision: int, bundle: string, otherChange: bool, renewDays: int)
      returns (d: Device)
      ensures d == Configured(before, revision, bundle, otherChange, renewDays)
    {
      var account, local, restart := before.account, before.local, otherChange;
      if bundle != "" && bundle != account.bundle {
        account := account.(bundle := bundle);
        restart := true;
      }
      if renewDays > 0 {
        local := local.(renewDays := renewDays);
      } else if local.renewDays <= 0 {
        local := local.(renewDays := 14);
      }
      account := account.(revision := revision);
      if restart && local.running {
        local := local.(running := false);
      }
      d := before.(account := account, local := local);
    }

    /** A push that is not newer changes nothing, so repeating any non-zero push is harmless;
        a runner is only stopped for a setting that differs. */
    method ConfigureDevice(u: string, revision: int, bundle: string, otherChange: bool, renewDays: int)
      requires Valid()
      modifies this`devices, this`rev
      ensures Now() == Apply(old(Now()), Configure(u, revision, bundle, otherChange, renewDays))
      ensures Valid() && Advanced() && OnlyDevice(u)
      ensures revision != 0 ==> Apply(Now(), Configure(u, revision, bundle, otherChange, renewDays)) == Now()
      ensures u in devices && revision != 0 ==>
                && devices[u].account.revision >= old(devices)[u].account.revision
                && devices[u].account.revision >= revision
      ensures u in devices && revision != 0 && revision <= old(devices)[u].account.revision ==> Now() == old(Now())
      ensures u in devices && (revision == 0 || revision > old(devices)[u].account.revision) ==>
                && Safety.ConfigShown(old(devices)[u], devices[u], revision, bundle, otherChange, renewDays)
                && rev > old(rev)
    {
      Safety.StepSound(Now(), Configure(u, revision, bundle, otherChange, renewDays), expiries);
      if u in devices {
        Safety.ConfigMeans(devices[u], revision, bundle, otherChange, renewDays);
      }
      if u in devices && (revision == 0 || revision > devices[u].account.revision) {
        var d := ConfiguredWith(devices[u], revision, bundle, otherChange, renewDays);
        devices := devices[u := d];
        MarkDirtyLocked();
      }
    }
  }

  /** Every device outside rest has had its absence marked. */
  function Marked(ds: Devices, rest: set<string>, seen: set<string>): Devices
  {
    map u | u in ds :: if u in rest then ds[u] else Present(ds[u], u in seen)
  }

  function Present(d: Device, seen: bool): Device
  {
    d.(present := d.present && seen)
  }

  lemma MarkedNext(ds: Devices, rest: set<string>, seen: set<string>, u: string)
    requires u in rest && u in ds
    ensures Marked(ds, rest, seen)[u] == ds[u]
    ensures Marked(ds, rest - {u}, seen) == Marked(ds, rest, seen)[u := Present(ds[u], u in seen)]
    ensures (u in seen || !ds[u].present) ==> Marked(ds, rest - {u}, seen) == Marked(ds, rest, seen)
  {
  }

  /** Every device outside rest has been aged. */
  function AgedAll(ds: Devices, rest: set<string>, badges: (string, int) -> Badge): Devices
  {
    map u | u in ds :: if u in rest then ds[u] else Settled(ds[u], true, badges)
  }

  lemma AgedNext(ds: Devices, rest: set<string>, badges: (string, int) -> Badge, u: string)
    requires u in rest && u in ds
    ensures AgedAll(ds, rest, badges)[u] == ds[u]
    ensures AgedAll(ds, rest - {u}, badges) == AgedAll(ds, rest, badges)[u := Settled(ds[u], true, badges)]
  {
  }

  /** Absence and ageing touch different parts of a device. */
  lemma ComposedAt(d: Device, seen: bool, badges: (string, int) -> Badge)
    ensures var d1 := Present(d, seen);
      AgedTo(d1, badges) == AgedTo(d, badges) && Settled(d1, true, badges) == Settled(d, seen, badges)
  {
  }

  lemma Composed(ds: Devices, ds1: Devices, ds2: Devices, seen: set<string>, badges: (string, int) -> Badge)
    requires ds1 == Marked(ds, {}, seen)
    requires ds2 == AgedAll(ds1, {}, badges)
    ensures ds2 == SettleAll(ds, seen, badges) && AnyAged(ds1, badges) == AnyAged(ds, badges)
  {
    forall u | u in ds
      ensures AgedTo(ds1[u], badges) == AgedTo(ds[u], badges) && ds2[u] == Settled(ds[u], u in seen, badges)
    {
      ComposedAt(ds[u], u in seen, badges);
    }
  }
}
