/** Revisions identify inventory views: what every run keeps, and exactly when. */
module DeviceInventorySafety {
  import opened Text
  import opened DeviceInventory

  // ---------------------------------------------------------------- keys and separators

  /** A separator after separator-free heads splits a text in one way. */
  lemma PipeSplit(a: string, x: string, b: string, y: string)
    requires PipeFree(a) && PipeFree(b) && a + "|" + x == b + "|" + y
    ensures a == b && x == y
  {
    var s, t := a + "|" + x, b + "|" + y;
    assert s[|a|] == '|' && t[|b|] == '|';
    assert forall i :: 0 <= i < |a| ==> s[i] == a[i] && a[i] != '|';
    assert forall i :: 0 <= i < |b| ==> t[i] == b[i] && b[i] != '|';
    assert |a| == |b|;
    assert a == s[..|a|] && b == t[..|b|] && x == s[|a| + 1..] && y == t[|b| + 1..];
  }

  lemma DecimalPipeFree(n: nat)
    ensures PipeFree(Decimal(n))
  {
  }

  lemma DecimalInjective(m: nat, n: nat)
    requires Decimal(m) == Decimal(n)
    ensures m == n
  {
    DecimalRoundTrip(m);
    DecimalRoundTrip(n);
  }

  function Tail(w: Wda, err: string): string
  {
    w.expires + "|" + err
  }

  /** Up to the stage, the key is unambiguous as long as stages hold no separator. */
  lemma KeyHead(v: Wda, e: string, w: Wda, f: string)
    requires StateKey(v, e) == StateKey(w, f) && PipeFree(v.stage) && PipeFree(w.stage)
    ensures v.state == w.state && v.progress == w.progress && v.stage == w.stage && Tail(v, e) == Tail(w, f)
  {
    var x, y := v.stage + "|" + Tail(v, e), w.stage + "|" + Tail(w, f);
    KeyNumbers(v, w, x, y);
    PipeSplit(v.stage, Tail(v, e), w.stage, Tail(w, f));
  }

  lemma KeyNumbers(v: Wda, w: Wda, x: string, y: string)
    requires Decimal(Code(v.state)) + "|" + (Decimal(v.progress) + "|" + x) ==
             Decimal(Code(w.state)) + "|" + (Decimal(w.progress) + "|" + y)
    ensures v.state == w.state && v.progress == w.progress && x == y
  {
    DecimalPipeFree(Code(v.state));
    DecimalPipeFree(Code(w.state));
    DecimalPipeFree(v.progress);
    DecimalPipeFree(w.progress);
    PipeSplit(Decimal(Code(v.state)), Decimal(v.progress) + "|" + x, Decimal(Code(w.state)),
              Decimal(w.progress) + "|" + y);
    PipeSplit(Decimal(v.progress), x, Decimal(w.progress), y);
    DecimalInjective(Code(v.state), Code(w.state));
    DecimalInjective(v.progress, w.progress);
  }

  /** One expiry text continues another with a separator. */
  predicate Extends(a: string, b: string)
  {
    a + "|" <= b
  }

  /** Equal tails with different expiries: one expiry extends the other. */
  lemma TailClash(a: string, x: string, b: string, y: string)
    requires a + "|" + x == b + "|" + y && a != b
    ensures Extends(a, b) || Extends(b, a)
  {
    var s, t := a + "|" + x, b + "|" + y;
    assert a == s[..|a|] && b == t[..|b|];
    assert |a| != |b|;
    if |a| < |b| {
      assert s[..|a| + 1] == a + "|";
      assert b[..|a| + 1] == t[..|a| + 1];
    } else {
      assert t[..|b| + 1] == b + "|";
      assert a[..|b| + 1] == s[..|b| + 1];
    }
  }

  // ---------------------------------------------------------------- the condition

  /** No expiry the jobs report continues another one, or the empty one, with a separator. */
  ghost predicate Separate(expiries: iset<string>)
  {
    forall a, b :: (a in expiries || a == "") && b in expiries ==> !Extends(a, b)
  }

  lemma ExtendsPipe(a: string, b: string)
    requires Extends(a, b)
    ensures !PipeFree(b)
  {
    assert (a + "|")[|a|] == '|' && b[|a|] == (a + "|")[|a|];
  }

  /** Timestamps hold no separator. */
  lemma PipeFreeSeparate(expiries: iset<string>)
    requires forall e :: e in expiries ==> PipeFree(e)
    ensures Separate(expiries)
  {
    forall a, b | (a in expiries || a == "") && b in expiries
      ensures !Extends(a, b)
    {
      if Extends(a, b) {
        ExtendsPipe(a, b);
      }
    }
  }

  ghost predicate Proper(w: Wda, expiries: iset<string>)
  {
    PipeFree(w.stage) && (w.expires in expiries || w.expires == "")
  }

  /** A key that stays the same means the WDA fields did. */
  lemma KeyFaithful(v: Wda, e: string, w: Wda, f: string, expiries: iset<string>)
    requires Separate(expiries) && Proper(v, expiries) && Proper(w, expiries) && StateKey(v, e) == StateKey(w, f)
    ensures v == w && e == f
  {
    KeyHead(v, e, w, f);
    if v.expires != w.expires {
      TailClash(v.expires, e, w.expires, f);
      assert false;
    } else {
      assert Tail(v, e)[|v.expires| + 1..] == e && Tail(w, f)[|w.expires| + 1..] == f;
    }
  }

  /** The expiries a step may carry. */
  ghost predicate Allowed(step: Step, expiries: iset<string>)
  {
    step.JobResult? ==> step.expires in expiries || step.expires == ""
  }

  /** A change is marked if the server could tell. */
  ghost predicate Faithful(d: Device, c: Change, expiries: iset<string>)
  {
    c.To? ==> Proper(c.device.wda, expiries) && (c.mark || ToProto(c.device) == ToProto(d))
  }

  lemma NotedFaithful(d: Device, w: Wda, err: string, expiries: iset<string>)
    requires Separate(expiries) && Proper(d.wda, expiries) && Proper(w, expiries)
    ensures Faithful(d, Noted(d, w, err), expiries)
  {
    if StateKey(w, err) == StateKey(d.wda, d.lastError) {
      KeyFaithful(d.wda, d.lastError, w, err, expiries);
    }
  }

  predicate IsNote(step: Step)
  {
    step.JobStarted? || step.JobProgress? || step.JobResult?
  }

  lemma OtherFaithful(d: Device, step: Step, stopped: bool, expiries: iset<string>)
    requires Proper(d.wda, expiries) && !IsNote(step)
    ensures Faithful(d, ChangeOf(d, step, stopped), expiries)
  {
  }

  lemma NoteFaithful(d: Device, step: Step, stopped: bool, expiries: iset<string>)
    requires Separate(expiries) && Proper(d.wda, expiries) && Allowed(step, expiries) && IsNote(step)
    requires step.JobProgress? ==> PipeFree(step.stage)
    ensures Faithful(d, ChangeOf(d, step, stopped), expiries)
  {
    match step
    case JobStarted(_) => NotedFaithful(d, d.wda.(state := Preparing, progress := 0, stage := QUEUED), d.lastError,
                                        expiries);
    case JobProgress(_, percent, stage) => NotedFaithful(d, Progressed(d.wda, percent, stage), d.lastError, expiries);
    case JobResult(_, ok, cancelled, installed, code, message, expires) =>
      var (w, e) := Resulted(d.wda, d.lastError, d.controlOn, ok, cancelled, installed, code, message, expires);
      NotedFaithful(d, w, e, expiries);
  }

  /** Whatever a critical section does to a device, it marks if the server could tell. */
  lemma ChangeFaithful(d: Device, step: Step, stopped: bool, expiries: iset<string>)
    requires Separate(expiries) && Proper(d.wda, expiries) && Allowed(step, expiries)
    requires step.JobProgress? ==> PipeFree(step.stage)
    ensures Faithful(d, ChangeOf(d, step, stopped), expiries)
  {
    if IsNote(step) {
      NoteFaithful(d, step, stopped, expiries);
    } else {
      OtherFaithful(d, step, stopped, expiries);
    }
  }

  // ---------------------------------------------------------------- states

  ghost predicate AllProper(devices: Devices, expiries: iset<string>)
  {
    forall u :: u in devices ==> Proper(devices[u].wda, expiries)
  }

  /** The revision never goes back, and moves whenever the view does. */
  predicate Moves(s: State, s': State)
  {
    s.rev <= s'.rev && (s.rev == s'.rev ==> Taken(s').view == Taken(s).view)
  }

  /** Snapshots carry non-decreasing revisions, and equal revisions mean equal views. */
  ghost predicate Agree(snapshots: seq<Snapshot>)
  {
    forall i, j :: 0 <= i < j < |snapshots| ==>
      snapshots[i].rev <= snapshots[j].rev && (snapshots[i].rev == snapshots[j].rev ==> snapshots[i] == snapshots[j])
  }

  ghost predicate Behind(snapshots: seq<Snapshot>, now: Snapshot)
  {
    forall i :: 0 <= i < |snapshots| ==>
      snapshots[i].rev <= now.rev && (snapshots[i].rev == now.rev ==> snapshots[i] == now)
  }

  ghost predicate Inv(s: State, expiries: iset<string>)
  {
    AllProper(s.devices, expiries) && Agree(s.snapshots) && Behind(s.snapshots, Taken(s))
  }

  predicate Extended(s: State, s': State)
  {
    s'.snapshots == s.snapshots || s'.snapshots == s.snapshots + [Taken(s')]
  }

  lemma MovesKeeps(s: State, s': State, expiries: iset<string>)
    requires Inv(s, expiries) && Moves(s, s') && Extended(s, s') && AllProper(s'.devices, expiries)
    ensures Inv(s', expiries)
  {
    assert Taken(s').rev == s'.rev && Taken(s).rev == s.rev;
  }

  /** Equal protos give equal views. */
  lemma PutView(s: State, u: string, d: Device, mark: bool, report: bool)
    requires u in s.devices && (mark || ToProto(d) == ToProto(s.devices[u]))
    ensures Moves(s, Put(s, u, d, mark, report)) && Extended(s, Put(s, u, d, mark, report))
  {
    var s' := Put(s, u, d, mark, report);
    if !mark {
      assert Taken(s').view.devices == Taken(s).view.devices;
    }
  }

  /** A step moves the revision with the view, appends at most its own snapshot, and keeps
      the device records proper. */
  ghost predicate Steady(s: State, s': State, expiries: iset<string>)
  {
    Moves(s, s') && Extended(s, s') && AllProper(s'.devices, expiries)
  }

  lemma ChangedSteady(s: State, u: string, c: Change, expiries: iset<string>)
    requires AllProper(s.devices, expiries) && u in s.devices && Faithful(s.devices[u], c, expiries)
    ensures Steady(s, Changed(s, u, c), expiries)
  {
    if c.To? {
      PutView(s, u, c.device, c.mark, c.report);
    }
  }

  lemma DeviceStep(s: State, step: Step, u: string, expiries: iset<string>)
    requires Separate(expiries) && AllProper(s.devices, expiries) && u in s.devices && Allowed(step, expiries)
    requires step.JobProgress? ==> PipeFree(step.stage)
    ensures Steady(s, ApplyToDevice(s, step, u), expiries)
  {
    ChangeFaithful(s.devices[u], step, s.stopped, expiries);
    ChangedSteady(s, u, ChangeOf(s.devices[u], step, s.stopped), expiries);
  }

  // ---------------------------------------------------------------- discovery

  lemma {:induction false} UpsertFaithful(devices: Devices, list: seq<Found>, n: nat, expiries: iset<string>)
    requires n <= |list| && AllProper(devices, expiries)
    ensures var (ds, changed) := UpsertAll(devices, list, n);
      AllProper(ds, expiries) && (changed || ds == devices)
  {
    if n > 0 {
      UpsertFaithful(devices, list, n - 1, expiries);
    }
  }

  lemma SettledProper(d: Device, seen: bool, badges: (string, int) -> Badge, expiries: iset<string>)
    requires Proper(d.wda, expiries)
    ensures Proper(Settled(d, seen, badges).wda, expiries)
    ensures AgedTo(d, badges).None? && (seen || !d.present) ==> Settled(d, seen, badges) == d
  {
  }

  lemma DiscoverFaithful(s: State, list: seq<Found>, badges: (string, int) -> Badge, expiries: iset<string>)
    requires AllProper(s.devices, expiries)
    ensures Steady(s, ApplyDiscover(s, list, badges), expiries)
  {
    var s', ds := ApplyDiscover(s, list, badges), UpsertAll(s.devices, list, |list|).0;
    UpsertFaithful(s.devices, list, |list|, expiries);
    forall u | u in ds
      ensures Proper(s'.devices[u].wda, expiries)
      ensures AgedTo(ds[u], badges).None? && (u in Seen(list) || !ds[u].present) ==> s'.devices[u] == ds[u]
    {
      SettledProper(ds[u], u in Seen(list), badges, expiries);
    }
    if s'.rev == s.rev {
      assert s'.devices == s.devices;
    }
  }

  lemma StepFaithful(s: State, step: Step, expiries: iset<string>)
    requires Separate(expiries) && AllProper(s.devices, expiries) && Enabled(s, step) && Allowed(step, expiries)
    ensures Steady(s, Apply(s, step), expiries)
  {
    match step
    case Discover(list, badges) => DiscoverFaithful(s, list, badges, expiries);
    case ScanFailed(_) =>
    case StreamLost(_) =>
    case TakeSnapshot =>
    case StopAll =>
    case _ =>
      if step.udid in s.devices {
        DeviceStep(s, step, step.udid, expiries);
      }
  }

  lemma InvStep(s: State, step: Step, expiries: iset<string>)
    requires Separate(expiries) && Inv(s, expiries) && Enabled(s, step) && Allowed(step, expiries)
    ensures Inv(Apply(s, step), expiries)
  {
    StepFaithful(s, step, expiries);
    MovesKeeps(s, Apply(s, step), expiries);
  }

  // ---------------------------------------------------------------- runs

  /** Devices adopted from the configuration, before anything ran. */
  predicate Initial(s: State)
  {
    && s.rev == 0 && s.enumerateError == "" && s.snapshots == [] && !s.stopped
    && forall u :: u in s.devices ==> Adopted(s.devices[u])
  }

  /** adoptConfiguredDevices. */
  predicate Adopted(d: Device)
  {
    d == BLANK.(info := BLANK.info.(name := d.info.name),
                account := BLANK.account.(claimed := d.local.credential != "", bundle := d.account.bundle),
                local := BLANK.local.(credential := d.local.credential))
  }

  ghost predicate ValidRun(s: State, steps: seq<Step>, expiries: iset<string>)
    decreases |steps|
  {
    steps == [] || (Enabled(s, steps[0]) && Allowed(steps[0], expiries) &&
                    ValidRun(Apply(s, steps[0]), steps[1..], expiries))
  }

  ghost function Exec(s: State, steps: seq<Step>, expiries: iset<string>): State
    requires ValidRun(s, steps, expiries)
    decreases |steps|
  {
    if steps == [] then s else Exec(Apply(s, steps[0]), steps[1..], expiries)
  }

  ghost predicate Reachable(s: State, expiries: iset<string>)
  {
    exists s0, steps :: Initial(s0) && ValidRun(s0, steps, expiries) && Exec(s0, steps, expiries) == s
  }

  lemma {:induction false} InvRun(s: State, steps: seq<Step>, expiries: iset<string>)
    requires Separate(expiries) && Inv(s, expiries) && ValidRun(s, steps, expiries)
    ensures Inv(Exec(s, steps, expiries), expiries)
    decreases |steps|
  {
    if steps != [] {
      InvStep(s, steps[0], expiries);
      InvRun(Apply(s, steps[0]), steps[1..], expiries);
    }
  }

  lemma InvReachable(s: State, expiries: iset<string>)
    requires Separate(expiries) && Reachable(s, expiries)
    ensures Inv(s, expiries)
  {
    var s0, steps :| Initial(s0) && ValidRun(s0, steps, expiries) && Exec(s0, steps, expiries) == s;
    assert Inv(s0, expiries);
    InvRun(s0, steps, expiries);
  }

  // ---------------------------------------------------------------- the converse

  lemma {:induction false} ExecAppend(s: State, steps: seq<Step>, step: Step, expiries: iset<string>)
    requires ValidRun(s, steps, expiries) && Enabled(Exec(s, steps, expiries), step) && Allowed(step, expiries)
    ensures ValidRun(s, steps + [step], expiries)
    ensures Exec(s, steps + [step], expiries) == Apply(Exec(s, steps, expiries), step)
    decreases |steps|
  {
    if steps == [] {
      assert [step][1..] == [];
    } else {
      assert (steps + [step])[1..] == steps[1..] + [step];
      ExecAppend(Apply(s, steps[0]), steps[1..], step, expiries);
    }
  }

  lemma ReachNext(s: State, step: Step, expiries: iset<string>) returns (s': State)
    requires Reachable(s, expiries) && Enabled(s, step) && Allowed(step, expiries)
    ensures s' == Apply(s, step) && Reachable(s', expiries)
  {
    var s0, steps :| Initial(s0) && ValidRun(s0, steps, expiries) && Exec(s0, steps, expiries) == s;
    ExecAppend(s0, steps, step, expiries);
    s' := Apply(s, step);
  }

  /** One adopted device, just started. */
  function Fresh(): State
  {
    State(map["u" := BLANK.(account := BLANK.account.(claimed := true), local := BLANK.local.(credential := "c"))],
          0, "", [], false)
  }

  lemma FreshReachable(expiries: iset<string>)
    ensures Reachable(Fresh(), expiries)
  {
    assert Initial(Fresh()) && ValidRun(Fresh(), [], expiries) && Exec(Fresh(), [], expiries) == Fresh();
  }

  lemma ResultOn(s: State, u: string, a: string)
    requires u in s.devices && !s.devices[u].controlOn
    ensures var d, s' := s.devices[u], Apply(s, JobResult(u, true, false, true, "", "", a));
      && s'.devices == s.devices[u := d.(wda := Wda(Installed, if a != "" then a else d.wda.expires, 0, ""),
                                         lastError := "")]
      && s'.stopped == s.stopped
  {
  }

  lemma EndOn(s: State, u: string, r: string)
    requires u in s.devices && s.devices[u].local.loops > 0
    ensures var d, s' := s.devices[u], Apply(s, LoopEnded(u, Some(r)));
      && s'.devices == s.devices[u := d.(local := d.local.(loops := d.local.loops - 1), controlOn := false,
                                         lastError := r)]
      && s'.stopped == s.stopped && s'.snapshots != [] && s'.snapshots[|s'.snapshots| - 1] == Taken(s')
  {
  }

  /** An installed runner with expiry a whose loop then failed with the text r. */
  lemma InstalledThenFailed(a: string, r: string, expiries: iset<string>) returns (s: State)
    requires a in expiries || a == ""
    ensures Reachable(s, expiries) && s.devices.Keys == {"u"} && !s.stopped
    ensures s.devices["u"].wda == Wda(Installed, a, 0, "") && s.devices["u"].lastError == r && !s.devices["u"].controlOn
    ensures s.snapshots != [] && s.snapshots[|s.snapshots| - 1] == Taken(s)
  {
    FreshReachable(expiries);
    var s1 := ReachNext(Fresh(), StartClaimed("u"), expiries);
    assert s1.devices.Keys == {"u"} && s1.devices["u"].local.loops == 1 && s1.devices["u"].wda.expires == "" &&
        !s1.devices["u"].controlOn;
    s := FailAfter(s1, a, r, expiries);
  }

  lemma ReachResult(s: State, u: string, a: string, expiries: iset<string>) returns (s': State)
    requires Reachable(s, expiries) && (a in expiries || a == "") && u in s.devices && !s.devices[u].controlOn
    ensures Reachable(s', expiries) && s'.stopped == s.stopped
    ensures var d := s.devices[u];
      s'.devices == s.devices[u := d.(wda := Wda(Installed, if a != "" then a else d.wda.expires, 0, ""),
                                      lastError := "")]
  {
    ResultOn(s, u, a);
    s' := ReachNext(s, JobResult(u, true, false, true, "", "", a), expiries);
  }

  lemma ReachEnd(s: State, u: string, r: string, expiries: iset<string>) returns (s': State)
    requires Reachable(s, expiries) && u in s.devices && s.devices[u].local.loops > 0
    ensures Reachable(s', expiries) && s'.stopped == s.stopped
    ensures var d := s.devices[u];
      s'.devices == s.devices[u := d.(local := d.local.(loops := d.local.loops - 1), controlOn := false,
                                      lastError := r)]
    ensures s'.snapshots != [] && s'.snapshots[|s'.snapshots| - 1] == Taken(s')
  {
    EndOn(s, u, r);
    s' := ReachNext(s, LoopEnded(u, Some(r)), expiries);
  }

  lemma FailAfter(s1: State, a: string, r: string, expiries: iset<string>) returns (s: State)
    requires Reachable(s1, expiries) && (a in expiries || a == "") && s1.devices.Keys == {"u"} && !s1.stopped
    requires s1.devices["u"].local.loops == 1 && s1.devices["u"].wda.expires == "" && !s1.devices["u"].controlOn
    ensures Reachable(s, expiries) && s.devices.Keys == {"u"} && !s.stopped
    ensures s.devices["u"].wda == Wda(Installed, a, 0, "") && s.devices["u"].lastError == r && !s.devices["u"].controlOn
    ensures s.snapshots != [] && s.snapshots[|s.snapshots| - 1] == Taken(s)
  {
    s := ReachResult(s1, "u", a, expiries);
    s := ReachEnd(s, "u", r, expiries);
  }

  lemma SameKey(a: string, z: string, b: string)
    requires b == a + "|" + z
    ensures StateKey(Wda(Installed, b, 0, ""), "") == StateKey(Wda(Installed, a, 0, ""), z + "|")
  {
    assert b + "|" + "" == a + "|" + (z + "|");
  }

  lemma RenewedSilently(s: State, a: string, z: string, b: string)
    requires "u" in s.devices && b == a + "|" + z && !s.devices["u"].controlOn
    requires s.devices["u"].wda == Wda(Installed, a, 0, "") && s.devices["u"].lastError == z + "|"
    ensures var s' := Apply(s, JobResult("u", true, false, true, "", "", b));
      s'.rev == s.rev && s'.snapshots == s.snapshots && "u" in s'.devices && s'.devices["u"].wda.expires == b
  {
    SameKey(a, z, b);
  }

  lemma TwoViews(s: State, t: State, u: string)
    requires u in s.devices && u in t.devices && s.devices[u].wda.expires != t.devices[u].wda.expires
    ensures Taken(s).view != Taken(t).view
  {
    assert Taken(s).view.devices[u].wda != Taken(t).view.devices[u].wda;
  }

  lemma Disagree(s0: State, s1: State, expiries: iset<string>) returns (s: State)
    requires Reachable(s1, expiries) && s1.rev == s0.rev && s1.snapshots == s0.snapshots &&
             Taken(s1).view != Taken(s0).view
    requires s0.snapshots != [] && s0.snapshots[|s0.snapshots| - 1] == Taken(s0)
    ensures Reachable(s, expiries) && !Agree(s.snapshots)
  {
    s := ReachNext(s1, TakeSnapshot, expiries);
    var n := |s0.snapshots|;
    assert s.snapshots[n - 1] == Taken(s0) && s.snapshots[n] == Taken(s1);
  }

  lemma RenewReached(s0: State, a: string, z: string, b: string, expiries: iset<string>) returns (s: State)
    requires Reachable(s0, expiries) && b in expiries && b == a + "|" + z && s0.devices.Keys == {"u"} &&
             !s0.devices["u"].controlOn
    requires s0.devices["u"].wda == Wda(Installed, a, 0, "") && s0.devices["u"].lastError == z + "|"
    ensures Reachable(s, expiries) && s.rev == s0.rev && s.snapshots == s0.snapshots && Taken(s).view != Taken(s0).view
  {
    RenewedSilently(s0, a, z, b);
    s := ReachNext(s0, JobResult("u", true, false, true, "", "", b), expiries);
    assert |a| != |b|;
    TwoViews(s0, s, "u");
  }

  /** A renewal whose expiry swallows the old expiry and the error text goes unnoticed. */
  lemma SilentRenewal(a: string, b: string, expiries: iset<string>) returns (s: State)
    requires (a in expiries || a == "") && b in expiries && Extends(a, b)
    ensures Reachable(s, expiries) && !Agree(s.snapshots)
  {
    var z := b[|a| + 1..];
    assert b == a + "|" + z;
    var s0 := InstalledThenFailed(a, z + "|", expiries);
    var s1 := RenewReached(s0, a, z, b, expiries);
    s := Disagree(s0, s1, expiries);
  }

  /** In every run, snapshots carry non-decreasing revisions and equal revisions mean equal
      inventories, exactly when no expiry text continues another (or the empty one) with the
      key's separator. */
  lemma RevisionsIdentifyExactly(expiries: iset<string>)
    ensures (forall s :: Reachable(s, expiries) ==> Agree(s.snapshots)) <==> Separate(expiries)
  {
    if Separate(expiries) {
      forall s | Reachable(s, expiries)
        ensures Agree(s.snapshots)
      {
        InvReachable(s, expiries);
      }
    } else {
      var a, b :| (a in expiries || a == "") && b in expiries && Extends(a, b);
      var s := SilentRenewal(a, b, expiries);
    }
  }

  /** Expiries are timestamps, so the shipped manager has the property. */
  lemma ShippedRevisions(s: State, expiries: iset<string>)
    requires Reachable(s, expiries) && forall e :: e in expiries ==> PipeFree(e)
    ensures Agree(s.snapshots) && Behind(s.snapshots, Taken(s))
  {
    PipeFreeSeparate(expiries);
    InvReachable(s, expiries);
  }

  /** Any one step that changes what the server would see moves the revision forward. */
  lemma StepMoves(s: State, step: Step, expiries: iset<string>)
    requires Separate(expiries) && Reachable(s, expiries) && Enabled(s, step) && Allowed(step, expiries)
    ensures s.rev <= Apply(s, step).rev
    ensures Taken(Apply(s, step)).view != Taken(s).view ==> s.rev < Apply(s, step).rev
  {
    InvReachable(s, expiries);
    StepFaithful(s, step, expiries);
  }

  // ---------------------------------------------------------------- what each critical section keeps

  predicate Capped(devices: Devices)
  {
    forall u :: u in devices ==> devices[u].wda.progress <= 100
  }

  /** The manager's invariant. Revisions identify views as long as the expiries are separate. */
  ghost predicate Sound(s: State, expiries: iset<string>)
  {
    Capped(s.devices) && (Separate(expiries) ==> Inv(s, expiries))
  }

  /** From one critical section to the next: nothing sent is taken back, the revision moves
      whenever the view does, and all snapshots still agree. */
  ghost predicate Advances(s: State, s': State, expiries: iset<string>)
  {
    && s.rev <= s'.rev && s.snapshots <= s'.snapshots
    && (Separate(expiries) ==> Agree(s'.snapshots) && (Taken(s').view != Taken(s).view ==> s.rev < s'.rev))
  }

  lemma ChangeCapped(d: Device, step: Step, stopped: bool)
    requires d.wda.progress <= 100
    ensures var c := ChangeOf(d, step, stopped); c.To? ==> c.device.wda.progress <= 100
  {
  }

  lemma {:induction false} UpsertCapped(devices: Devices, list: seq<Found>, n: nat)
    requires n <= |list| && Capped(devices)
    ensures Capped(UpsertAll(devices, list, n).0)
  {
    if n > 0 {
      UpsertCapped(devices, list, n - 1);
    }
  }

  lemma DiscoverCapped(s: State, list: seq<Found>, badges: (string, int) -> Badge)
    requires Capped(s.devices)
    ensures Capped(ApplyDiscover(s, list, badges).devices)
  {
    UpsertCapped(s.devices, list, |list|);
  }

  lemma ChangedCapped(s: State, u: string, c: Change)
    requires Capped(s.devices) && (c.To? ==> c.device.wda.progress <= 100)
    ensures Capped(Changed(s, u, c).devices)
  {
  }

  lemma DeviceCapped(s: State, step: Step, u: string)
    requires Capped(s.devices) && u in s.devices
    ensures Capped(ApplyToDevice(s, step, u).devices)
  {
    ChangeCapped(s.devices[u], step, s.stopped);
    ChangedCapped(s, u, ChangeOf(s.devices[u], step, s.stopped));
  }

  lemma StepCapped(s: State, step: Step)
    requires Capped(s.devices) && Enabled(s, step)
    ensures Capped(Apply(s, step).devices)
  {
    match step
    case Discover(list, badges) => DiscoverCapped(s, list, badges);
    case ScanFailed(_) =>
    case StreamLost(_) =>
    case TakeSnapshot =>
    case StopAll =>
    case _ =>
      if step.udid in s.devices {
        DeviceCapped(s, step, step.udid);
      }
  }

  lemma StepForward(s: State, step: Step)
    requires Enabled(s, step)
    ensures s.rev <= Apply(s, step).rev && s.snapshots <= Apply(s, step).snapshots
  {
  }

  lemma StepSound(s: State, step: Step, expiries: iset<string>)
    requires Sound(s, expiries) && Enabled(s, step) && Allowed(step, expiries)
    ensures Sound(Apply(s, step), expiries) && Advances(s, Apply(s, step), expiries)
  {
    StepCapped(s, step);
    StepForward(s, step);
    if Separate(expiries) {
      StepFaithful(s, step, expiries);
      MovesKeeps(s, Apply(s, step), expiries);
    }
  }

  /** No device but u differs, and none is added or lost. */
  predicate Only(s: State, s': State, u: string)
  {
    s'.devices.Keys == s.devices.Keys && forall v :: v in s.devices && v != u ==> s'.devices[v] == s.devices[v]
  }

  lemma PutOnly(s: State, u: string, d: Device, mark: bool, report: bool)
    requires u in s.devices
    ensures Only(s, Put(s, u, d, mark, report), u)
  {
  }

  /** Progress leaves the badge's state; without a running job it is lost on the device. */
  lemma ProgressMeans(s: State, u: string, percent: int, stage: string)
    requires PipeFree(stage) && u in s.devices && Capped(s.devices)
    ensures var w, w' := s.devices[u].wda, Progressed(s.devices[u].wda, percent, stage);
      && w'.state == w.state && w'.progress <= 100 && w'.expires == w.expires
      && (w.state == Preparing ==>
            && (0 <= percent <= 100 ==> w'.progress == percent) && (percent < 0 ==> w'.progress == 0)
            && (percent > 100 ==> w'.progress == 100) && w'.stage == if stage != "" then stage else w.stage)
    ensures s.devices[u].wda.state != Preparing ==> Apply(s, JobProgress(u, percent, stage)) == s
  {
  }

  /** What a job's result means for the record. */
  predicate ResultShown(before: Wda, w: Wda, controlOn: bool, ok: bool, cancelled: bool, installed: bool,
                        expires: string)
  {
    && w.state != Preparing && w.progress == 0 && w.stage == ""
    && (w.state == Failed <==> if cancelled then before.state == Failed else !ok && !installed)
    && (!cancelled && (ok || installed) ==> w.state == if controlOn then Ready else Installed)
    && (cancelled ==> w.state == if before.state == Preparing then Missing else before.state)
    && (w.expires != before.expires ==> w.expires == expires != "" && !cancelled && (ok || installed))
    && (!cancelled && (ok || installed) && expires != "" ==> w.expires == expires)
  }

  /** And for the reason shown beside it: success clears it, cancellation leaves it, a failure
      shows the message, or else the code. */
  predicate ReasonShown(before: string, after: string, ok: bool, cancelled: bool, code: string, message: string)
  {
    && (cancelled ==> after == before)
    && (!cancelled && ok ==> after == "")
    && (!cancelled && !ok ==>
          after == if message != "" then message else if code != "" then code else before)
  }

  lemma ResultMeans(w: Wda, lastError: string, controlOn: bool, ok: bool, cancelled: bool, installed: bool,
                    code: string, message: string, expires: string)
    ensures var w' := Resulted(w, lastError, controlOn, ok, cancelled, installed, code, message, expires).0;
      ResultShown(w, w', controlOn, ok, cancelled, installed, expires)
    ensures var e' := Resulted(w, lastError, controlOn, ok, cancelled, installed, code, message, expires).1;
      ReasonShown(lastError, e', ok, cancelled, code, message)
  {
  }

  /** While a cable reaches the device, losing the network does not show. */
  lemma LanMeans(s: State, u: string, on: bool)
    requires u in s.devices
    ensures var s' := Apply(s, LanReachable(u, on));
      && Only(s, s', u) && s'.devices[u].lanOn == on && s'.devices[u].present == s.devices[u].present
      && ToProto(s'.devices[u]).present == (s.devices[u].present || on)
      && ToProto(s'.devices[u]).connection ==
           (if on && !s.devices[u].present then Network else s.devices[u].connection)
      && (on && !s.devices[u].lanOn ==> s'.devices[u].lastError == "" && s'.rev > s.rev)
      && (!on && s.devices[u].present ==> Taken(s') == Taken(s))
  {
    var s' := Apply(s, LanReachable(u, on));
    if !on && s.devices[u].present {
      assert Taken(s').view.devices == Taken(s).view.devices;
    }
  }

  lemma ReachableClears(s: State, u: string)
    requires u in s.devices && !s.devices[u].lanOn
    ensures var s' := Apply(s, LanReachable(u, true)); u in s'.devices && s'.devices[u].lastError == ""
  {
  }

  lemma PairingShows(s: State, u: string)
    requires u in s.devices && !s.devices[u].lanOn
    ensures var s' := Apply(s, LanPairing(u));
      Only(s, s', u) && !s'.devices[u].lanOn && s'.devices[u].lastError == LAN_PAIRING_HINT
  {
  }

  lemma PairingMeans(s: State, u: string)
    requires u in s.devices && !s.devices[u].lanOn
    ensures var s' := Apply(s, LanPairing(u));
      && Only(s, s', u) && s'.devices[u].lastError == LAN_PAIRING_HINT
      && Apply(s', LanReachable(u, true)).devices[u].lastError == ""
  {
    PairingShows(s, u);
    ReachableClears(Apply(s, LanPairing(u)), u);
  }

  lemma LinkMeans(s: State, u: string, online: bool)
    requires Enabled(s, LinkState(u, online))
    ensures var s' := Apply(s, LinkState(u, online));
      && Only(s, s', u) && s'.devices[u].controlOn == online
      && (s'.devices[u].wda.state == Preparing <==> s.devices[u].wda.state == Preparing)
      && (s'.rev != s.rev && s'.devices[u].wda.state != Preparing ==> (s'.devices[u].wda.state == Ready <==> online))
      && (s'.devices[u].wda.state != s.devices[u].wda.state ==> s'.devices[u].wda.state in {Ready, Installed})
      && (s'.devices[u].lastError == if online && s'.rev != s.rev && s'.devices[u].wda.state != Preparing then ""
                                     else s.devices[u].lastError)
  {
  }

  /** A push that is applied: its settings are in force, blanks keep what was there, and a
      running loop is stopped exactly for a setting that differs. */
  predicate ConfigShown(before: Device, after: Device, revision: int, bundle: string, otherChange: bool, renewDays: int)
  {
    var differs := otherChange || bundle !in ["", before.account.bundle];
    && after.account == before.account.(revision := revision,
                                        bundle := if bundle == "" then before.account.bundle else bundle)
    && (renewDays > 0 ==> after.local.renewDays == renewDays)
    && (renewDays <= 0 && before.local.renewDays > 0 ==> after.local.renewDays == before.local.renewDays)
    && (renewDays <= 0 && before.local.renewDays <= 0 ==> after.local.renewDays == 14)
    && (after.local.running <==> before.local.running && !differs)
    && after.wda == before.wda && after.controlOn == before.controlOn && after.info == before.info
  }

  lemma ConfigMeans(d: Device, revision: int, bundle: string, otherChange: bool, renewDays: int)
    ensures ConfigShown(d, Configured(d, revision, bundle, otherChange, renewDays), revision, bundle, otherChange,
                        renewDays)
  {
  }

  lemma AttachSilent(s: State, u: string)
    ensures Taken(Apply(s, Attach(u))) == Taken(s)
  {
    if u in s.devices {
      assert Taken(Apply(s, Attach(u))).view.devices == Taken(s).view.devices;
    }
  }

  /** The revision moves and a snapshot goes out if and only if the view changes. */
  predicate ToldExactly(s: State, s': State)
  {
    if Taken(s').view == Taken(s).view then s'.rev == s.rev && s'.snapshots == s.snapshots
    else s'.rev == s.rev + 1 && s'.snapshots == s.snapshots + [Taken(s')]
  }

  function NotedOn(s: State, u: string, w: Wda, lastError: string): State
    requires u in s.devices
  {
    var c := Noted(s.devices[u], w, lastError);
    Put(s, u, c.device, c.mark, c.report)
  }

  lemma NotedTold(s: State, u: string, w: Wda, lastError: string, expiries: iset<string>)
    requires u in s.devices && Separate(expiries) && Proper(s.devices[u].wda, expiries) && Proper(w, expiries)
    ensures ToldExactly(s, NotedOn(s, u, w, lastError))
  {
    var d, s' := s.devices[u], NotedOn(s, u, w, lastError);
    if StateKey(w, lastError) == StateKey(d.wda, d.lastError) {
      KeyFaithful(d.wda, d.lastError, w, lastError, expiries);
      assert s'.devices == s.devices;
    } else {
      assert Taken(s').view.devices[u] != Taken(s).view.devices[u];
    }
  }

  lemma NotedSound(s: State, u: string, w: Wda, lastError: string, expiries: iset<string>)
    requires Sound(s, expiries) && u in s.devices && w.progress <= 100
    requires Separate(expiries) ==> Proper(w, expiries)
    ensures var s' := NotedOn(s, u, w, lastError);
      && Sound(s', expiries) && Advances(s, s', expiries)
      && (Separate(expiries) ==> ToldExactly(s, s'))
  {
    var s' := NotedOn(s, u, w, lastError);
    if Separate(expiries) {
      NotedTold(s, u, w, lastError, expiries);
      MovesKeeps(s, s', expiries);
    }
  }

  /** The record and error a job's start, progress or result leaves. */
  function NoteOf(d: Device, step: Step): (Wda, string)
    requires IsNote(step)
  {
    match step
    case JobStarted(_) => (d.wda.(state := Preparing, progress := 0, stage := QUEUED), d.lastError)
    case JobProgress(_, percent, stage) => (Progressed(d.wda, percent, stage), d.lastError)
    case JobResult(_, ok, cancelled, installed, code, message, expires) =>
      Resulted(d.wda, d.lastError, d.controlOn, ok, cancelled, installed, code, message, expires)
  }

  lemma NoteIs(s: State, step: Step)
    requires IsNote(step) && Enabled(s, step) && step.udid in s.devices
    ensures var (w, e) := NoteOf(s.devices[step.udid], step); Apply(s, step) == NotedOn(s, step.udid, w, e)
  {
  }

  lemma NoteProper(d: Device, step: Step, expiries: iset<string>)
    requires IsNote(step) && Allowed(step, expiries) && d.wda.progress <= 100
    requires step.JobProgress? ==> PipeFree(step.stage)
    ensures NoteOf(d, step).0.progress <= 100
    ensures Proper(d.wda, expiries) ==> Proper(NoteOf(d, step).0, expiries)
  {
  }

  lemma ResultNoted(s: State, step: Step)
    requires step.JobResult? && step.udid in s.devices
    ensures var u := step.udid;
      && u in Apply(s, step).devices
      && var d, d' := s.devices[u], Apply(s, step).devices[u];
      && ResultShown(d.wda, d'.wda, d.controlOn, step.ok, step.cancelled, step.installed, step.expires)
      && ReasonShown(d.lastError, d'.lastError, step.ok, step.cancelled, step.code, step.message)
  {
    var d := s.devices[step.udid];
    NoteIs(s, step);
    ResultMeans(d.wda, d.lastError, d.controlOn, step.ok, step.cancelled, step.installed, step.code, step.message,
                step.expires);
  }

  /** A job's frame touches its device only, and is told exactly when it shows. */
  lemma NoteSound(s: State, step: Step, expiries: iset<string>)
    requires IsNote(step) && Sound(s, expiries) && Enabled(s, step) && Allowed(step, expiries)
    ensures var s' := Apply(s, step);
      && Sound(s', expiries) && Advances(s, s', expiries) && Only(s, s', step.udid)
      && (Separate(expiries) ==> ToldExactly(s, s'))
  {
    var u := step.udid;
    if u in s.devices {
      var (w, e) := NoteOf(s.devices[u], step);
      NoteIs(s, step);
      NoteProper(s.devices[u], step, expiries);
      NotedSound(s, u, w, e, expiries);
      var c := Noted(s.devices[u], w, e);
      PutOnly(s, u, c.device, c.mark, c.report);
    }
  }

  // ---------------------------------------------------------------- configuration frames

  ghost predicate Pushes(steps: seq<Step>, revisions: iset<int>)
  {
    forall i :: 0 <= i < |steps| ==> steps[i].Configure? && steps[i].revision in revisions
  }

  /** One device after a sequence of configuration frames. */
  function Pushed(d: Device, steps: seq<Step>, stopped: bool): Device
  {
    if steps == [] then d
    else
      var d' := Pushed(d, steps[..|steps| - 1], stopped);
      match ChangeOf(d', steps[|steps| - 1], stopped) case Same => d' case To(d'', _, _) => d''
  }

  lemma {:induction false} PushedForward(d: Device, steps: seq<Step>, stopped: bool, revisions: iset<int>)
    requires Pushes(steps, revisions) && 0 !in revisions
    ensures Pushed(d, steps, stopped).account.revision >= d.account.revision
    ensures forall i :: 0 <= i < |steps| ==> Pushed(d, steps, stopped).account.revision >= steps[i].revision
    decreases |steps|
  {
    if steps != [] {
      var init := steps[..|steps| - 1];
      PushedForward(d, init, stopped, revisions);
      assert forall i :: 0 <= i < |init| ==> init[i] == steps[i];
    }
  }

  ghost predicate Forward(revisions: iset<int>)
  {
    forall d, steps, stopped :: Pushes(steps, revisions) ==>
        Pushed(d, steps, stopped).account.revision >= d.account.revision
  }

  /** Retried and reordered pushes never roll a device's configuration back, if and only if
      none of them carries revision zero. */
  lemma NoRollbackExactly(revisions: iset<int>)
    ensures Forward(revisions) <==> 0 !in revisions
  {
    if 0 in revisions {
      var d, push := BLANK.(account := BLANK.account.(revision := 1)), Configure("u", 0, "", false, 0);
      assert Pushed(d, [push][..0], false) == d;
      assert Pushes([push], revisions) && Pushed(d, [push], false).account.revision == 0;
    } else {
      forall d, steps, stopped | Pushes(steps, revisions)
        ensures Pushed(d, steps, stopped).account.revision >= d.account.revision
      {
        PushedForward(d, steps, stopped, revisions);
      }
    }
  }
}
