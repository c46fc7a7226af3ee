/** The WDA job engine (common/ioshost/wdajob.go) and what a job's end does to its device
    (NoteWdaJobResult in common/ioshost/manager.go). The pipeline's outside world - device
    presence, Apple, the phone, cancellation - is an Env value. */
module WdaJobs {
  import opened Text
  import Inventory = DeviceInventory

  datatype Stage =
    | Queued | Downloading | VerifyingArtifact | EnablingDeveloperMode | EnsuringDevice | EnsuringBundleId
    | PreparingCertificate | CreatingProfile | SigningRunner | Installing | StartingRunner | ForwardingPort
    | WaitingReady | VerifyingControl

  datatype Terminal = Completed | Failed | Cancelled

  datatype ErrCode =
    | WorkdirFailed | ArtifactMissing | JobCancelled
    | Sha256Mismatch | DownloadFailed
    | AscUnauthorized | SigningMaterialMissing | ManualActionRequired | AscUnavailable
    | SigningFailed | InstallFailed | DeviceNotPresent
    | DeveloperModeRequired | WdaUnreachable

  /** What the engine sends upstream. */
  datatype JobFrame =
    | Event(no: nat, stage: Stage)
    | TerminalEvent(no: nat, terminal: Terminal)
    | Result(ok: bool, code: Option<ErrCode>, retryable: bool)

  /** The pipeline steps that were called, with their outcome. */
  datatype Called =
    | IsInstalled(found: Option<bool>)   // None: the lookup failed
    | Fetch(error: Option<ErrCode>)
    | EnableDeveloperMode(ok: bool)
    | PrepareSigning(error: Option<ErrCode>, presigned: bool)
    | Sign(ok: bool)
    | Install(error: Option<ErrCode>)
    | Launch(error: Option<ErrCode>)

  /** cancelled(i) is the i-th look at ctx.Err. */
  datatype Env = Env(
    workdirOk: bool, artifact: bool,
    present: bool, polls: nat, appears: bool,
    prepare: bool, installed: Option<bool>,
    fetchProgress: nat, fetch: Option<ErrCode>,
    wantDeveloperMode: bool, developerModeOk: bool,
    signingStages: seq<Stage>, signing: Option<ErrCode>, presigned: bool, signOk: bool,
    install: Option<ErrCode>,
    launchStages: seq<Stage>, launch: Option<ErrCode>,
    cancelled: nat -> bool)

  /** The failure codes each step can be classified into. */
  predicate Plausible(env: Env)
  {
    && env.fetch in {None, Some(Sha256Mismatch), Some(DownloadFailed)}
    && env.signing in {None, Some(AscUnauthorized), Some(SigningMaterialMissing), Some(ManualActionRequired),
                       Some(AscUnavailable)}
    && env.install in {None, Some(DeviceNotPresent), Some(InstallFailed)}
    && env.launch in {None, Some(DeveloperModeRequired), Some(DeviceNotPresent), Some(WdaUnreachable)}
  }

  datatype Outcome = Outcome(code: Option<ErrCode>, retryable: bool, installed: bool)

  // ---------------------------------------------------------------- reading a job's trace

  /** Progress events numbered from 1 without gaps. */
  predicate Progress(frames: seq<JobFrame>)
  {
    forall i :: 0 <= i < |frames| ==> frames[i].Event? && frames[i].no == i + 1
  }

  /** A finished job: numbered events, the terminal event last among them, then one result. */
  predicate Complete(frames: seq<JobFrame>)
  {
    var n := |frames|;
    && n >= 2
    && Progress(frames[..n - 2])
    && frames[n - 2].TerminalEvent? && frames[n - 2].no == n - 1
    && frames[n - 1].Result?
  }

  /** The runner is on the device: found there, or installed by this job. */
  predicate RunnerPresent(calls: seq<Called>)
  {
    IsInstalled(Some(true)) in calls || Install(None) in calls
  }

  predicate Tolerated(c: Called)
  {
    match c
    case IsInstalled(_) => true
    case EnableDeveloperMode(_) => true
    case Fetch(error) => error.None?
    case PrepareSigning(error, _) => error.None?
    case Sign(ok) => ok
    case Install(error) => error.None?
    case Launch(error) => error.None?
  }

  /** What must have happened before a step is called. */
  predicate MayFollow(calls: seq<Called>, c: Called)
  {
    && (calls != [] ==> Tolerated(calls[|calls| - 1]) && !calls[|calls| - 1].Launch?)
    && match c
       case PrepareSigning(_, _) => Fetch(None) in calls
       case Sign(_) => PrepareSigning(None, false) in calls
       case Install(_) => PrepareSigning(None, true) in calls || Sign(true) in calls
       case Launch(_) => RunnerPresent(calls)
       case _ => true
  }

  /** Steps run in order and the first real failure is the last call: nothing is signed
      before it is fetched, installed before it is signed, or launched before it is there. */
  predicate Ordered(calls: seq<Called>)
  {
    calls == [] || (Ordered(calls[..|calls| - 1]) && MayFollow(calls[..|calls| - 1], calls[|calls| - 1]))
  }

  lemma OrderedAppend(calls: seq<Called>, c: Called)
    requires Ordered(calls) && MayFollow(calls, c)
    ensures Ordered(calls + [c])
  {
    assert (calls + [c])[..|calls|] == calls;
  }

  /** What one more call adds to a trace. */
  predicate Grown(calls: seq<Called>, c: Called, all: seq<Called>)
  {
    && all != [] && all[|all| - 1] == c && c in all && (forall x :: x in calls ==> x in all)
    && (RunnerPresent(all) <==> RunnerPresent(calls) || c == IsInstalled(Some(true)) || c == Install(None))
    && (NotLaunched(calls) && !c.Launch? ==> NotLaunched(all))
  }

  lemma CalledAppend(calls: seq<Called>, c: Called)
    ensures Grown(calls, c, calls + [c])
  {
    assert forall x :: x in calls + [c] <==> x in calls || x == c;
  }

  predicate NotLaunched(calls: seq<Called>)
  {
    forall i :: 0 <= i < |calls| ==> !calls[i].Launch?
  }

  /** The codes a later attempt may get past. */
  predicate Retryable(code: Option<ErrCode>)
  {
    code in {Some(DownloadFailed), Some(AscUnavailable), Some(DeviceNotPresent), Some(DeveloperModeRequired),
             Some(WdaUnreachable)}
  }

  function ErrorOf(c: Called): Option<ErrCode>
  {
    match c
    case Fetch(error) => error
    case PrepareSigning(error, _) => error
    case Sign(ok) => if ok then None else Some(SigningFailed)
    case Install(error) => error
    case Launch(error) => error
    case _ => None
  }

  /** A reported failure is a cancellation, a rejected request, or the error of the last step
      called; and it is retryable by its code alone. */
  predicate Explained(out: Outcome, calls: seq<Called>)
  {
    && out.retryable == Retryable(out.code)
    && (out.code.Some? && out.code.value !in {JobCancelled, ArtifactMissing, WorkdirFailed} ==>
          calls != [] && ErrorOf(calls[|calls| - 1]) == out.code)
  }

  // ---------------------------------------------------------------- what the outside decides

  /** The first of two failures. */
  function Or(first: Option<ErrCode>, second: Option<ErrCode>): Option<ErrCode>
  {
    if first.Some? then first else second
  }

  function Unless(ok: bool, code: ErrCode): Option<ErrCode>
  {
    if ok then None else Some(code)
  }

  /** The i-th look at the context. */
  function Look(env: Env, i: nat): Option<ErrCode>
  {
    Unless(!env.cancelled(i), JobCancelled)
  }

  function InstallError(env: Env): Option<ErrCode>
  {
    Or(Look(env, 4), env.install)
  }

  /** The signing half: a presigned artifact is not signed again. */
  function SigningError(env: Env): Option<ErrCode>
  {
    Or(Look(env, 2), Or(env.signing,
       Or(if env.presigned then None else Or(Look(env, 3), Unless(env.signOk, SigningFailed)), InstallError(env))))
  }

  /** Developer mode is looked at for cancellation only: its own failure is not one. */
  function ProvisionError(env: Env): Option<ErrCode>
  {
    Or(Look(env, 0), Or(env.fetch, Or(if env.wantDeveloperMode then Look(env, 1) else None, SigningError(env))))
  }

  function LaunchError(env: Env): Option<ErrCode>
  {
    Or(Look(env, 5), env.launch)
  }

  /** A preparing job finds the runner on the device. */
  predicate FoundInstalled(env: Env)
  {
    env.prepare && env.installed == Some(true)
  }

  /** What keeps a job from a runner on the device. */
  function RunnerError(env: Env): Option<ErrCode>
  {
    Or(Unless(env.artifact, ArtifactMissing),
       Or(Unless(env.present || env.appears, JobCancelled), if FoundInstalled(env) then None else ProvisionError(env)))
  }

  /** The whole job's verdict: the failure of the first step or look that fails. */
  function JobError(env: Env): Option<ErrCode>
  {
    Or(Unless(env.workdirOk, WorkdirFailed), Or(RunnerError(env), LaunchError(env)))
  }

  /** Every step of provisioning that is reached succeeds, and none is found cancelled. */
  predicate Provisions(env: Env)
  {
    && !env.cancelled(0) && env.fetch.None? && (env.wantDeveloperMode ==> !env.cancelled(1))
    && !env.cancelled(2) && env.signing.None? && (!env.presigned ==> !env.cancelled(3) && env.signOk)
    && !env.cancelled(4) && env.install.None?
  }

  /** The device ends up with a runner. */
  predicate GetsRunner(env: Env)
  {
    env.workdirOk && env.artifact && (env.present || env.appears) && (FoundInstalled(env) || Provisions(env))
  }

  /** Provisioning is cut short by a cancelled look before any of its steps fails. */
  predicate CutShort(env: Env)
  {
    || env.cancelled(0)
    || (env.fetch.None? &&
          (|| (env.wantDeveloperMode && env.cancelled(1)) || env.cancelled(2)
           || (env.signing.None? && if env.presigned then env.cancelled(4)
                                    else env.cancelled(3) || (env.signOk && env.cancelled(4)))))
  }

  /** No error in the chain exactly when everything that is reached goes well; and a
      cancellation exactly when that is the first thing to go wrong. */
  lemma JobErrorMeans(env: Env)
    requires Plausible(env)
    ensures JobError(env).None? <==> GetsRunner(env) && !env.cancelled(5) && env.launch.None?
    ensures Or(Unless(env.workdirOk, WorkdirFailed), RunnerError(env)).None? <==> GetsRunner(env)
    ensures GetsRunner(env) ==> JobError(env) == if env.cancelled(5) then Some(JobCancelled) else env.launch
    ensures JobError(env) == Some(JobCancelled) <==>
            && env.workdirOk && env.artifact
            && (|| !(env.present || env.appears)
                || if FoundInstalled(env) || Provisions(env) then env.cancelled(5) else CutShort(env))
  {
  }

  // ---------------------------------------------------------------- one job

  class WdaJob {
    var no: nat
    var frames: seq<JobFrame>
    var calls: seq<Called>

    /** Events are numbered, steps were called in order. */
    ghost predicate Recorded()
      reads this
    {
      Progress(frames) && no == |frames| && Ordered(calls)
    }

    /** And the pipeline may go on. */
    ghost predicate Valid()
      reads this
    {
      Recorded() && NotLaunched(calls) && (calls != [] ==> Tolerated(calls[|calls| - 1]))
    }

    /** Calls one pipeline step. */
    method Perform(c: Called)
      requires Valid() && MayFollow(calls, c)
      modifies this`calls
      ensures calls == old(calls) + [c] && Recorded() && c in calls
      ensures forall x :: x in old(calls) ==> x in calls
      ensures RunnerPresent(calls) <==> RunnerPresent(old(calls)) || c == IsInstalled(Some(true)) || c == Install(None)
      ensures !c.Launch? ==> NotLaunched(calls)
      ensures Tolerated(c) && !c.Launch? ==> Valid()
    {
      ghost var all := calls + [c];
      assert Ordered(all) by {
        OrderedAppend(calls, c);
      }
      assert Grown(calls, c, all) by {
        CalledAppend(calls, c);
      }
      calls := calls + [c];
    }

    constructor ()
      ensures Valid() && frames == [] && calls == []
    {
      no, frames, calls := 0, [], [];
    }

    /** event: the next sequence number, one progress frame. */
    method Emit(stage: Stage)
      requires Valid()
      modifies this`no, this`frames
      ensures Valid() && frames == old(frames) + [Event(|old(frames)| + 1, stage)]
    {
      no := no + 1;
      frames := frames + [Event(no, stage)];
    }

    /** Several events of the stages a step reports back. */
    method EmitAll(stages: seq<Stage>)
      requires Valid()
      modifies this`no, this`frames
      ensures Valid() && |frames| == |old(frames)| + |stages| && old(frames) <= frames
      ensures forall k :: 0 <= k < |stages| ==> frames[|old(frames)| + k].stage == stages[k]
    {
      var i := 0;
      while i < |stages|
        invariant 0 <= i <= |stages| && Valid() && |frames| == |old(frames)| + i && old(frames) <= frames
        invariant forall k :: 0 <= k < i ==> frames[|old(frames)| + k].stage == stages[k]
      {
        Emit(stages[i]);
        i := i + 1;
      }
    }

    /** waitForDevice: one event when it starts waiting and one per fruitless poll. */
    method WaitForDevice(env: Env) returns (ok: bool)
      requires Valid()
      modifies this`no, this`frames
      ensures Valid() && ok == (env.present || env.appears)
    {
      if env.present {
        return true;
      }
      Emit(Queued);
      var i := 0;
      while i < env.polls
        invariant 0 <= i <= env.polls && Valid()
      {
        Emit(Queued);
        i := i + 1;
      }
      return env.appears;
    }

    /** Fetch and verify. */
    method FetchArtifact(env: Env) returns (failure: Option<Outcome>)
      requires Valid() && Plausible(env) && !RunnerPresent(calls)
      modifies this
      ensures Recorded() && !RunnerPresent(calls) && NotLaunched(calls)
      ensures failure.None? ==> Valid() && Fetch(None) in calls
      ensures failure.Some? ==>
                failure.value.code.Some? && !failure.value.installed && Explained(failure.value, calls)
      ensures Or(Look(env, 0), env.fetch) == if failure.Some? then failure.value.code else None
    {
      if env.cancelled(0) {
        return Some(Outcome(Some(JobCancelled), false, false));
      }
      Emit(Downloading);
      EmitAll(seq(env.fetchProgress, i => Downloading));
      Perform(Fetch(env.fetch));
      if env.fetch.Some? {
        return Some(Outcome(env.fetch, env.fetch == Some(DownloadFailed), false));
      }
      Emit(VerifyingArtifact);
      return None;
    }

    /** Developer Mode, if wanted; that it could not be requested is not fatal. */
    method RequestDeveloperMode(env: Env) returns (failure: Option<Outcome>)
      requires Valid() && !RunnerPresent(calls) && Fetch(None) in calls
      modifies this
      ensures Recorded() && !RunnerPresent(calls) && NotLaunched(calls)
      ensures failure.None? ==> Valid() && Fetch(None) in calls
      ensures failure.Some? ==> failure.value == Outcome(Some(JobCancelled), false, false)
      ensures failure.Some? <==> env.wantDeveloperMode && env.cancelled(1)
    {
      if env.wantDeveloperMode {
        if env.cancelled(1) {
          return Some(Outcome(Some(JobCancelled), false, false));
        }
        Emit(EnablingDeveloperMode);
        Perform(EnableDeveloperMode(env.developerModeOk));
        if !env.developerModeOk {
          Emit(EnablingDeveloperMode);
        }
      }
      return None;
    }

    /** The download, sign and install half. None when the runner ended up installed. */
    method Provision(env: Env) returns (failure: Option<Outcome>)
      requires Valid() && Plausible(env) && !RunnerPresent(calls)
      modifies this
      ensures Recorded()
      ensures failure.None? ==> Valid() && RunnerPresent(calls)
      ensures failure.Some? ==> failure.value.code.Some? && !failure.value.installed && !RunnerPresent(calls)
                                && NotLaunched(calls) && Explained(failure.value, calls)
      ensures ProvisionError(env) == if failure.Some? then failure.value.code else None
    {
      failure := FetchArtifact(env);
      if failure.None? {
        failure := RequestDeveloperMode(env);
        if failure.None? {
          failure := SignAndInstall(env);
        }
      }
    }

    method SignAndInstall(env: Env) returns (failure: Option<Outcome>)
      requires Valid() && Plausible(env) && !RunnerPresent(calls) && Fetch(None) in calls
      modifies this
      ensures Recorded()
      ensures failure.None? ==> Valid() && RunnerPresent(calls)
      ensures failure.Some? ==> failure.value.code.Some? && !failure.value.installed && !RunnerPresent(calls)
                                && NotLaunched(calls) && Explained(failure.value, calls)
      ensures SigningError(env) == if failure.Some? then failure.value.code else None
    {
      if env.cancelled(2) {
        return Some(Outcome(Some(JobCancelled), false, false));
      }
      EmitAll(env.signingStages);
      Perform(PrepareSigning(env.signing, env.presigned));
      if env.signing.Some? {
        return Some(Outcome(env.signing, env.signing == Some(AscUnavailable), false));
      }
      if !env.presigned {
        if env.cancelled(3) {
          return Some(Outcome(Some(JobCancelled), false, false));
        }
        Emit(SigningRunner);
        Perform(Sign(env.signOk));
        if !env.signOk {
          return Some(Outcome(Some(SigningFailed), false, false));
        }
      }
      failure := InstallRunner(env);
    }

    method InstallRunner(env: Env) returns (failure: Option<Outcome>)
      requires Valid() && Plausible(env) && !RunnerPresent(calls)
      requires PrepareSigning(None, true) in calls || Sign(true) in calls
      modifies this
      ensures Recorded()
      ensures failure.None? ==> Valid() && RunnerPresent(calls)
      ensures failure.Some? ==> failure.value.code.Some? && !failure.value.installed && !RunnerPresent(calls)
                                && NotLaunched(calls) && Explained(failure.value, calls)
      ensures InstallError(env) == if failure.Some? then failure.value.code else None
    {
      if env.cancelled(4) {
        return Some(Outcome(Some(JobCancelled), false, false));
      }
      Emit(Installing);
      Perform(Install(env.install));
      if env.install.Some? {
        return Some(Outcome(env.install, env.install == Some(DeviceNotPresent), false));
      }
      return None;
    }

    /** execute: the outcome says exactly whether the runner is on the device, and is free of
        error exactly when Launch succeeded. */
    method Execute(env: Env) returns (out: Outcome)
      requires Valid() && Plausible(env) && calls == []
      modifies this
      ensures Recorded()
      ensures out.installed <==> RunnerPresent(calls)
      ensures out.code.None? <==> Launch(None) in calls
      ensures Explained(out, calls)
      ensures out.code == Or(RunnerError(env), LaunchError(env)) && (out.installed <==> RunnerError(env).None?)
      ensures Launch(env.launch) in calls <==> RunnerError(env).None? && !env.cancelled(5)
    {
      Emit(Queued);
      if !env.artifact {
        return Outcome(Some(ArtifactMissing), false, false);
      }
      var here := WaitForDevice(env);
      if !here {
        return Outcome(Some(JobCancelled), false, false);
      }
      var skip := false;
      if env.prepare {
        skip := env.installed == Some(true);
        Perform(IsInstalled(env.installed));
        if env.installed != Some(false) {
          Emit(VerifyingArtifact);
        }
      }
      if !skip {
        var failure := Provision(env);
        if failure.Some? {
          return failure.value;
        }
      }
      out := LaunchRunner(env);
    }

    method LaunchRunner(env: Env) returns (out: Outcome)
      requires Valid() && Plausible(env) && RunnerPresent(calls)
      modifies this
      ensures Recorded()
      ensures out.installed && RunnerPresent(calls)
      ensures out.code.None? <==> Launch(None) in calls
      ensures Explained(out, calls)
      ensures out.code == LaunchError(env) && (Launch(env.launch) in calls <==> !env.cancelled(5))
    {
      if env.cancelled(5) {
        return Outcome(Some(JobCancelled), false, true);
      }
      EmitAll(env.launchStages);
      Perform(Launch(env.launch));
      if env.launch.Some? {
        no := no + 1;
        frames := frames + [Event(no, VerifyingControl)];
        return Outcome(env.launch, true, true);
      }
      assert Launch(None) in calls;
      return Outcome(None, false, true);
    }

    /** runJob with finish: every path ends in one terminal event and one result. note is
        what OnTerminal is told. */
    method RunJob(env: Env) returns (note: Note)
      requires Valid() && Plausible(env) && frames == [] && calls == []
      modifies this
      ensures Complete(frames) && Ordered(calls)
      ensures var r, t := frames[|frames| - 1], frames[|frames| - 2].terminal;
        && (r.ok <==> RunnerPresent(calls) && Launch(None) in calls)
        && (r.ok <==> r.code.None?) && (t == Completed <==> r.ok) && (t == Cancelled <==> r.code == Some(JobCancelled))
        && Explained(Outcome(r.code, r.retryable, RunnerPresent(calls)), calls)
        && note == (if RunnerPresent(calls) then Note(true, false, true)
                    else Note(false, r.code == Some(JobCancelled), false))
        && r.code == JobError(env)
        && (r.ok <==>
              && env.workdirOk && env.artifact && (env.present || env.appears) && !env.cancelled(5) && env.launch.None?
              && (FoundInstalled(env) || Provisions(env)))
        && (t == Cancelled <==>
              && env.workdirOk && env.artifact
              && (|| !(env.present || env.appears)
                  || if FoundInstalled(env) || Provisions(env) then env.cancelled(5) else CutShort(env)))
      ensures RunnerPresent(calls) <==> GetsRunner(env)
      ensures Launch(env.launch) in calls <==> GetsRunner(env) && !env.cancelled(5)
    {
      var out;
      if !env.workdirOk {
        out := Outcome(Some(WorkdirFailed), false, false);
      } else {
        out := Execute(env);
      }
      var ok := out.code.None?;
      var terminal := if out.code == Some(JobCancelled) then Cancelled else if !ok then Failed else Completed;
      LaunchMeansPresent(calls);
      JobErrorMeans(env);
      ghost var progress := frames;
      no := no + 1;
      frames := frames + [TerminalEvent(no, terminal)];
      frames := frames + [Result(ok, out.code, out.retryable)];
      assert frames[..|frames| - 2] == progress;
      note := if !out.installed then Note(ok, out.code == Some(JobCancelled), false) else Note(true, false, true);
    }
  }

  lemma {:induction false} LaunchMeansPresent(calls: seq<Called>)
    requires Ordered(calls)
    ensures Launch(None) in calls ==> RunnerPresent(calls)
  {
    if calls != [] {
      var init, last := calls[..|calls| - 1], calls[|calls| - 1];
      LaunchMeansPresent(init);
      assert calls == init + [last];
    }
  }

  // ---------------------------------------------------------------- the device

  /** OnTerminal's arguments. */
  datatype Note = Note(ok: bool, cancelled: bool, installed: bool)

  /** NoteWdaJobResult on a known device. */
  function AfterResult(before: Inventory.Wda, controlOn: bool, note: Note): Inventory.WdaState
  {
    Inventory.Resulted(before, "", controlOn, note.ok, note.cancelled, note.installed, "", "", "").0.state
  }

  /** A finished job leaves its device failed exactly when it ended uncancelled with no runner
      installed, or was cancelled without one on a device that had already failed. */
  lemma DeviceFailedExactly(before: Inventory.Wda, controlOn: bool, calls: seq<Called>, code: Option<ErrCode>)
    requires code.None? ==> RunnerPresent(calls)
    ensures var note := if RunnerPresent(calls) then Note(true, false, true)
                        else Note(false, code == Some(JobCancelled), false);
      AfterResult(before, controlOn, note) == Inventory.WdaState.Failed
      <==> !RunnerPresent(calls) && (code != Some(JobCancelled) || before.state == Inventory.WdaState.Failed)
  {
  }

  /** A whole job on a known device. */
  method FinishOnDevice(env: Env, before: Inventory.Wda, controlOn: bool)
    returns (after: Inventory.WdaState, calls: seq<Called>, code: Option<ErrCode>)
    requires Plausible(env)
    ensures after == Inventory.WdaState.Failed
            <==> !RunnerPresent(calls) && (code != Some(JobCancelled) || before.state == Inventory.WdaState.Failed)
    ensures RunnerPresent(calls) ==>
              after == (if controlOn then Inventory.WdaState.Ready else Inventory.WdaState.Installed)
    ensures code.None? <==> Launch(None) in calls
    ensures Ordered(calls)
    ensures code == JobError(env) && (RunnerPresent(calls) <==> GetsRunner(env))
  {
    var job := new WdaJob();
    var note := job.RunJob(env);
    calls, code := job.calls, job.frames[|job.frames| - 1].code;
    LaunchMeansPresent(calls);
    after := AfterResult(before, controlOn, note);
  }

  // ---------------------------------------------------------------- overlapping jobs

  /** Begin and end of jobs, as seen under the manager's lock. */
  datatype Step = StartJob(id: string) | EndJob(id: string)

  datatype Manager = Manager(jobs: set<string>, decisions: seq<bool>)

  /** Start's registration and the goroutine's deferred removal, with the decision to call
      OnActiveChanged. */
  function Apply(m: Manager, step: Step): Manager
  {
    match step
    case StartJob(id) =>
      if id == "" || id in m.jobs then m
      else
        var jobs := m.jobs + {id};
        Manager(jobs, if |jobs| == 1 then m.decisions + [true] else m.decisions)
    case EndJob(id) =>
      if id !in m.jobs then m
      else
        var jobs := m.jobs - {id};
        Manager(jobs, if |jobs| == 0 then m.decisions + [false] else m.decisions)
  }

  function Run(steps: seq<Step>): Manager
  {
    if steps == [] then Manager({}, []) else Apply(Run(steps[..|steps| - 1]), steps[|steps| - 1])
  }

  ghost predicate Alternating(ds: seq<bool>)
  {
    (ds != [] ==> ds[0]) && forall i, j :: 0 <= i && j == i + 1 && j < |ds| ==> ds[i] != ds[j]
  }

  ghost predicate Consistent(m: Manager)
  {
    Alternating(m.decisions) && (m.jobs != {} <==> m.decisions != [] && m.decisions[|m.decisions| - 1])
  }

  lemma ConsistentStep(m: Manager, step: Step)
    requires Consistent(m)
    ensures Consistent(Apply(m, step))
  {
    if step.StartJob? && step.id !in m.jobs {
      CardinalityOne(m.jobs, step.id);
    }
  }

  /** Over any overlapping jobs the active and idle decisions strictly alternate, beginning
      with active, and the last one says whether a job is running. */
  lemma {:induction false} DecisionsAlternate(steps: seq<Step>)
    ensures Consistent(Run(steps))
    decreases |steps|
  {
    if steps != [] {
      DecisionsAlternate(steps[..|steps| - 1]);
      ConsistentStep(Run(steps[..|steps| - 1]), steps[|steps| - 1]);
    }
  }

  lemma CardinalityOne(jobs: set<string>, id: string)
    requires id !in jobs
    ensures |jobs + {id}| == 1 <==> jobs == {}
  {
    assert |jobs + {id}| == |jobs| + 1;
  }

  class JobManager {
    var jobs: set<string>
    var decisions: seq<bool>

    /** Decisions alternate from active on, and the last one says whether a job is running. */
    ghost predicate Valid()
      reads this
    {
      Consistent(Manager(jobs, decisions))
    }

    constructor ()
      ensures Valid() && jobs == {} && decisions == []
    {
      jobs, decisions := {}, [];
    }

    /** Start's critical section. A missing id or udid is an error; a running id is accepted
        without a second pipeline; only the first job to run makes the node active. */
    method Start(id: string, udid: string) returns (ok: bool, launched: bool)
      requires Valid()
      modifies this
      ensures Valid()
      ensures ok <==> id != "" && udid != ""
      ensures launched <==> ok && id !in old(jobs)
      ensures jobs == if ok then old(jobs) + {id} else old(jobs)
      ensures decisions == old(decisions) + if launched && old(jobs) == {} then [true] else []
    {
      if id == "" || udid == "" {
        return false, false;
      }
      if id in jobs {
        return true, false;
      }
      CardinalityOne(jobs, id);
      ConsistentStep(Manager(jobs, decisions), StartJob(id));
      jobs := jobs + {id};
      if |jobs| == 1 {
        decisions := decisions + [true];
      }
      return true, true;
    }

    /** The job goroutine's deferred removal: the node turns idle exactly when no other job is
        left, and stays active otherwise. */
    method End(id: string)
      requires Valid() && id in jobs
      modifies this
      ensures Valid() && id !in jobs && old(jobs) == jobs + {id}
      ensures decisions == old(decisions) + if old(jobs) == {id} then [false] else []
      ensures decisions[|decisions| - 1] <==> jobs != {}
    {
      ConsistentStep(Manager(jobs, decisions), EndJob(id));
      jobs := jobs - {id};
      if |jobs| == 0 {
        decisions := decisions + [false];
      }
    }
  }
}
