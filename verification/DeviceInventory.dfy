/** The iOS host's device inventory (common/ioshost/manager.go): a record per device, a revision
    counter, and the snapshots handed out. A step is one critical section of a mutator. Request
    texts are trimmed before they enter a step. */
module DeviceInventory {
  import opened Text

  datatype Connection = Unspecified | Usb | Network

  datatype WdaState = Unknown | Missing | Preparing | Ready | RenewalDue | Expired | Failed | Installed

  function Code(w: WdaState): nat
  {
    match w
    case Unknown => 0 case Missing => 1 case Preparing => 2 case Ready => 3
    case RenewalDue => 4 case Expired => 5 case Failed => 6 case Installed => 7
  }

  datatype Info = Info(name: string, model: string, version: string)
  datatype Account = Account(claimed: bool, deviceId: string, revision: int, bundle: string)
  datatype Wda = Wda(state: WdaState, expires: string, progress: nat, stage: string)

  /** What the server never sees. running: a cancel handle is held. loops: connection loops
      that have not ended yet. */
  datatype Local = Local(claiming: bool, credential: string, renewDays: int, userStopped: bool, running: bool,
                         loops: nat)

  /** managedDevice. */
  datatype Device = Device(info: Info, connection: Connection, present: bool, lanOn: bool, account: Account,
                           controlOn: bool, wda: Wda, lastError: string, local: Local)

  const BLANK := Device(Info("", "", ""), Unspecified, false, false, Account(false, "", 0, ""), false,
                        Wda(Unknown, "", 0, ""), "", Local(false, "", 0, false, false, 0))

  /** toProto: what the server sees of a device. */
  datatype Proto = Proto(info: Info, connection: Connection, present: bool, account: Account, controlOn: bool, wda: Wda,
                         lastError: string)

  function ToProto(d: Device): Proto
  {
    Proto(d.info, if d.lanOn && !d.present then Network else d.connection, d.present || d.lanOn, d.account,
          d.controlOn, d.wda, d.lastError)
  }

  datatype View = View(devices: map<string, Proto>, enumerateError: string)

  datatype Snapshot = Snapshot(rev: nat, view: View)

  type Devices = map<string, Device>

  /** snapshots: everything sent or returned so far. */
  datatype State = State(devices: Devices, rev: nat, enumerateError: string, snapshots: seq<Snapshot>, stopped: bool)

  function ViewOf(devices: Devices, enumerateError: string): View
  {
    View(map u | u in devices :: ToProto(devices[u]), enumerateError)
  }

  function Taken(s: State): Snapshot
  {
    Snapshot(s.rev, ViewOf(s.devices, s.enumerateError))
  }

  // ---------------------------------------------------------------- steps

  datatype Found = Found(udid: string, connection: Connection, info: Info)

  /** How a recorded expiry compares with the clock; NoExpiry when it does not parse. */
  datatype Badge = NoExpiry | Good | InWindow | Past

  datatype Step =
    | Discover(list: seq<Found>, badges: (string, int) -> Badge)
    | ScanFailed(error: string)
    | StreamLost(error: string)
    | TakeSnapshot
    | Detach(udid: string)
    | Attach(udid: string)
    | ClaimBegin(udid: string)
    | ClaimFailed(udid: string, error: string)
    | ClaimDone(udid: string, deviceId: string, credential: string, name: string, bundle: string, revision: int)
    | StartClaimed(udid: string)
    | StartRunner(udid: string)
    | StopRunner(udid: string, restart: bool)
    | Restarted(udid: string)
    | Release(udid: string, deleteCredential: bool)
    | Configure(udid: string, revision: int, bundle: string, otherChange: bool, renewDays: int)
    | ConfigureDone(udid: string, restart: bool)
    | LoopEnded(udid: string, failure: Option<string>)
    | LinkState(udid: string, online: bool)
    | Wiped(udid: string)
    | JobStarted(udid: string)
    | JobProgress(udid: string, percent: int, stage: string)
    | JobResult(udid: string, ok: bool, cancelled: bool, installed: bool, code: string, message: string,
                expires: string)
    | LanReachable(udid: string, on: bool)
    | LanPairing(udid: string)
    | StopAll

  const LAN_PAIRING_HINT := "局域网配对：请在 iPhone 上点按「信任」，允许此电脑控制设备（仅首次）"
  const WIPED_ERROR := "credential wiped by server; re-claim required"
  const QUEUED := "queued"

  predicate PipeFree(s: string)
  {
    '|' !in s
  }

  predicate Enabled(s: State, step: Step)
  {
    match step
    case ClaimFailed(u, _) => u in s.devices && s.devices[u].local.claiming
    case ClaimDone(u, _, _, _, _, _) => u in s.devices && s.devices[u].local.claiming
    case LoopEnded(u, _) => u in s.devices && s.devices[u].local.loops > 0
    case LinkState(u, _) => u in s.devices && s.devices[u].local.loops > 0
    case Wiped(u) => u in s.devices && s.devices[u].local.loops > 0
    case JobProgress(_, _, stage) => PipeFree(stage)
    case _ => true
  }

  // ---------------------------------------------------------------- changes to one device

  /** startDeviceLocked. */
  function Started(l: Local, stopped: bool): Local
  {
    if l.running || stopped then l else l.(running := true, loops := l.loops + 1)
  }

  /** A known name wins over the discovered one; the rest is refreshed by what was learnt. */
  function Refreshed(known: Info, learnt: Info): Info
  {
    Info(if known.name == "" then learnt.name else known.name,
         if learnt.model != "" then learnt.model else known.model,
         if learnt.version != "" then learnt.version else known.version)
  }

  function Upserted(d: Device, f: Found): Device
  {
    d.(present := true, connection := f.connection, info := Refreshed(d.info, f.info))
  }

  function RenewWindow(known: int, pushed: int): int
  {
    if pushed > 0 then pushed else if known <= 0 then 14 else known
  }

  function Configured(d: Device, revision: int, bundle: string, otherChange: bool, renewDays: int): Device
  {
    var restart := otherChange || (bundle != "" && bundle != d.account.bundle);
    d.(account := d.account.(bundle := if bundle != "" then bundle else d.account.bundle, revision := revision),
       local := d.local.(renewDays := RenewWindow(d.local.renewDays, renewDays),
                         running := if restart then false else d.local.running))
  }

  /** onDeviceState, when the flag really flips. */
  function Linked(d: Device, online: bool): Device
  {
    if online && d.wda.state != Preparing then d.(controlOn := true, wda := d.wda.(state := Ready), lastError := "")
    else if !online && d.wda.state == Ready then d.(controlOn := false, wda := d.wda.(state := Installed))
    else d.(controlOn := online)
  }

  function Progressed(w: Wda, percent: int, stage: string): Wda
  {
    if w.state != Preparing then w
    else
      w.(progress := if percent < 0 then 0 else if percent > 100 then 100 else percent,
         stage := if stage != "" then stage else w.stage)
  }

  /** The WDA record and the error after a job's result. */
  function Resulted(w: Wda, lastError: string, controlOn: bool, ok: bool, cancelled: bool, installed: bool,
                    code: string, message: string, expires: string): (Wda, string)
  {
    var why := if message != "" then message else if code != "" then code else lastError;
    if cancelled then (Wda(if w.state == Preparing then Missing else w.state, w.expires, 0, ""), lastError)
    else if ok || installed then
      (Wda(if controlOn then Ready else Installed, if expires != "" then expires else w.expires, 0, ""),
       if ok then "" else why)
    else (Wda(Failed, w.expires, 0, ""), why)
  }

  /** refreshWdaExpiryLocked on one device; None when it is left alone. */
  function Aged(state: WdaState, badge: Badge): Option<WdaState>
  {
    if state != Ready && state != Installed && state != RenewalDue then None
    else if badge == Past then Some(Expired)
    else if badge == InWindow then Some(RenewalDue)
    else None
  }

  /** wdaStateKey. */
  function StateKey(w: Wda, lastError: string): string
  {
    Decimal(Code(w.state)) + "|" + (Decimal(w.progress) + "|" + (w.stage + "|" + (w.expires + "|" + lastError)))
  }

  // ---------------------------------------------------------------- effects

  /** The device changes; the revision moves if marked; a snapshot goes out if reported. */
  function Put(s: State, u: string, d: Device, mark: bool, report: bool): State
  {
    var s1 := s.(devices := s.devices[u := d], rev := if mark then s.rev + 1 else s.rev);
    if report then s1.(snapshots := s1.snapshots + [Taken(s1)]) else s1
  }

  function MarkReport(s: State): State
  {
    var s1 := s.(rev := s.rev + 1);
    s1.(snapshots := s1.snapshots + [Taken(s1)])
  }

  /** The upsert loop. */
  function UpsertAll(devices: Devices, list: seq<Found>, n: nat): (Devices, bool)
    requires n <= |list|
  {
    if n == 0 then (devices, false)
    else
      var (ds, changed) := UpsertAll(devices, list, n - 1);
      var f := list[n - 1];
      var known := f.udid in ds;
      var d := if known then ds[f.udid] else BLANK;
      (ds[f.udid := Upserted(d, f)], changed || !known || Upserted(d, f) != d)
  }

  function Seen(list: seq<Found>): set<string>
  {
    set i | 0 <= i < |list| :: list[i].udid
  }

  function AgedTo(d: Device, badges: (string, int) -> Badge): Option<WdaState>
  {
    Aged(d.wda.state, badges(d.wda.expires, if d.local.renewDays > 0 then d.local.renewDays else 14))
  }

  /** One device at the end of a discovery: gone if unseen, then aged. */
  function Settled(d: Device, seen: bool, badges: (string, int) -> Badge): Device
  {
    var next := AgedTo(d, badges);
    d.(present := d.present && seen, wda := if next.Some? then d.wda.(state := next.value) else d.wda)
  }

  predicate AnyLost(ds: Devices, seen: set<string>)
  {
    exists u :: u in ds && u !in seen && ds[u].present
  }

  predicate AnyAged(ds: Devices, badges: (string, int) -> Badge)
  {
    exists u :: u in ds && AgedTo(ds[u], badges).Some?
  }

  function SettleAll(ds: Devices, seen: set<string>, badges: (string, int) -> Badge): Devices
  {
    map u | u in ds :: Settled(ds[u], u in seen, badges)
  }

  function ApplyDiscover(s: State, list: seq<Found>, badges: (string, int) -> Badge): State
  {
    var (ds, upserted) := UpsertAll(s.devices, list, |list|);
    var s1 := s.(devices := SettleAll(ds, Seen(list), badges), enumerateError := "");
    if upserted || AnyLost(ds, Seen(list)) || AnyAged(ds, badges) || s.enumerateError != "" then MarkReport(s1) else s1
  }

  function ApplyScanFailed(s: State, error: string): State
  {
    var s1 := if s.enumerateError != error then s.(enumerateError := error, rev := s.rev + 1) else s;
    s1.(snapshots := s1.snapshots + [Taken(s1)])
  }

  /** What a critical section does with the device it found. */
  datatype Change = Same | To(device: Device, mark: bool, report: bool)

  /** noteWdaState: a change of the key is a change. */
  function Noted(d: Device, w: Wda, lastError: string): Change
  {
    var changed := StateKey(w, lastError) != StateKey(d.wda, d.lastError);
    To(d.(wda := w, lastError := lastError), changed, changed)
  }

  function ChangeOf(d: Device, step: Step, stopped: bool): Change
  {
    match step
    case Detach(_) => if d.present then To(d.(present := false, controlOn := false), true, true) else Same
    case Attach(_) => To(d.(local := d.local.(userStopped := false)), false, false)
    case ClaimBegin(_) =>
      if d.account.claimed || d.local.claiming then Same else To(d.(local := d.local.(claiming := true)), false, false)
    case ClaimFailed(_, error) =>
      To(d.(local := d.local.(claiming := false), lastError := "pairing failed: " + error), true, true)
    case ClaimDone(_, id, cred, name, bundle, rev) =>
      To(d.(account := Account(true, id, rev, if bundle != "" then bundle else d.account.bundle),
            info := d.info.(name := name), lastError := "",
            local := Started(d.local.(claiming := false, credential := cred), stopped)), true, true)
    case StartClaimed(_) =>
      if d.account.claimed && d.local.credential != "" then To(d.(local := Started(d.local, stopped)), false, false)
      else Same
    case StartRunner(_) =>
      if d.local.credential == "" || d.local.running || stopped then Same
      else To(d.(local := Started(d.local.(userStopped := false), stopped)), true, true)
    case StopRunner(_, restart) =>
      if d.local.credential == "" then Same
      else To(d.(local := d.local.(running := false, userStopped := !restart), controlOn := false), true, true)
    case Restarted(_) =>
      if d.local.credential == "" || stopped then Same else To(d.(local := Started(d.local, stopped)), true, true)
    case Release(_, delete) =>
      To(d.(account := d.account.(claimed := false, deviceId := ""), controlOn := false,
            wda := d.wda.(state := Unknown),
            local := d.local.(running := false, credential := if delete then "" else d.local.credential)), true, true)
    case Configure(_, rev, bundle, other, renew) =>
      if rev != 0 && rev <= d.account.revision then Same else To(Configured(d, rev, bundle, other, renew), true, false)
    case ConfigureDone(_, restart) =>
      To(if restart && d.account.claimed && d.local.credential != "" then d.(local := Started(d.local, stopped)) else d,
         false, true)
    case LoopEnded(_, failure) =>
      if d.local.loops == 0 then Same
      else
        To(d.(local := d.local.(loops := d.local.loops - 1), controlOn := false,
              lastError := if failure.Some? then failure.value else d.lastError), true, true)
    case LinkState(_, online) => if online != d.controlOn then To(Linked(d, online), true, true) else Same
    case Wiped(_) =>
      To(d.(account := d.account.(claimed := false, deviceId := ""), controlOn := false, lastError := WIPED_ERROR),
         true, true)
    case JobStarted(_) => Noted(d, d.wda.(state := Preparing, progress := 0, stage := QUEUED), d.lastError)
    case JobProgress(_, percent, stage) => Noted(d, Progressed(d.wda, percent, stage), d.lastError)
    case JobResult(_, ok, cancelled, installed, code, message, expires) =>
      var (w, e) := Resulted(d.wda, d.lastError, d.controlOn, ok, cancelled, installed, code, message, expires);
      Noted(d, w, e)
    case LanReachable(_, on) =>
      if d.lanOn == on then Same
      else if !on && d.present then To(d.(lanOn := false), false, false)
      else To(d.(lanOn := on, lastError := if on then "" else d.lastError), true, true)
    case LanPairing(_) => if d.lanOn then Same else To(d.(lastError := LAN_PAIRING_HINT), true, true)
    case _ => Same
  }

  function Changed(s: State, u: string, c: Change): State
  {
    match c
    case Same => s
    case To(d, mark, report) => Put(s, u, d, mark, report)
  }

  function ApplyToDevice(s: State, step: Step, u: string): State
    requires u in s.devices
  {
    Changed(s, u, ChangeOf(s.devices[u], step, s.stopped))
  }

  function Apply(s: State, step: Step): State
    requires Enabled(s, step)
  {
    match step
    case Discover(list, badges) => ApplyDiscover(s, list, badges)
    case ScanFailed(error) => ApplyScanFailed(s, error)
    case StreamLost(error) => s.(enumerateError := "device event stream unavailable: " + error, rev := s.rev + 1)
    case TakeSnapshot => s.(snapshots := s.snapshots + [Taken(s)])
    case StopAll => s.(stopped := true)
    case _ => if step.udid in s.devices then ApplyToDevice(s, step, step.udid) else s
  }
}
