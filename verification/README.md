# Node agent: a verified model

The node agent connects a host to a control server over a stream that drops and
comes back. Its hard parts are small concurrent protocols that keep state across
those drops. This project models them in Dafny and proves what they promise.

`dafny verify dfyconfig.toml` checks everything. Nothing here runs the agent.

## How the model is built

- A protocol with several goroutines is a step system: a `State`, a `Step` per
  critical section or outside call, `Enabled`, `Apply`, and runs of any length.
  Main results quantify over every reachable state of every interleaving.
- A promise that does not hold of the code as it stands is given as an
  if-and-only-if: the exact condition a caller could check, a run that breaks the
  promise without it, and a proof for all runs with it.
- Code that updates an object in place is a class with an invariant that every method
  keeps. Its methods are proved to take the step system's steps, or to compute a
  specification function, and to give their callers what the rows below say.
- Clocks, the network, the file system's answers, pairing, HMAC and checksums enter
  as parameters, so theorems hold for all of their behaviours.

| Files | Component |
|---|---|
| `InputDelivery`, `InputDeliverySafety`, `NodeSession` | user input to the runtime: reservation, FIFO, drain, failure (`execution/session.go`, `execution/stream_executor.go`) |
| `OutputQueue` | output with offsets and retry at the head (`execution/queue.go`) |
| `UpstreamGate` | the registration gate across serve cycles (`common/agent/client.go`) |
| `TerminalReplay` | the terminal ring and attach (`common/agent/terminal.go`) |
| `DeviceInventory`, `DeviceInventorySafety`, `DeviceDiscovery`, `DeviceLifecycle`, `DeviceManager` | the iOS inventory, its revision, scans and claims (`common/ioshost/manager.go`) |
| `LanTunnels` | the LAN tunnel reconcile machine (`common/ioshost/lan.go`) |
| `WdaJobs` | the WDA job engine (`common/ioshost/wdajob.go`) |
| `Totp` | one-time codes with a replay cache (`common/auth/totp/totp.go`) |
| `FileUpload`, `FileUploadSafety`, `FileUploadContents`, `FileUploadReplacing`, `FileUploadHandler`, `FileUploadObject`, `FileUploadRoundTrip`, `FileUploadTidy` | chunked upload over inodes and handles (`common/agent/host_file_upload.go`) |
| `ManagedBlock` | marker-delimited config text (`execution/editorconfig.go`) |
| `ShellQuote` | shell quoting against a POSIX word splitter (`execution/docker_executor.go`) |
| `SystemEnv`, `SystemEnvOutcome`, `SystemEnvObject`, `SystemEnvSafety`, `SystemEnvInterleaved`, `SystemEnvAlone` | platform resources in the operator's home (`execution/systemenv.go`) |
| `ClientConfig` | revision-gated proxy and public-IP settings (`common/agent/client.go`) |
| `Text` | shared text, byte and unit definitions |

## Where the code and its comments disagree

The model follows the code.

- `common/agent/host_file_upload.go:22-24` says the total limit keeps a caller from
  filling the disk. Only `total_size` is compared, so a temporary file is unbounded
  (`FileUploadContents.TemporaryUnbounded`); committed files are bounded.
- `common/agent/host_file_upload.go:143-164` means to replace a file only when asked, but
  stats and renames in two calls. Two uploads to one absent destination both pass the stat
  (`FileUploadReplacing.ReplacedUnasked`; exactly when: `NoReplaceExactly`).
- `common/ioshost/manager.go:508-511` says a retried or reordered push cannot roll the
  host back. A frame with revision zero does (`DeviceInventorySafety.NoRollbackExactly`).
- `common/ioshost/manager.go:1084-1085` says a cancelled job changes no state. The code
  moves PREPARING to MISSING and clears progress; `DeviceInventory.Resulted` does so.
- `common/agent/terminal.go:150-153` says evicted output is always reported as truncated.
  A chunk larger than the ring empties it and replay then reports nothing
  (`TerminalReplay.OversizedChunkVanishes`); the shipped sizes exclude it.
- `common/ioshost/manager.go:1165-1166` says the key tells whether anything changed. It
  does exactly when expiry texts are separator-free in the sense of
  `DeviceInventorySafety.Separate`.

## Model

| member | source | states |
|---|---|---|
| InputDelivery.MessageKeyInjective | execution/session.go:1671-1681 | two inputs, at least one with an id, have the same dedupe key if and only if their trimmed ids are equal and their attempts are equal or 0 and 1, even when ids contain colons |
| InputDelivery.DecodeMeans | execution/session.go:1485-1497 | on the wire fields: an input is deduplicated exactly when its trimmed id is not empty and its trimmed kind is human_message or empty, and four kinds are deliverable |
| InputDeliverySafety.DeliverySafety | execution/session.go:1475-1651 | in every reachable state of every interleaving: no accepted frame is lost, everything written, in flight and queued is in strictly increasing enqueue order, and at a quiescent point a non-empty queue means the executor is not an attached stream |
| InputDeliverySafety.SeenExactlyAlive | execution/session.go:1496-1523 | a key is in the seen set exactly when one frame with that key is arriving, queued, in flight, being failed or written, and absent exactly when none is |
| InputDeliverySafety.AtMostOnceExactly | execution/session.go:1496-1666 | no tracked message is written twice in any run, restarts included, if and only if no control frame can carry the key of a human message |
| InputDeliverySafety.ReuseWritesTwice | execution/session.go:1657-1666 | the run in which a failing control frame frees a written message's key and the message is written again |
| InputDeliverySafety.NoPairWrittenTwice | execution/session.go:1475-1681 | over raw frames: two written messages never agree on trimmed id and attempt, attempts 0 and 1 being the same one |
| InputDeliverySafety.WireAtMostOnceExactly | execution/session.go:1475-1681 | over raw frames, exactly: every run keeps this if and only if no frame of another kind carries the id and attempt of a message |
| InputDeliverySafety.PutBackUnreachable | execution/stream_executor.go:166-261 | whenever the drain loop is writing, the stream it writes to has its stdin, so the put-back branch is never taken |
| InputDeliverySafety.NothingLostStep | execution/session.go:1475-1666 | every step of every goroutine keeps, for every key and frame, accepted = alive + reported as failed |
| InputDeliverySafety.SeenExactStep | execution/session.go:1496-1666 | every step keeps the seen set equal to the keys of live tracked frames |
| InputDeliverySafety.FifoStep | execution/session.go:1525-1651 | every step keeps written, in-flight and queued frames in increasing order |
| InputDeliverySafety.NeverStrandedStep | execution/session.go:720-785 | every step keeps a non-empty queue attended by someone who will look at it while a stream is attached |
| NodeSessionObject.NodeSession.constructor | execution/session.go:232-381 | a new session object starts in the initial state of the step system |
| NodeSessionObject.NodeSession.ValidIsReachable | execution/session.go:1475-1681 | every state the object's methods can reach is a reachable state of the step system, so the theorems above hold of the object |
| NodeSessionObject.NodeSession.Reserve | execution/session.go:1496-1523 | the reservation section: a tracked key already seen is refused and changes nothing, anything else is accepted and its key reserved |
| NodeSessionObject.NodeSession.Enqueue | execution/session.go:1525-1541 | the enqueue section: the frame joins the queue with the next order number, or fails at once on a non-interactive executor |
| NodeSessionObject.NodeSession.ReportInputFailure | execution/session.go:1657-1666 | the frame leaves the failing batch, is reported, and its key is freed |
| NodeSessionObject.NodeSession.ReportAll | execution/session.go:1643-1651 | a whole batch is reported in order and exactly its keys are freed |
| NodeSessionObject.NodeSession.FailPendingInputs | execution/session.go:1643-1651 | the queue becomes empty and every frame of it is reported, nothing else changes |
| NodeSessionObject.NodeSession.DrainOpen | execution/session.go:1580-1638 | on an open stream the loop empties the queue: accepted frames are written in order, refused ones reported in order with their keys freed |
| NodeSessionObject.NodeSession.DrainPending | execution/session.go:1580-1638 | the three outcomes of a drain: written or reported on an open stream, all reported on a closed one, untouched without one |
| NodeSessionObject.NodeSession.DeliverInput | execution/session.go:1475-1541 | one delivery end to end: a duplicate changes nothing; otherwise the frame ends written or reported on a stream, queued while there is none, or failed at once on a one-shot executor, behind everything queued before it |
| NodeSessionObject.SplitComplete | execution/session.go:1600-1638 | written and refused frames together are exactly the drained queue, as multisets |
| NodeSessionObject.SplitExactly | execution/session.go:1600-1638 | a queued frame is written exactly if its kind is deliverable and its write succeeds, and refused exactly otherwise |
| NodeSessionObject.SplitOrdered | execution/session.go:1600-1638 | written and refused frames each keep the order of the queue |
| OutputQueue.OutputDelivered | execution/queue.go:107-172 | in every reachable state emitted followed by unsent chunks are exactly the produced ones in order, each stamped with the byte count before it; once the result is reported everything is emitted |
| OutputQueue.BytesDelivered | execution/queue.go:107-172 | the same for bytes, overall and for each of stdout and stderr: emitted plus queued equals appended |
| OutputQueue.ReceiverRebuildsOutput | execution/queue.go:133-172 | a receiver that appends by offset and ignores repeats holds a prefix of the output at all times, and all of it once the result is reported, even when failed sends arrived |
| OutputQueue.InvStep | execution/queue.go:52-172 | every producer, flusher and run step keeps the stamps, the order and the offset counter |
| OutputQueue.Queue.Append | execution/queue.go:107-118 | append stamps the chunk with the running offset and puts it at the tail |
| OutputQueue.Queue.MayReport | execution/session.go:765-778 | drain lets the result through exactly when the queue is empty or closed, and an open queue is then completely emitted |
| OutputQueue.Queue.Flush | execution/queue.go:133-172 | whatever the pattern of failed emits, exactly as many head chunks leave the queue as emits succeeded, in order |
| UpstreamGate.GateHolds | common/agent/client.go:289-390 | on every stream of every run: the headers come first, then register as the first payload frame, then its ack; every handler frame is behind the ack, and no two sends overlap |
| UpstreamGate.GateConserves | common/agent/client.go:289-390 | over any reconnects what went out is exactly what was called while the gate was open, once each and in call order, and every other call was refused |
| UpstreamGate.Client.EmitUpstream | common/agent/client.go:754-762 | refused and without effect unless a stream is live and registered, otherwise the frame is appended to that stream |
| UpstreamGate.Client.ServeOnce | common/agent/client.go:289-390 | one serve cycle opens exactly one stream, leaves the client disconnected, and its log has the register-ack-frames shape for every failure point |
| TerminalReplay.TerminalBuffer.Append | common/agent/terminal.go:139-148 | the ring after an append is the longest suffix of the chunks that fits the limit |
| TerminalReplay.TerminalBuffer.Replay | common/agent/terminal.go:154-169 | replay returns the entries behind the sequence number, with the truncation flag |
| TerminalReplay.FitIsLongest | common/agent/terminal.go:139-148 | the eviction loop keeps the longest suffix within the limit: it fits and every longer one does not |
| TerminalReplay.FitIncremental | common/agent/terminal.go:139-148 | evicting chunk by chunk keeps the same entries as evicting once from the whole history |
| TerminalReplay.ReplayExact | common/agent/terminal.go:154-169 | a replay is a suffix of the history, and says truncated exactly when it does not reach back to the client's position |
| TerminalReplay.RingRetainsLongestSuffix | common/agent/terminal.go:339-374 | in every run retained bytes stay within the limit and retained entries are the latest consecutive ones |
| TerminalReplay.ReplayHonestExactly | common/agent/terminal.go:299-330 | every client that attaches ends with the whole history or a truncated frame that really exists, in all runs, if and only if no chunk exceeds the ring limit |
| TerminalReplay.OversizedChunkVanishes | common/agent/terminal.go:139-169 | the run in which a chunk larger than the ring empties it and the gap goes unreported |
| TerminalReplay.ShippedReplayHonest | common/agent/terminal.go:50-64 | the shipped read size and limit meet the condition |
| DeviceInventorySafety.RevisionsIdentifyExactly | common/ioshost/manager.go:1143-1169 | in every run snapshots carry non-decreasing revisions and equal revisions mean equal inventories, if and only if no expiry text continues another (or the empty one) with the key separator |
| DeviceInventorySafety.StepMoves | common/ioshost/manager.go:303-1228 | every critical section that changes what the server would see strictly increases the revision, and none decreases it |
| DeviceInventorySafety.ShippedRevisions | common/ioshost/manager.go:895-920 | with separator-free expiries, which timestamps are, snapshots agree and the current view is the one its revision names |
| DeviceInventorySafety.SilentRenewal | common/ioshost/manager.go:1143-1169 | the run in which a renewal leaves the state key unchanged and two snapshots of one revision differ |
| DeviceInventorySafety.KeyFaithful | common/ioshost/manager.go:1167-1169 | under the condition the state key determines every WDA field it collapses |
| DeviceInventorySafety.ChangeFaithful | common/ioshost/manager.go:303-1228 | per device: each critical section marks the inventory dirty or leaves toProto unchanged |
| DeviceInventorySafety.DiscoverFaithful | common/ioshost/manager.go:703-743 | a discovery pass moves the revision whenever any device's view or the error changed |
| DeviceInventorySafety.NoRollbackExactly | common/ioshost/manager.go:512-587 | retried and reordered configuration frames never lower a device's applied revision if and only if none carries revision zero |
| DeviceInventorySafety.StepSound | common/ioshost/manager.go:303-1228 | every critical section keeps progress within 0 to 100, never lowers the revision or takes back a snapshot, and, with separate expiries, keeps all snapshots in agreement and moves the revision whenever the view changes |
| DeviceInventorySafety.NotedSound | common/ioshost/manager.go:1143-1169 | although only a text key is compared, with separate expiries the revision moves and a report goes out exactly when the view changes |
| DeviceInventorySafety.NoteSound | common/ioshost/manager.go:1043-1138 | a job's start, progress and result touch its device only, and are told exactly when they show |
| DeviceManagerObject.DeviceManager.constructor | common/ioshost/manager.go:237-259 | a manager starts with the adopted devices, revision zero and nothing reported, and its invariant holds |
| DeviceManagerObject.DeviceManager.ApplySnapshot | common/ioshost/manager.go:703-743 | after a scan exactly the listed devices are present, each with its last listed connection; a known name is kept and a learnt model or version taken; claims, credentials, links and LAN state are untouched; badges age exactly by the clock; one report goes out if anything changed; snapshots stay in agreement |
| DeviceDiscovery.DiscoverShows | common/ioshost/manager.go:703-893 | the same of the discovery step, device by device |
| DeviceDiscovery.DiscoverTells | common/ioshost/manager.go:703-743 | a scan that moves no revision left everything as it was; any other is reported once |
| DeviceManagerObject.DeviceManager.UpsertLocked | common/ioshost/manager.go:866-893 | the listed device is present with that connection, a known name wins, learnt model and version are taken, the rest stays; a change is reported exactly when the record is new or differs |
| DeviceManagerObject.DeviceManager.MarkAbsentLocked | common/ioshost/manager.go:724-729 | devices that were not listed lose present, and a change is reported exactly when one had it |
| DeviceManagerObject.DeviceManager.RefreshWdaExpiryLocked | common/ioshost/manager.go:805-838 | each device's badge advances with the clock, and a change is reported exactly when some badge was set |
| DeviceManagerObject.DeviceManager.ScanFailure | common/ioshost/manager.go:621-634 | a failed scan forgets no device and is always reported: the same error again repeats the last snapshot, a new one moves the revision, and all snapshots still agree |
| DeviceManagerObject.DeviceManager.NoteWdaJobStarted | common/ioshost/manager.go:1043-1049 | the device shows the job and keeps its expiry, no other device is touched, the server is told exactly if the view changed, and all snapshots still agree |
| DeviceManagerObject.DeviceManager.NoteWdaJobProgress | common/ioshost/manager.go:1055-1071 | while preparing, the badge shows the percentage clamped to 0 to 100 and the stage if one came; late progress changes nothing at all, and the server is told exactly if the view changed |
| DeviceManagerObject.DeviceManager.NoteWdaJobResult | common/ioshost/manager.go:1089-1138 | afterwards the device is not preparing; a runner makes it READY or INSTALLED by the link; it is FAILED exactly when an uncancelled job left none or it had failed before a cancelled one; expiry and reason follow the result; the server is told exactly if the view changed |
| DeviceManagerObject.DeviceManager.NoteLanReachable | common/ioshost/manager.go:1180-1208 | the device is shown present exactly when a cable or the network reaches it, as a network device exactly when only the network does; losing the network behind a cable is invisible; all snapshots still agree |
| DeviceManagerObject.DeviceManager.NoteLanPairingPending | common/ioshost/manager.go:1213-1228 | the hint shows exactly while the network does not reach the device, the next reachability report clears it, and all snapshots still agree |
| DeviceManagerObject.DeviceManager.OnDeviceState | common/ioshost/manager.go:987-1012 | the shown link is the loop's, a repeat moves nothing, a job's badge is left alone, and any other badge is READY after a flip exactly when it went online |
| DeviceManagerObject.DeviceManager.OnDeviceEvent | common/ioshost/manager.go:840-862 | a pulled cable costs no claim, credential or badge, a plugged one is invisible until the next scan, and all snapshots still agree |
| DeviceManagerObject.DeviceManager.ReleaseDevice | common/ioshost/manager.go:473-506 | the record survives unclaimed, unlinked and stopped; its credential is deleted exactly if asked; no other device is touched, and it is told with a new revision |
| DeviceManagerObject.DeviceManager.ConfigureDevice | common/ioshost/manager.go:512-560 | a push that is not newer changes nothing; a newer one puts its settings in force, blanks keeping what was there, and stops a running loop exactly for a setting that differs; repeating a non-zero push is harmless |
| DeviceLifecycle.LinkNeedsLoop | common/ioshost/manager.go:934-1042 | in every run no device is shown as controlled once all of its connection loops have ended |
| DeviceLifecycle.ClaimReserves | common/ioshost/manager.go:314-334 | a claim out for pairing is invisible and excludes a second one |
| DeviceLifecycle.ClaimSettles | common/ioshost/manager.go:335-372 | a redeemed code claims the device with its id, credential, name and settings and starts its loop; a refused one frees it and says why; both are told |
| DeviceLifecycle.WipeAsksForClaim | common/ioshost/manager.go:1014-1029 | a wiped device is unclaimed and unlinked, says so, and can be claimed again |
| DeviceLifecycle.StopThenStart | common/ioshost/manager.go:403-466 | STOP pins the loop off and START brings it back, with claim, credential and badge untouched |
| LanTunnels.LanAgent.Reconcile | common/ioshost/lan.go:204-293 | after any pass a target is registered exactly when its tunnel was kept (no unpaused cable, and paused, probed less than 30 seconds ago or still answering) or a due open off the cable succeeded; unclaimed devices lose theirs; a failed probe changes nothing; registered tunnels are exactly the devices with a handle and match the last reachability reports |
| LanTunnels.PassTended | common/ioshost/lan.go:240-350 | one device through a pass: whether it has a tunnel, and when it is probed or tried again |
| LanTunnels.DecideMeans | common/ioshost/lan.go:240-271 | which action a device gets, on its record and the readings |
| LanTunnels.LanAgent.FailuresSpan | common/ioshost/lan.go:265-312 | n >= 5 consecutive failed opens of a device that stays claimed span at least 450 + 300(n-5) seconds |
| LanTunnels.LanAgent.Prune | common/ioshost/lan.go:216-239 | exactly the unclaimed devices are forgotten and exactly their tunnels scheduled for dropping |
| LanTunnels.LanAgent.Plan | common/ioshost/lan.go:240-271 | each device is planned a drop exactly for an unpaused cable, a probe exactly when one is due and not paused, an open exactly when it has no tunnel, is off the cable and due; one action per device or a drop followed by an open |
| LanTunnels.LanAgent.RunActions | common/ioshost/lan.go:274-292 | carrying the list out leaves registry, reports and handles in agreement and touches only the devices it names |
| LanTunnels.LanAgent.OpenTunnel | common/ioshost/lan.go:296-350 | an open registers and reports on success, and otherwise backs off by its failure count; a stopped agent registers nothing |
| LanTunnels.LanAgent.Stop | common/ioshost/lan.go:180-199 | no tunnel is left registered, and the agent stays valid |
| LanTunnels.StoppedStays | common/ioshost/lan.go:302-345 | a stopped agent opens nothing in any later pass |
| LanTunnels.PauseKeepsCableTakes | common/ioshost/lan.go:246-271 | one device: a pause keeps its state, an unpaused pass on a cable takes its tunnel, and a new tunnel needs no cable, a due attempt and a successful open |
| LanTunnels.PausedPass | common/ioshost/lan.go:246-271 | the same over a whole pass |
| LanTunnels.BackoffMonotone | common/ioshost/lan.go:387-400 | the backoff is 30, 60, 120 and 240 seconds, then 300, and monotone |
| LanTunnels.SpanOf | common/ioshost/lan.go:387-400 | times spaced by the backoff schedule add up to the promised span |
| WdaJobs.WdaJob.RunJob | common/ioshost/wdajob.go:275-295 | for every behaviour of the pipeline: ok exactly when every step that is reached succeeds and no look finds it cancelled; CANCELLED exactly when the device never came or a cancelled look was the first thing to go wrong; otherwise the code is the first failing step's; events are numbered 1..n, the terminal event is last before exactly one result, and the steps ran in order |
| WdaJobs.JobErrorMeans | common/ioshost/wdajob.go:346-508 | the first failure of a job, from the pipeline's answers alone |
| WdaJobs.WdaJob.Execute | common/ioshost/wdajob.go:346-508 | the code is that of the first step or look to fail, the runner is on the device exactly when everything before the launch succeeded, and the launch is called exactly then unless cancelled |
| WdaJobs.WdaJob.Provision | common/ioshost/wdajob.go:396-472 | provisioning ends with a runner present, or with a code, no runner and no launch |
| WdaJobs.WdaJob.SignAndInstall | common/ioshost/wdajob.go:430-472 | signing and installing after a successful fetch: the same split |
| WdaJobs.WdaJob.InstallRunner | common/ioshost/wdajob.go:460-472 | installing signed material: the same split |
| WdaJobs.WdaJob.LaunchRunner | common/ioshost/wdajob.go:482-508 | launched exactly when not cancelled; error-free exactly when the launch succeeded; the runner stays either way |
| WdaJobs.WdaJob.WaitForDevice | common/ioshost/wdajob.go:304-342 | the wait succeeds exactly when the device is or becomes present |
| WdaJobs.LaunchMeansPresent | common/ioshost/wdajob.go:482-508 | no ordered sequence of steps launches without a runner on the device |
| WdaJobs.DeviceFailedExactly | common/ioshost/manager.go:1089-1138 | a finished job leaves its device FAILED exactly when it ended without a runner, uncancelled or on a device that had already failed |
| WdaJobs.FinishOnDevice | common/ioshost/wdajob.go:520-585 | a whole job on a device, from the pipeline's answers: FAILED exactly without a runner and uncancelled or already failed, INSTALLED or READY by the control link with one |
| WdaJobs.DecisionsAlternate | common/ioshost/wdajob.go:186-223 | over any overlapping jobs the active and idle decisions strictly alternate and the last one tells whether jobs are running |
| WdaJobs.JobManager.Start | common/ioshost/wdajob.go:177-223 | empty ids are refused, a duplicate id starts nothing, only the first job to run makes the node active, and decisions keep alternating |
| WdaJobs.JobManager.End | common/ioshost/wdajob.go:205-219 | exactly this job leaves, the idle decision is made exactly when it was the last, and decisions keep alternating with the last one telling whether jobs run |
| Totp.CodeShape | common/auth/totp/totp.go:73-87 | a code is six digits: the four digest bytes picked by the low nibble of the last one, without their top bit, modulo 10^6 (section 5.3 of RFC 4226) |
| Totp.BigEndianRoundTrip | common/auth/totp/totp.go:73-87 | the eight counter bytes determine the counter |
| Totp.CodeOfStep | common/auth/totp/totp.go:68-87 | different steps are authenticated as different messages, and every step gives a six-digit code |
| Totp.CacheKeyInjective | common/auth/totp/totp.go:135-148 | cache keys of six-character codes agree only for the same node and code |
| Totp.ReplayCache.constructor | common/auth/totp/totp.go:126-130 | a new cache is empty with the shipped lifetime |
| Totp.ReplayCache.Prune | common/auth/totp/totp.go:150-156 | the loop removes exactly the entries older than the lifetime |
| Totp.ReplayCache.Claim | common/auth/totp/totp.go:135-148 | a claim succeeds exactly when no live entry holds the key, and then records it |
| Totp.Validate | common/auth/totp/totp.go:93-112 | accepted exactly when the trimmed code has six characters, matches a step in the window and can be claimed; a miss leaves the cache alone |
| Totp.OneUseExactly | common/auth/totp/totp.go:93-156 | no time step's code is accepted twice for a node in any time-ordered sequence of calls, if and only if the lifetime covers the 150 seconds in which one code is valid (section 5.2 of RFC 6238) |
| Totp.ShortTtlReplays | common/auth/totp/totp.go:126-130 | the replay that a shorter lifetime admits |
| Totp.ShippedTtlSuffices | common/auth/totp/totp.go:126-130 | the shipped 180 seconds meet the condition |
| Totp.AcceptedExactly | common/auth/totp/totp.go:93-148 | a call is accepted exactly when its code matches and the node's same code was not accepted within the lifetime |
| Totp.FreshCodeMatches | common/auth/totp/totp.go:68-112 | a code generated at most 60 seconds ago is in the window |
| Totp.FreshCodeAccepted | common/auth/totp/totp.go:68-148 | and is accepted unless it was used within the lifetime |
| FileUploadContents.CommittedIntactExactly | common/agent/host_file_upload.go:46-185 | under every interleaving of handlers at the granularity of one file-system call, a committed destination keeps exactly the bytes its upload accepted, if and only if no two ids share a temporary file and no destination is one |
| FileUploadContents.CommitSound | common/agent/host_file_upload.go:118-168 | a destination is committed only by a rename whose accepted bytes have the announced size, at most 10 MiB, and checksum, and then holds exactly those bytes; so a mismatch commits nothing |
| FileUploadReplacing.NoReplaceExactly | common/agent/host_file_upload.go:143-164 | no interleaving replaces a file for an upload that did not ask to overwrite, if and only if no other id goes to, or passes through, such an upload's destination |
| FileUploadReplacing.ReplacedUnasked | common/agent/host_file_upload.go:143-164 | the run in which two uploads both find the destination absent and the second rename replaces the first one's file |
| FileUploadReplacing.TemporaryReplaced | common/agent/host_file_upload.go:143-164 | the run in which the replaced file is another upload's temporary file |
| FileUploadReplacing.WireExactly | common/agent/host_file_upload.go:48-79 | both conditions over ids, paths and overwrite flags as they come off the wire, for any resolution of path texts to directory entries |
| FileUploadReplacing.PlainPathsExactly | common/agent/host_file_upload.go:48-79 | when different texts name different files: committed files stay intact if and only if ids that differ only in replaced characters never share a path and no path is an upload's temporary name |
| FileUploadSafety.ActiveIsListed | common/agent/host_file_upload.go:67-185 | in every reachable state, whatever the targets, no two live sessions share an id, the table lists exactly its own, so a stale session never evicts a newer one, and no committed file exceeds the limit |
| FileUploadContents.TemporaryUnbounded | common/agent/host_file_upload.go:86-122 | a temporary file can reach any size, because only the final chunk's total is compared |
| FileUploadContents.SharedTemporary | common/agent/host_file_upload.go:67-80 | the run in which one upload commits another's bytes |
| FileUploadContents.DestinationIsTemporary | common/agent/host_file_upload.go:67-80 | the run in which an upload truncates a committed file |
| FileUploadContents.InvStep | common/agent/host_file_upload.go:46-185 | every step keeps table, handles, file contents and committed files in agreement |
| FileUploadTidy.NothingLeftBehind | common/agent/host_file_upload.go:41-45 | in every run, whatever fails wherever, a file was there before, is a committed destination or belongs to a live upload; so failed uploads leave no temporary file |
| FileUpload.SameTemporaryExactly | common/agent/host_file_upload.go:263-276 | two uploads have the same temporary name exactly when their paths are equal and their ids agree up to replaced characters |
| FileUploadRoundTrip.UploadLandsExactly | common/agent/host_file_upload.go:46-168 | a fresh upload cut into any chunks and sent in order leaves exactly its bytes at the destination if and only if the total and every chunk are within the limits; otherwise nothing is committed |
| FileUploadHandler.HandledReachable | common/agent/host_file_upload.go:46-168 | a handler run alone, failing anywhere, is one of the interleavings, so the theorems above cover it |
| FileUploadHandler.FinishSplits | common/agent/host_file_upload.go:128-168 | checksum, close, stat and rename taken one after another either take the destination or, at whichever call fails, amount to the one abort |
| FileUploadObject.Uploads.constructor | common/agent/host_file_upload.go:36-39 | no sessions at start |
| FileUploadObject.Uploads.RunFileUpload | common/agent/host_file_upload.go:46-168 | a request over a limit changes nothing; any other is acknowledged exactly if its session is open, the offset is next, the write is whole and, for a final chunk, size, checksum, close, stat and rename succeed; then its bytes are accepted or all of them committed; a failure on an open session leaves neither temporary file nor table entry |
| FileUploadObject.Uploads.OpenSession | common/agent/host_file_upload.go:67-80 | the known session, or a new one on a created or truncated temporary file |
| FileUploadObject.Uploads.AbortUpload | common/agent/host_file_upload.go:170-177 | the handle is closed, exactly the temporary file is removed, and the session is no longer listed |
| FileUploadObject.Uploads.DropUploadSession | common/agent/host_file_upload.go:179-185 | the table entry goes only if it is this session's |
| FileUploadObject.Uploads.WriteChunk | common/agent/host_file_upload.go:105-126 | the accepted chunk is written at the handle, and a final one is checked and committed |
| FileUploadObject.Uploads.FinishUpload | common/agent/host_file_upload.go:128-168 | succeeds exactly when checksum, close, stat and rename all do, and then the accepted bytes are committed; otherwise nothing is and the session is aborted |
| FileUploadObject.Uploads.TakeDestination | common/agent/host_file_upload.go:143-168 | the destination becomes the temporary file, or nothing is committed and the temporary file goes |
| ManagedBlock.ExtractAfterReplaceExactly | execution/editorconfig.go:1168-1197 | a well-formed block written into a file is read back if and only if the file has no marker or its first start precedes its first end |
| ManagedBlock.ReplaceTwiceExactly | execution/editorconfig.go:1168-1186 | a second write replaces the first under exactly the same condition |
| ManagedBlock.AppendThenClear | execution/editorconfig.go:1168-1186 | clearing an appended block gives the file without trailing newlines, or empty if it was blank |
| ManagedBlock.ReplaceAround | execution/editorconfig.go:1168-1197 | writing or clearing a block leaves the text on both sides as it is, but for the newlines a clear takes |
| ManagedBlock.ReplaceUnmarked | execution/editorconfig.go:1168-1197 | on a file without a block one is put behind the text, and clearing changes nothing |
| ManagedBlock.RewriteAround | execution/editorconfig.go:302-352 | a new head replaces everything but the block |
| ManagedBlock.HeadRewriteExactly | execution/editorconfig.go:314-352 | a head rewrite keeps the block if and only if the new head has no marker or carries that very block |
| ManagedBlock.LastBlockSurvives | execution/editorconfig.go:302-461 | after any sequence of block writes, clears and head rewrites on an unmarked file, exactly the last block written is extracted |
| ManagedBlock.BuiltBlockWellFormed | execution/editorconfig.go:463-502 | a generated block is well formed if and only if its tables do not contain the end marker |
| ManagedBlock.IndexConcat | execution/editorconfig.go:1168-1197 | markers never straddle a join in front of a newline or a marker, so first occurrences add up |
| ShellQuote.ShellJoinRoundTrip | execution/docker_executor.go:207-213 | splitting the joined line as sections 2.2.2 and 2.2.3 of the POSIX.1-2017 Shell Command Language say gives the arguments back, empty and quote-filled ones included |
| ShellQuote.ShellJoin | execution/docker_executor.go:207-213 | the loop computes a line with that property |
| SystemEnvInterleaved.OverlappingCallsExactly | execution/systemenv.go:521-640 | with calls overlapping in any way, down to single stats, directory writes, removals and manifest reads and saves, the operator's resource directories survive if and only if no frame overwrites a name whose directory is the operator's |
| SystemEnvInterleaved.OverlappingManifest | execution/systemenv.go:521-640 | nor does the manifest, or any overlapping call's copy of it, ever claim one of them |
| SystemEnvInterleaved.InvStep | execution/systemenv.go:521-640 | every such step keeps the operator's files and keeps what each call is about to write or remove off them |
| SystemEnvSafety.OperatorFilesExactly | execution/systemenv.go:521-640 | for calls one after another, failing part-way or not, computed by the method below: the operator's resource directories survive if and only if no frame overwrites a name whose directory is the operator's |
| SystemEnvSafety.OperatorFilesSafe | execution/systemenv.go:509-520 | without overwrite they always survive, and the manifest never claims one |
| SystemEnvSafety.OverwriteReplaces | execution/systemenv.go:545-578 | the overwrite that replaces an operator's directory |
| SystemEnvSafety.CallKeeps | execution/systemenv.go:521-640 | one call, failing anywhere, keeps the operator's files and keeps the manifest off them |
| SystemEnvSafety.ReportComplete | execution/systemenv.go:517-519 | after a call without error every changed directory belongs to a resource reported as installed or removed |
| SystemEnvSafety.InstallThenRemove | execution/systemenv.go:521-640 | installing a new resource puts it into all its directories and the manifest and nowhere else, and removing it restores files and manifest |
| SystemEnv.KeyRoundTrip | execution/systemenv.go:643-654 | parsing a manifest key gives its resource back, slashes in names included, so keys are unique |
| SystemEnv.SafeNameMeans | execution/session.go:1858-1873 | a directory name is letters, digits, dashes and underscores without outer dashes; a name that already is stays, any other is dashed and trimmed |
| SystemEnvObject.Home.SyncSystemEnv | execution/systemenv.go:521-640 | after a successful call: an entry that shares no directory with another is skipped exactly if one of its directories existed and overwrite was off, and otherwise is in all its directories, in the saved manifest and reported installed; every removal target is gone and reported; the manifest is the old one plus the installed minus the removed. With nothing failing underneath it succeeds exactly when each removal parses, is named once and is the platform's |
| SystemEnvOutcome.WorkShows | execution/systemenv.go:521-640 | the same of the call's work on values |
| SystemEnvOutcome.WorkSucceeds | execution/systemenv.go:610-640 | when a call succeeds, given that no fetch, copy or removal fails |
| SystemEnvAlone.CallIsInterleaving | execution/systemenv.go:521-640 | a call that runs alone, failing anywhere, is one of the interleavings and ends as the call does |
| SystemEnvObject.Home.Install | execution/systemenv.go:529-588 | skipped exactly if a directory exists and overwrite is off; otherwise it ends in all its directories, the manifest and the report exactly if fetch and mirror succeed, and touches nothing else |
| SystemEnvObject.Home.Stat | execution/systemenv.go:538-544 | finds a resource in any of its directories |
| SystemEnvObject.Home.InstallAll | execution/systemenv.go:590-608 | the install loops stop at the first failure |
| SystemEnvObject.Home.Remove | execution/systemenv.go:623-627 | removes directory by directory up to the first failure |
| SystemEnvObject.Home.RemoveAll | execution/systemenv.go:610-632 | the removal loop refuses anything outside the manifest |
| ClientConfig.OrderFreeExactly | common/agent/client.go:583-600 | every reordering and duplication of frames behind a revision gate ends the same if and only if one frame alone has the highest revision that can take effect; proxies use the lax gate |
| ClientConfig.FinalWins | common/agent/client.go:583-600 | what is in force after any frames has the highest revision received and is the first frame of it; with revision zero it is the last frame, or nothing behind the strict gate |
| ClientConfig.FinalIsTop | common/agent/client.go:583-600 | any order of a set of frames ends in one of its top frames, or in the start when none takes effect |
| ClientConfig.PublicIpConverges | common/agent/client.go:615-717 | with lookups interleaved in any way: every configuration received has at most the revision in force, the sources in force are those of the first one that carried it, none are before a non-zero revision, a family is disabled exactly when it has no source, and a disabled one has no address |
| ClientConfig.LookupOrderFreeExactly | common/agent/client.go:615-717 | all runs that receive the same configurations, in any order and with any lookups, end with the same sources in force if and only if one configuration alone has the highest non-zero revision |
| ClientConfig.StoresOnlyCurrent | common/agent/client.go:661-717 | an address changes only by a result of the current revision for an enabled family, or by a configuration that disables it |
| ClientConfig.ConfigStore.ApplyNodeProxyConfig | common/agent/client.go:583-600 | the proxy in force stays the winner of all frames received: highest revision, first of equals; a higher revision always takes effect and none lowers it |
| ClientConfig.ConfigStore.ApplyPublicIPConfig | common/agent/client.go:615-644 | the sources in force stay the winner of all configurations received, families stay sound, and an address is lost only with its sources |
| ClientConfig.ConfigStore.StartLookups | common/agent/client.go:661-692 | one lookup per family with sources, none before a configuration |
| ClientConfig.ConfigStore.UpdatePublicIPResult | common/agent/client.go:694-717 | a result is stored exactly when its lookup belongs to the revision in force, for its family only, and never revives a disabled family |

## Left out

- FileUploadContents.CommitSound: speaks of runs whose targets satisfy `Clean`; without it the file may differ from the accepted bytes, as the counterexample runs show. It does not promise that an existing file is replaced only when asked, because the code does not keep that; `FileUploadReplacing.NoReplaceExactly` says exactly when it does.
- FileUploadContents.CommittedIntactExactly: paths are directory entries, resolved from their texts by one fixed function that the theorems leave abstract (`FileUploadReplacing.WireExactly`), so links or directories changed during a run are not modelled; only uploads change the entries. A destination is taken to differ from its own temporary entry.
- FileUploadReplacing.NoReplaceExactly: the same two assumptions.
- OutputQueue.ReceiverRebuildsOutput: assumes fewer than 2^64 bytes in one run, where offsets do not wrap; `OutputDelivered` covers the wrap.
- TerminalReplay.ReplayExact: assumes fewer than 2^64 chunks, so sequence numbers do not wrap.
- ClientConfig.ConfigStore.UpdatePublicIPResult: results come from lookups that were started, as in refreshPublicIPs; resolution times are not modelled.
- DeviceInventorySafety.StepMoves: stage names are taken to be separator-free, which the job engine's fixed stage words are.
- LanTunnels.LanAgent.Reconcile: passes do not overlap each other or Stop, claimed devices are listed once (they are keys of a map), and a registry removal always succeeds.
- SystemEnvInterleaved.OverlappingCallsExactly: the operator does not create or remove directories during the calls, and a manifest file that two saves garble reads as empty. Entries that overlapping saves overwrite are not tracked; the code then refuses to remove the resource.
- SystemEnvObject.Home.SyncSystemEnv: entries of one frame that share a directory are covered by the report and the manifest clauses, not by the per-entry one.
- SystemEnvObject.Home.Stat: a stat answers truly; one that fails on an existing directory would be read as absence by the code.
- FileUploadObject.Uploads.RunFileUpload: one handler at a time; interleavings are in the step system. Failure to create the temporary file changes nothing and is not a step.
- WdaJobs.DeviceFailedExactly: the device record after a job; the messages and log tails of its events are not modelled.
- Claim, ControlRunner, the connection loop's end, wipe and StartClaimedDevices in common/ioshost/manager.go are steps on values (`DeviceInventory.ChangeOf`, `DeviceLifecycle`), not methods; resolving a device by server id is abstracted to its UDID.
- Transport, xctest and port settings of a device: they only decide whether its loop restarts, which is a free choice in the Configure step.
- Config and credential files on disk (devices.json), upload path validation, and the copied contents of fetched resources.
- Reuse of an output queue after stop, and drain after the context is cancelled with items left: the code does not promise them.
- The order of the start frame on the runtime's stdin, a single live editor run under stopAll, the pause flag's order against job decisions, and READY implying a live control link: the code does not keep these.
- Exact-set claims for skill and plugin sync, and line preservation when a block is cleared from the middle of a file.
- Duplicate run ids in tool runs.
- HMAC-SHA1, SHA-256, base32, JSON, regular expressions and URL parsing are abstract.
- Git, docker, PTY, go-ios, Apple signing, downloads, archives, autostart, menus, logging, system info and command-line flags are outside calls.
- The TypeScript runtime files are thin wrappers and would only add easy members.
