/** syncSystemEnv calls that overlap: every frame is handled by a goroutine of its own
    (execution/handler.go), so their stats, writes, removals, manifest reads and manifest
    saves interleave. A step is one of these. A fetch, a copy and a removal write their
    directory any number of times before they succeed or fail. */
module SystemEnvInterleaved {
  import opened Text
  import opened SystemEnv
  import opened SystemEnvSafety

  /** Looking(n): n directories were found absent. Removing(n): n directories are gone. */
  datatype Phase = Ready | Looking(n: nat) | Fetching | Mirroring | Removing(n: nat)

  /** One goroutine: its frame, its manifest in memory, and the entry it is at. */
  datatype Task = Task(frame: Frame, ledger: set<Ref>, next: nat, phase: Phase)

  datatype Home = Home(tree: Tree, manifest: set<Ref>, tasks: map<nat, Task>)

  datatype Step =
    | Begin(id: nat, frame: Frame, readable: bool)
    | Next(id: nat)
    | Look(id: nat)
    | Write(id: nat, content: Option<Content>)
    | Finish(id: nat)
    | Fail(id: nat)
    | Save(id: nat, save: Save)

  function Total(f: Frame): nat
  {
    |f.installs| + |f.removes|
  }

  /** The resource that is being installed or removed. */
  function Current(t: Task): Option<Ref>
  {
    var k := t.next - |t.frame.installs|;
    if t.next < |t.frame.installs| then Some(t.frame.installs[t.next])
    else if k < |t.frame.removes| then t.frame.removes[k]
    else None
  }

  /** The directory a phase works on. */
  function Aim(t: Task): Option<Place>
  {
    if Current(t).None? then None
    else
      var places := Places(Current(t).value);
      match t.phase
      case Looking(n) => if n < |places| then Some(places[n]) else None
      case Fetching => Some(places[0])
      case Mirroring => if 1 < |places| then Some(places[1]) else None
      case Removing(n) => if n < |places| then Some(places[n]) else None
      case Ready => None
  }

  predicate Writing(t: Task)
  {
    (t.phase.Fetching? || t.phase.Mirroring? || t.phase.Removing?) && Aim(t).Some?
  }

  ghost predicate Enabled(h: Home, step: Step, frames: iset<Frame>)
  {
    match step
    case Begin(id, f, _) => id !in h.tasks && f in frames
    case Next(id) => id in h.tasks && h.tasks[id].phase.Ready? && h.tasks[id].next < Total(h.tasks[id].frame)
    case Look(id) => id in h.tasks && h.tasks[id].phase.Looking? && Aim(h.tasks[id]).Some?
    case Write(id, _) => id in h.tasks && Writing(h.tasks[id])
    case Finish(id) => id in h.tasks && Writing(h.tasks[id])
    case Fail(id) => id in h.tasks && Writing(h.tasks[id])
    case Save(id, _) => id in h.tasks && h.tasks[id].phase.Ready? && h.tasks[id].next == Total(h.tasks[id].frame)
  }

  /** The loops' next entry; None when the call ends with an error. */
  function Chosen(t: Task): Option<Task>
  {
    if t.next < |t.frame.installs| then
      Some(if t.frame.installs[t.next].name == [] then t.(next := t.next + 1) else t.(phase := Looking(0)))
    else if Current(t).None? || Current(t).value !in t.ledger then None
    else Some(t.(phase := Removing(0)))
  }

  /** What one stat leads to. */
  function Looked(t: Task, found: bool): Task
    requires t.phase.Looking? && Current(t).Some?
  {
    if found then
      if t.frame.overwrite then t.(phase := Fetching) else t.(phase := Ready, next := t.next + 1)
    else if t.phase.n + 1 < |Places(Current(t).value)| then t.(phase := Looking(t.phase.n + 1))
    else t.(phase := Fetching)
  }

  /** The fetch, copy or removal of one directory succeeds. */
  function Done(t: Task): Task
    requires Writing(t)
  {
    var ref := Current(t).value;
    match t.phase
    case Fetching =>
      if ref.kind.Skill? then t.(phase := Mirroring)
      else t.(ledger := t.ledger + {ref}, next := t.next + 1, phase := Ready)
    case Mirroring => t.(ledger := t.ledger + {ref}, next := t.next + 1, phase := Ready)
    case Removing(n) =>
      if n + 1 < |Places(ref)| then t.(phase := Removing(n + 1))
      else t.(ledger := t.ledger - {ref}, next := t.next + 1, phase := Ready)
  }

  ghost function Apply(h: Home, step: Step, frames: iset<Frame>): Home
    requires Enabled(h, step, frames)
  {
    match step
    case Begin(id, f, readable) =>
      h.(tasks := h.tasks[id := Task(f, if readable then h.manifest else {}, 0, Ready)])
    case Next(id) =>
      var t := Chosen(h.tasks[id]);
      h.(tasks := if t.Some? then h.tasks[id := t.value] else h.tasks - {id})
    case Look(id) =>
      var t := h.tasks[id];
      h.(tasks := h.tasks[id := Looked(t, Aim(t).value in h.tree)])
    case Write(id, content) => h.(tree := SetPlace(h.tree, Aim(h.tasks[id]).value, content))
    case Finish(id) =>
      var t := h.tasks[id];
      Home(if t.phase.Removing? then h.tree - {Aim(t).value} else h.tree, h.manifest, h.tasks[id := Done(t)])
    case Fail(id) => h.(tasks := h.tasks - {id})
    case Save(id, save) =>
      Home(h.tree,
           if save.Saved? then h.tasks[id].ledger else if save.Garbled? then {} else h.manifest,
           h.tasks - {id})
  }

  // ---------------------------------------------------------------- what every interleaving keeps

  /** The call's memory claims nothing of the operator's, and what it is about to write was
      found absent in every directory, is asked to be overwritten, or is in its memory. */
  ghost predicate TaskApart(t: Task, own: set<Place>)
  {
    && Clear(t.ledger, own)
    && match t.phase
       case Ready => true
       case Looking(n) =>
         t.next < |t.frame.installs| && Current(t).value.name != [] && AbsentUpTo(Current(t).value, n, own)
       case Fetching => t.next < |t.frame.installs| && !Hits(Current(t).value, own)
       case Mirroring => t.next < |t.frame.installs| && !Hits(Current(t).value, own)
       case Removing(_) => Current(t).Some? && !Hits(Current(t).value, own)
  }

  ghost predicate Clear(refs: set<Ref>, own: set<Place>)
  {
    forall r :: r in refs ==> !Hits(r, own)
  }

  predicate AbsentUpTo(ref: Ref, n: nat, own: set<Place>)
  {
    forall j :: 0 <= j < n && j < |Places(ref)| ==> Places(ref)[j] !in own
  }

  ghost predicate TasksApart(tasks: map<nat, Task>, frames: iset<Frame>, own: set<Place>)
  {
    forall id :: id in tasks ==> tasks[id].frame in frames && TaskApart(tasks[id], own)
  }

  ghost predicate Inv(h: Home, frames: iset<Frame>, own: set<Place>, base: Tree)
  {
    Apart(h.tree, h.manifest, own, base) && TasksApart(h.tasks, frames, own)
  }

  lemma ChosenApart(t: Task, own: set<Place>)
    requires t.phase.Ready? && t.next < Total(t.frame) && TaskApart(t, own)
    ensures Chosen(t).Some? ==> Chosen(t).value.frame == t.frame && TaskApart(Chosen(t).value, own)
  {
  }

  /** The operator's directories are there at every stat, so a task that saw none of its own
      directories is not about to write one of theirs. */
  lemma LookedApart(t: Task, found: bool, own: set<Place>)
    requires t.phase.Looking? && Aim(t).Some? && TaskApart(t, own) && Careful(iset{t.frame}, own)
    requires Aim(t).value in own ==> found
    ensures Looked(t, found).frame == t.frame && TaskApart(Looked(t, found), own)
  {
  }

  lemma DoneApart(t: Task, own: set<Place>)
    requires Writing(t) && TaskApart(t, own)
    ensures Aim(t).value !in own && Done(t).frame == t.frame && TaskApart(Done(t), own)
  {
    assert Aim(t).value in Places(Current(t).value);
  }

  lemma TaskCareful(t: Task, frames: iset<Frame>, own: set<Place>)
    requires Careful(frames, own) && t.frame in frames
    ensures Careful(iset{t.frame}, own)
  {
  }

  lemma InvTask(h: Home, step: Step, frames: iset<Frame>, own: set<Place>, base: Tree)
    requires Enabled(h, step, frames) && Inv(h, frames, own, base) && Careful(frames, own)
    requires step.Next? || step.Look? || step.Finish?
    ensures Inv(Apply(h, step, frames), frames, own, base)
  {
    var t := h.tasks[step.id];
    match step
    case Next(_) => ChosenApart(t, own);
    case Look(_) =>
      TaskCareful(t, frames, own);
      LookedApart(t, Aim(t).value in h.tree, own);
    case Finish(_) => DoneApart(t, own);
  }

  lemma InvStep(h: Home, step: Step, frames: iset<Frame>, own: set<Place>, base: Tree)
    requires Enabled(h, step, frames) && Inv(h, frames, own, base) && Careful(frames, own)
    ensures Inv(Apply(h, step, frames), frames, own, base)
  {
    match step
    case Begin(_, _, _) =>
    case Write(id, _) => DoneApart(h.tasks[id], own);
    case Fail(_) =>
    case Save(id, _) => assert Clear(h.tasks[id].ledger, own);
    case _ => InvTask(h, step, frames, own, base);
  }

  ghost predicate ValidRun(h: Home, steps: seq<Step>, frames: iset<Frame>)
    decreases |steps|
  {
    steps == [] || (Enabled(h, steps[0], frames) && ValidRun(Apply(h, steps[0], frames), steps[1..], frames))
  }

  ghost function Exec(h: Home, steps: seq<Step>, frames: iset<Frame>): Home
    requires ValidRun(h, steps, frames)
    decreases |steps|
  {
    if steps == [] then h else Exec(Apply(h, steps[0], frames), steps[1..], frames)
  }

  /** Where overlapping calls with these frames can lead. */
  ghost predicate Reachable(s: State, h: Home, frames: iset<Frame>)
  {
    exists steps :: ValidRun(AtRest(s), steps, frames) && Exec(AtRest(s), steps, frames) == h
  }

  function AtRest(s: State): Home
  {
    Home(s.tree, s.manifest, map[])
  }

  lemma {:induction false} InvRun(h: Home, steps: seq<Step>, frames: iset<Frame>, own: set<Place>, base: Tree)
    requires ValidRun(h, steps, frames) && Inv(h, frames, own, base) && Careful(frames, own)
    ensures Inv(Exec(h, steps, frames), frames, own, base)
    decreases |steps|
  {
    if steps != [] {
      InvStep(h, steps[0], frames, own, base);
      InvRun(Apply(h, steps[0], frames), steps[1..], frames, own, base);
    }
  }

  lemma InvReachable(s: State, h: Home, frames: iset<Frame>, own: set<Place>)
    requires Reachable(s, h, frames) && Apart(s.tree, s.manifest, own, s.tree) && Careful(frames, own)
    ensures Inv(h, frames, own, s.tree)
  {
    var steps :| ValidRun(AtRest(s), steps, frames) && Exec(AtRest(s), steps, frames) == h;
    InvRun(AtRest(s), steps, frames, own, s.tree);
  }

  // ---------------------------------------------------------------- the overwriting run

  lemma {:induction false} ExecAppend(h: Home, steps: seq<Step>, step: Step, frames: iset<Frame>)
    requires ValidRun(h, steps, frames) && Enabled(Exec(h, steps, frames), step, frames)
    ensures ValidRun(h, steps + [step], frames)
    ensures Exec(h, steps + [step], frames) == Apply(Exec(h, steps, frames), step, frames)
    decreases |steps|
  {
    if steps == [] {
      assert [step][1..] == [];
    } else {
      assert (steps + [step])[1..] == steps[1..] + [step];
      ExecAppend(Apply(h, steps[0], frames), steps[1..], step, frames);
    }
  }

  lemma ReachNext(s: State, h: Home, step: Step, frames: iset<Frame>) returns (h': Home)
    requires Reachable(s, h, frames) && Enabled(h, step, frames)
    ensures h' == Apply(h, step, frames) && Reachable(s, h', frames)
  {
    var steps :| ValidRun(AtRest(s), steps, frames) && Exec(AtRest(s), steps, frames) == h;
    ExecAppend(AtRest(s), steps, step, frames);
    h' := Apply(h, step, frames);
  }

  /** Task 0 is in this phase of entry k of an overwriting frame. */
  ghost predicate At(h: Home, f: Frame, k: nat, phase: Phase)
  {
    0 in h.tasks && h.tasks[0].frame == f && h.tasks[0].next == k && h.tasks[0].phase == phase
  }

  predicate Named(f: Frame, k: nat)
  {
    f.overwrite && k < |f.installs| && f.installs[k].name != []
  }

  /** However the stats turn out, an overwriting call gets to its fetch. */
  lemma {:induction false} ReachFetch(s: State, h: Home, f: Frame, k: nat, n: nat, frames: iset<Frame>)
    returns (h': Home)
    requires Reachable(s, h, frames) && Named(f, k) && At(h, f, k, Looking(n)) && n < |Places(f.installs[k])|
    ensures Reachable(s, h', frames) && At(h', f, k, Fetching) && h'.tree == h.tree
    decreases |Places(f.installs[k])| - n
  {
    h' := ReachNext(s, h, Look(0), frames);
    if h'.tasks[0].phase.Looking? {
      h' := ReachFetch(s, h', f, k, n + 1, frames);
    }
  }

  lemma ReachWritten(s: State, h: Home, f: Frame, k: nat, c: Content, frames: iset<Frame>) returns (h': Home)
    requires Reachable(s, h, frames) && Named(f, k) && (At(h, f, k, Fetching) || At(h, f, k, Mirroring))
    requires At(h, f, k, Mirroring) ==> f.installs[k].kind.Skill?
    ensures Reachable(s, h', frames) && h'.tree == h.tree[Aim(h.tasks[0]).value := c]
    ensures At(h', f, k, Mirroring) || At(h', f, k + 1, Ready)
    ensures At(h', f, k, Mirroring) <==> At(h, f, k, Fetching) && f.installs[k].kind.Skill?
  {
    h' := ReachNext(s, h, Write(0, Some(c)), frames);
    h' := ReachNext(s, h', Finish(0), frames);
  }

  predicate Holds(tree: Tree, p: Place, c: Content)
  {
    p in tree && tree[p] == c
  }

  /** Entry k is installed with content c. */
  lemma ReachInstalled(s: State, h: Home, f: Frame, k: nat, c: Content, frames: iset<Frame>) returns (h': Home)
    requires Reachable(s, h, frames) && Named(f, k) && At(h, f, k, Ready)
    ensures Reachable(s, h', frames) && At(h', f, k + 1, Ready)
    ensures forall p :: p in Places(f.installs[k]) ==> Holds(h'.tree, p, c)
  {
    var h1 := ReachNext(s, h, Next(0), frames);
    var h2 := ReachFetch(s, h1, f, k, 0, frames);
    h' := ReachWritten(s, h2, f, k, c, frames);
    if f.installs[k].kind.Skill? {
      h' := ReachWritten(s, h', f, k, c, frames);
    }
  }

  lemma {:induction false} ReachEntry(s: State, f: Frame, k: nat, c: Content, frames: iset<Frame>) returns (h: Home)
    requires f in frames && f.overwrite && k <= |f.installs|
    ensures Reachable(s, h, frames) && At(h, f, k, Ready)
  {
    if k == 0 {
      assert ValidRun(AtRest(s), [], frames) && Exec(AtRest(s), [], frames) == AtRest(s);
      h := ReachNext(s, AtRest(s), Begin(0, f, true), frames);
    } else {
      h := ReachEntry(s, f, k - 1, c, frames);
      if f.installs[k - 1].name == [] {
        h := ReachNext(s, h, Next(0), frames);
      } else {
        h := ReachInstalled(s, h, f, k - 1, c, frames);
      }
    }
  }

  /** Under every interleaving of overlapping calls, failing anywhere or not at all, the
      operator's directories stay as they were, exactly when no frame overwrites a name whose
      directory is the operator's. */
  lemma OverlappingCallsExactly(s: State, frames: iset<Frame>, own: set<Place>)
    requires Apart(s.tree, s.manifest, own, s.tree)
    ensures (forall h :: Reachable(s, h, frames) ==> Untouched(h.tree, own, s.tree)) <==> Careful(frames, own)
  {
    if Careful(frames, own) {
      forall h | Reachable(s, h, frames)
        ensures Untouched(h.tree, own, s.tree)
      {
        InvReachable(s, h, frames, own);
      }
    } else {
      var f, k :| f in frames && f.overwrite && 0 <= k < |f.installs| && f.installs[k].name != []
                  && Hits(f.installs[k], own);
      var p :| p in Places(f.installs[k]) && p in own;
      var c := s.tree[p] + "'";
      var h := ReachEntry(s, f, k, c, frames);
      h := ReachInstalled(s, h, f, k, c, frames);
      assert Holds(h.tree, p, c) && |c| != |s.tree[p]|;
    }
  }

  /** Nor does the manifest ever claim one of them, nor any call's memory of it. */
  lemma OverlappingManifest(s: State, h: Home, frames: iset<Frame>, own: set<Place>)
    requires Reachable(s, h, frames) && Apart(s.tree, s.manifest, own, s.tree) && Careful(frames, own)
    ensures Clear(h.manifest, own) && forall id :: id in h.tasks ==> Clear(h.tasks[id].ledger, own)
  {
    InvReachable(s, h, frames, own);
  }
}
