/** When no file is replaced by an upload that did not ask to overwrite, and both upload
    conditions in terms of the requests on the wire. */
module FileUploadReplacing {
  import opened Text
  import opened FileUpload
  import opened FileUploadSafety
  import opened FileUploadContents

  /** An upload that must not overwrite shares its destination with no other id's destination
      or temporary file. */
  ghost predicate Exclusive(targets: iset<Target>)
  {
    forall t, u :: t in targets && u in targets && !t.overwrite && t.id != u.id ==> u.dest != t.dest && u.tmp != t.dest
  }

  /** A destination that was found free is still free when its rename comes. */
  ghost predicate StillFree(s: State)
  {
    forall k: nat :: At(s, k, Cleared) && !s.sessions[k].phase.req.target.overwrite ==>
      s.sessions[k].phase.req.target.dest !in s.paths
  }

  ghost predicate Unreplaced(s: State, targets: iset<Target>)
  {
    Linked(s, targets) && StillFree(s) && s.replaced == {}
  }

  // ---------------------------------------------------------------- steps

  /** A cleared upload and any other active session go under different ids. */
  lemma ClearedApart(s: State, targets: iset<Target>, k: nat, j: nat)
    requires Linked(s, targets) && At(s, k, Cleared) && j < |s.sessions| && j != k && Active(s.sessions[j])
    ensures s.sessions[k].phase.req.target in targets
    ensures s.sessions[k].phase.req.target.id != s.sessions[j].target.id
  {
    assert SessionOk(s.sessions[k], targets);
  }

  lemma ArriveUnreplaced(s: State, targets: iset<Target>, r: Request)
    requires Unreplaced(s, targets) && Exclusive(targets) && r.target in targets
    ensures StillFree(ApplyArrive(s, r)) && ApplyArrive(s, r).replaced == {}
  {
    var s' := ApplyArrive(s, r);
    forall k: nat | At(s', k, Cleared) && !s'.sessions[k].phase.req.target.overwrite
      ensures s'.sessions[k].phase.req.target.dest !in s'.paths
    {
      assert At(s, k, Cleared) && SessionOk(s.sessions[k], targets);
    }
  }

  /** Steps that add no directory entry and clear no destination. */
  lemma NoNewEntry(s: State, s': State)
    requires StillFree(s) && (forall p :: p in s'.paths ==> p in s.paths)
    requires forall k: nat :: At(s', k, Cleared) ==> At(s, k, Cleared) && s'.sessions[k] == s.sessions[k]
    ensures StillFree(s')
  {
  }

  lemma ChunkUnreplaced(s: State, targets: iset<Target>, at: nat, cancelled: bool, n: nat)
    requires Unreplaced(s, targets) && Enabled(s, Chunk(at, cancelled, n))
    ensures StillFree(ApplyChunk(s, at, cancelled, n)) && ApplyChunk(s, at, cancelled, n).replaced == {}
  {
    NoNewEntry(s, ApplyChunk(s, at, cancelled, n));
  }

  lemma RenameUnreplaced(s: State, targets: iset<Target>, k: nat, renameOk: bool)
    requires Unreplaced(s, targets) && Exclusive(targets) && At(s, k, Cleared)
    ensures StillFree(ApplyRename(s, k, renameOk)) && ApplyRename(s, k, renameOk).replaced == {}
  {
    var s' := ApplyRename(s, k, renameOk);
    forall j: nat | At(s', j, Cleared) && !s'.sessions[j].phase.req.target.overwrite
      ensures s'.sessions[j].phase.req.target.dest !in s'.paths
    {
      assert At(s, j, Cleared) && j != k;
      ClearedApart(s, targets, j, k);
      assert SessionOk(s.sessions[k], targets);
    }
  }

  lemma OtherUnreplaced(s: State, step: Step)
    requires Sane(s) && StillFree(s) && Enabled(s, step) && (step.Check? || step.Close? || step.Drop?)
    ensures StillFree(Apply(s, step)) && Apply(s, step).replaced == s.replaced
  {
    NoNewEntry(s, Apply(s, step));
  }

  lemma StillFreeStep(s: State, targets: iset<Target>, step: Step)
    requires Unreplaced(s, targets) && Exclusive(targets) && Enabled(s, step)
    requires step.Arrive? ==> step.req.target in targets
    ensures StillFree(Apply(s, step)) && Apply(s, step).replaced == {}
  {
    match step
    case Arrive(r) => ArriveUnreplaced(s, targets, r);
    case Chunk(at, cancelled, n) => ChunkUnreplaced(s, targets, at, cancelled, n);
    case Rename(k, renameOk) => RenameUnreplaced(s, targets, k, renameOk);
    case Stat(k, statOk) => StatUnreplaced(s, k, statOk);
    case _ => OtherUnreplaced(s, step);
  }

  lemma UnreplacedStep(s: State, targets: iset<Target>, step: Step)
    requires Unreplaced(s, targets) && Exclusive(targets) && Enabled(s, step)
    requires step.Arrive? ==> step.req.target in targets
    ensures Unreplaced(Apply(s, step), targets)
  {
    LinkedStep(s, targets, step);
    StillFreeStep(s, targets, step);
  }

  lemma StatUnreplaced(s: State, k: nat, statOk: bool)
    requires Sane(s) && StillFree(s) && At(s, k, Closed)
    ensures StillFree(ApplyStat(s, k, statOk)) && ApplyStat(s, k, statOk).replaced == s.replaced
  {
    var s' := ApplyStat(s, k, statOk);
    forall j: nat | At(s', j, Cleared) && !s'.sessions[j].phase.req.target.overwrite
      ensures s'.sessions[j].phase.req.target.dest !in s'.paths
    {
      assert j != k ==> At(s, j, Cleared);
    }
  }

  lemma {:induction false} UnreplacedRun(s: State, targets: iset<Target>, steps: seq<Step>)
    requires Unreplaced(s, targets) && Exclusive(targets) && ValidRun(s, steps) && RequestsIn(steps, targets)
    ensures Unreplaced(Exec(s, steps), targets)
    decreases |steps|
  {
    if steps != [] {
      UnreplacedStep(s, targets, steps[0]);
      UnreplacedRun(Apply(s, steps[0]), targets, steps[1..]);
    }
  }

  // ---------------------------------------------------------------- the converse

  /** t's upload, empty, has found its destination free and stands before its rename. */
  lemma ClearedFirst(targets: iset<Target>, t: Target) returns (s: State)
    requires t in targets && t.dest != t.tmp
    ensures Sane(s) && Reachable(s, targets) && s.waiting == [] && s.table == map[t.id := 0] && s.replaced == {}
    ensures s.paths == map[t.tmp := 0] && |s.inodes| == 1
    ensures s.sessions == [Session(t, 0, 0, 0, false, Held(Cleared, Plain(t, 0, [], true)), [])]
  {
    EmptyReachable(targets);
    s := OpenWith(EMPTY, targets, t, [], true);
    assert s.sessions == [Session(t, 0, 0, 0, true, Held(Finishing, Plain(t, 0, [], true)), [])];
    s := ClearNow(s, targets, 0);
  }

  /** The check and the rename are two calls: another upload to the same destination fits
      between them, and its file is replaced unasked. */
  lemma ReplacedUnasked(targets: iset<Target>, t: Target, u: Target) returns (s: State)
    requires t in targets && u in targets && !t.overwrite && t.id != u.id && u.dest == t.dest
    requires t.dest != t.tmp && u.dest != u.tmp
    ensures Reachable(s, targets) && t.dest in s.replaced
  {
    s := ClearedFirst(targets, t);
    s := OpenWith(s, targets, u, [], true);
    s := UploadBehind(s, targets, t, u);
    s := ReopenAndRename(s, targets, t, u);
  }

  lemma ReopenAndRename(s: State, targets: iset<Target>, t: Target, u: Target) returns (s': State)
    requires Sane(s) && Reachable(s, targets) && u in targets && s.waiting == [] && u.id !in s.table && !t.overwrite
    requires At(s, 0, Cleared) && s.sessions[0].target == s.sessions[0].phase.req.target == t
    requires t.dest in s.paths && (t.tmp != u.tmp ==> t.tmp in s.paths)
    ensures Reachable(s', targets) && t.dest in s'.replaced
  {
    s' := OpenWith(s, targets, u, [], false);
    s' := ReachNext(s', targets, Rename(0, true));
  }

  lemma UploadBehind(s: State, targets: iset<Target>, t: Target, u: Target) returns (s': State)
    requires Sane(s) && Reachable(s, targets) && s.waiting == [] && |s.sessions| == 2 && At(s, 0, Cleared)
    requires s.table == map[t.id := 0, u.id := 1] && t.id != u.id && s.sessions[0].target == t &&
             s.sessions[1].target == u
    requires At(s, 1, Finishing) && s.sessions[1].phase.req == Plain(u, 0, [], true)
    requires u.tmp in s.paths && t.tmp in s.paths && u.dest !in s.paths
    ensures Sane(s') && Reachable(s', targets) && s'.waiting == [] && |s'.sessions| == 2 && s'.table == map[t.id := 0]
    ensures s'.sessions[0] == s.sessions[0] && u.dest in s'.paths && (t.tmp != u.tmp ==> t.tmp in s'.paths)
  {
    s' := ClearNow(s, targets, 1);
    s' := RenameDrop(s', targets, 1);
    assert s'.table == map[t.id := 0];
  }

  lemma RenameDrop(s: State, targets: iset<Target>, k: nat) returns (s': State)
    requires Sane(s) && Reachable(s, targets) && At(s, k, Cleared) && s.sessions[k].target.tmp in s.paths
    ensures Sane(s') && Reachable(s', targets) && s'.waiting == s.waiting && |s'.sessions| == |s.sessions|
    ensures forall j :: 0 <= j < |s.sessions| && j != k ==> s'.sessions[j] == s.sessions[j]
    ensures var x := s.sessions[k];
      && s'.paths == (s.paths - {x.target.tmp})[x.phase.req.target.dest := s.paths[x.target.tmp]]
      && s'.table == if x.target.id in s.table && s.table[x.target.id] == k then s.table - {x.target.id} else s.table
  {
    s' := ReachNext(s, targets, Rename(k, true));
    s' := ReachNext(s', targets, Drop(k));
  }

  /** Another upload's first chunk puts its temporary file where the destination was free. */
  lemma TemporaryReplaced(targets: iset<Target>, t: Target, u: Target) returns (s: State)
    requires t in targets && u in targets && !t.overwrite && t.id != u.id && u.tmp == t.dest && t.dest != t.tmp
    ensures Reachable(s, targets) && t.dest in s.replaced
  {
    s := ClearedFirst(targets, t);
    s := OpenWith(s, targets, u, [], false);
    s := ReachNext(s, targets, Rename(0, true));
  }

  /** No interleaving replaces a file for an upload that did not ask to overwrite, exactly
      when no other id's upload goes to, or passes through, such an upload's destination. */
  lemma NoReplaceExactly(targets: iset<Target>)
    requires Proper(targets)
    ensures (forall s :: Reachable(s, targets) ==> s.replaced == {}) <==> Exclusive(targets)
  {
    if Exclusive(targets) {
      forall s | Reachable(s, targets)
        ensures s.replaced == {}
      {
        var s0, steps :| Initial(s0) && ValidRun(s0, steps) && RequestsIn(steps, targets) && Exec(s0, steps) == s;
        UnreplacedRun(s0, targets, steps);
      }
    } else {
      var t, u :| t in targets && u in targets && !t.overwrite && t.id != u.id && (u.dest == t.dest || u.tmp == t.dest);
      if u.dest == t.dest {
        var s := ReplacedUnasked(targets, t, u);
      } else {
        var s := TemporaryReplaced(targets, t, u);
      }
    }
  }

  // ---------------------------------------------------------------- on the wire

  ghost function Targets(asks: iset<Ask>, name: string -> string): iset<Target>
  {
    iset a | a in asks :: TargetOf(a, name)
  }

  /** However paths resolve, a path and the longer one with the temporary ending differ. */
  ghost predicate Separates(name: string -> string, asks: iset<Ask>)
  {
    forall a :: a in asks ==> name(a.path) != name(TempText(a))
  }

  /** Both conditions for requests on a file system that resolves paths by name. */
  lemma WireExactly(asks: iset<Ask>, name: string -> string)
    requires Separates(name, asks)
    ensures (forall s :: Reachable(s, Targets(asks, name)) ==> Good(s)) <==>
            && (forall a, b :: a in asks && b in asks && a.id != b.id ==> name(TempText(a)) != name(TempText(b)))
            && (forall a, b :: a in asks && b in asks ==> name(a.path) != name(TempText(b)))
    ensures (forall s :: Reachable(s, Targets(asks, name)) ==> s.replaced == {}) <==>
            forall a, b :: a in asks && b in asks && !a.overwrite && a.id != b.id ==>
              name(b.path) != name(a.path) && name(TempText(b)) != name(a.path)
  {
    var targets := Targets(asks, name);
    CommittedIntactExactly(targets);
    NoReplaceExactly(targets);
    forall a | a in asks
      ensures TargetOf(a, name) in targets
    {
    }
    WireClean(asks, name);
    WireExclusive(asks, name);
  }

  lemma WireClean(asks: iset<Ask>, name: string -> string)
    ensures Clean(Targets(asks, name)) <==>
            && (forall a, b :: a in asks && b in asks && a.id != b.id ==> name(TempText(a)) != name(TempText(b)))
            && (forall a, b :: a in asks && b in asks ==> name(a.path) != name(TempText(b)))
  {
    var targets := Targets(asks, name);
    if Clean(targets) {
      forall a, b | a in asks && b in asks
        ensures a.id != b.id ==> name(TempText(a)) != name(TempText(b))
        ensures name(a.path) != name(TempText(b))
      {
        assert TargetOf(a, name) in targets && TargetOf(b, name) in targets;
      }
    }
  }

  lemma WireExclusive(asks: iset<Ask>, name: string -> string)
    ensures Exclusive(Targets(asks, name)) <==>
            forall a, b :: a in asks && b in asks && !a.overwrite && a.id != b.id ==>
              name(b.path) != name(a.path) && name(TempText(b)) != name(a.path)
  {
    var targets := Targets(asks, name);
    if Exclusive(targets) {
      forall a, b | a in asks && b in asks && !a.overwrite && a.id != b.id
        ensures name(b.path) != name(a.path) && name(TempText(b)) != name(a.path)
      {
        assert TargetOf(a, name) in targets && TargetOf(b, name) in targets;
      }
    }
  }

  /** Where every path text is its own file: files stay intact exactly when no two ids that
      differ only in replaced characters go to one path, and no path ends like another
      upload's temporary file. */
  lemma PlainPathsExactly(asks: iset<Ask>)
    requires forall a :: a in asks ==> a.id != []
    ensures (forall s :: Reachable(s, Targets(asks, p => p)) ==> Good(s)) <==>
            && (forall a, b :: a in asks && b in asks && a.path == b.path && AlikeIds(a.id, b.id) ==> a.id == b.id)
            && (forall a, b :: a in asks && b in asks ==> a.path != TempText(b))
  {
    var name: string -> string := p => p;
    forall a, b | a in asks && b in asks
      ensures TempText(a) == TempText(b) <==> a.path == b.path && AlikeIds(a.id, b.id)
      ensures name(a.path) == a.path && name(TempText(b)) == TempText(b)
    {
      SameTemporaryExactly(a, b);
    }
    assert forall a :: a in asks ==> |a.path| < |TempText(a)|;
    WireExactly(asks, name);
  }
}
