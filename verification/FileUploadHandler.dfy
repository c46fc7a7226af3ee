/** One chunk handler run to completion (common/agent/host_file_upload.go), as the composition
    of its steps, and the upload it adds up to. */
module FileUploadHandler {
  import opened Text
  import opened FileUpload
  import Safety = FileUploadSafety
  import Contents = FileUploadContents

  /** What the context, the file system and the disk answer during one call. */
  datatype Env = Env(cancelled: bool, wrote: nat, closeOk: bool, statOk: bool, renameOk: bool)

  predicate Idle(s: State)
  {
    s.waiting == [] && forall k :: 0 <= k < |s.sessions| ==> s.sessions[k].phase.Free?
  }

  // ---------------------------------------------------------------- behind the lock

  /** Only session k may differ between s and s', which have the same queue. */
  ghost predicate OnlySession(s: State, s': State, k: nat)
  {
    && k < |s.sessions| == |s'.sessions| && s'.waiting == s.waiting
    && forall j :: 0 <= j < |s.sessions| && j != k ==> s'.sessions[j] == s.sessions[j]
  }

  function Rank(phase: Phase): nat
  {
    match phase
    case Free => 5
    case Dropping => 4
    case Held(Cleared, _) => 3
    case Held(Closed, _) => 2
    case Held(Checked, _) => 1
    case Held(Finishing, _) => 0
  }

  function Checking(s: State, k: nat): (s': State)
    requires Sane(s) && k < |s.sessions|
    ensures Sane(s') && OnlySession(s, s', k) && Rank(s'.sessions[k].phase) >= 1
  {
    if At(s, k, Finishing) then ApplyCheck(s, k) else s
  }

  function Closing(s: State, k: nat, e: Env): (s': State)
    requires Sane(s) && k < |s.sessions| && Rank(s.sessions[k].phase) >= 1
    ensures Sane(s') && OnlySession(s, s', k) && Rank(s'.sessions[k].phase) >= 2
  {
    if At(s, k, Checked) then ApplyClose(s, k, e.closeOk) else s
  }

  function Stating(s: State, k: nat, e: Env): (s': State)
    requires Sane(s) && k < |s.sessions| && Rank(s.sessions[k].phase) >= 2
    ensures Sane(s') && OnlySession(s, s', k) && Rank(s'.sessions[k].phase) >= 3
  {
    if At(s, k, Closed) then ApplyStat(s, k, e.statOk) else s
  }

  function Renaming(s: State, k: nat, e: Env): (s': State)
    requires Sane(s) && k < |s.sessions| && Rank(s.sessions[k].phase) >= 3
    ensures Sane(s') && OnlySession(s, s', k) && Rank(s'.sessions[k].phase) >= 4
  {
    if At(s, k, Cleared) then ApplyRename(s, k, e.renameOk) else s
  }

  function Dropped(s: State, k: nat): (s': State)
    requires Sane(s) && k < |s.sessions| && Rank(s.sessions[k].phase) >= 4
    ensures Sane(s') && OnlySession(s, s', k) && s'.sessions[k].phase.Free?
  {
    if s.sessions[k].phase.Dropping? then ApplyDrop(s, k) else s
  }

  /** The handler of session k, behind its write, runs to its return. */
  function Finish(s: State, k: nat, e: Env): (s': State)
    requires Sane(s) && k < |s.sessions|
    ensures Sane(s') && OnlySession(s, s', k) && s'.sessions[k].phase.Free?
  {
    Dropped(Renaming(Stating(Closing(Checking(s, k), k, e), k, e), k, e), k)
  }

  function SessionOf(s: State, id: string): nat
  {
    if id in s.table then s.table[id] else |s.sessions|
  }

  /** The state once the request's session is looked up or opened. */
  function Begun(s: State, r: Request): (s': State)
    requires Sane(s) && Idle(s)
    ensures Sane(s') && Idle(s') && SessionOf(s, r.target.id) < |s'.sessions|
  {
    ApplyArrive(s, r).(waiting := [])
  }

  /** One call. A request over the limits is refused before anything happens. */
  function Handled(s: State, r: Request, e: Env): (s': State)
    requires Sane(s) && Idle(s) && e.wrote <= |r.data|
    ensures Sane(s')
  {
    if !Admissible(r) then s
    else
      var s1, k := ApplyArrive(s, r), SessionOf(s, r.target.id);
      assert s1.waiting == [Waiting(k, r)] && s1.sessions[k].phase.Free?;
      Finish(ApplyChunk(s1, 0, e.cancelled, e.wrote), k, e)
  }

  /** The same from the moment the handler holds its session's lock. */
  function Locked(s: State, k: nat, r: Request, e: Env): (s': State)
    requires Sane(s) && k < |s.sessions| && s.sessions[k].phase.Free? && e.wrote <= |r.data|
    ensures Sane(s')
  {
    if !s.sessions[k].open then s
    else if r.offset != s.sessions[k].written || e.cancelled then ApplyDrop(Abort(s, k), k)
    else Finish(AfterWrite(s, k, r, e.wrote), k, e)
  }

  /** The only waiting handler gets the lock. */
  lemma ChunkOnly(s: State, k: nat, r: Request, e: Env)
    requires Sane(s) && k < |s.sessions| && s.waiting == [Waiting(k, r)] && s.sessions[k].phase.Free? &&
             e.wrote <= |r.data|
    ensures var s0 := s.(waiting := []);
      ApplyChunk(s, 0, e.cancelled, e.wrote) ==
        if !s.sessions[k].open then s0
        else if r.offset != s.sessions[k].written || e.cancelled then Abort(s0, k)
        else AfterWrite(s0, k, r, e.wrote)
  {
    assert s.waiting[..0] + s.waiting[1..] == [];
  }

  lemma FinishDropped(s: State, k: nat, e: Env)
    requires Sane(s) && k < |s.sessions| && s.sessions[k].phase.Free?
    ensures Finish(s, k, e) == s && Finish(Abort(s, k), k, e) == ApplyDrop(Abort(s, k), k)
  {
  }

  lemma HandledIs(s: State, r: Request, e: Env)
    requires Sane(s) && Idle(s) && e.wrote <= |r.data| && Admissible(r)
    ensures Handled(s, r, e) == Locked(Begun(s, r), SessionOf(s, r.target.id), r, e)
  {
    var s1, k := ApplyArrive(s, r), SessionOf(s, r.target.id);
    assert s1.waiting == [Waiting(k, r)] && s1.sessions[k].phase.Free?;
    ChunkOnly(s1, k, r, e);
    FinishDropped(Begun(s, r), k, e);
  }

  lemma WriteOnly(s: State, k: nat, r: Request, n: nat)
    requires Sane(s) && k < |s.sessions| && n <= |r.data|
    ensures OnlySession(s, AfterWrite(s, k, r, n), k)
  {
  }

  lemma IdleAgain(s: State, s': State, k: nat)
    requires Idle(s) && OnlySession(s, s', k) && s'.sessions[k].phase.Free?
    ensures Idle(s')
  {
  }

  lemma LockedIdle(s: State, k: nat, r: Request, e: Env)
    requires Sane(s) && Idle(s) && k < |s.sessions| && e.wrote <= |r.data|
    ensures Idle(Locked(s, k, r, e))
  {
    if s.sessions[k].open {
      if r.offset == s.sessions[k].written && !e.cancelled {
        var a := AfterWrite(s, k, r, e.wrote);
        WriteOnly(s, k, r, e.wrote);
        IdleAgain(s, Finish(a, k, e), k);
      } else {
        IdleAgain(s, ApplyDrop(Abort(s, k), k), k);
      }
    }
  }

  lemma HandledIdle(s: State, r: Request, e: Env)
    requires Sane(s) && Idle(s) && e.wrote <= |r.data|
    ensures Idle(Handled(s, r, e))
  {
    if Admissible(r) {
      HandledIs(s, r, e);
      LockedIdle(Begun(s, r), SessionOf(s, r.target.id), r, e);
    }
  }

  // ---------------------------------------------------------------- one interleaving

  lemma EndReachable(s: State, targets: iset<Target>, k: nat, e: Env)
    requires Sane(s) && Safety.Reachable(s, targets) && k < |s.sessions| && Rank(s.sessions[k].phase) >= 3
    ensures Safety.Reachable(Dropped(Renaming(s, k, e), k), targets)
  {
    var s1 := Renaming(s, k, e);
    if At(s, k, Cleared) {
      var _ := Safety.ReachNext(s, targets, Rename(k, e.renameOk));
    }
    if s1.sessions[k].phase.Dropping? {
      var _ := Safety.ReachNext(s1, targets, Drop(k));
    }
  }

  lemma MiddleReachable(s: State, targets: iset<Target>, k: nat, e: Env)
    requires Sane(s) && Safety.Reachable(s, targets) && k < |s.sessions| && Rank(s.sessions[k].phase) >= 1
    ensures Safety.Reachable(Stating(Closing(s, k, e), k, e), targets)
  {
    var s1 := Closing(s, k, e);
    if At(s, k, Checked) {
      var _ := Safety.ReachNext(s, targets, Close(k, e.closeOk));
    }
    if At(s1, k, Closed) {
      var _ := Safety.ReachNext(s1, targets, Stat(k, e.statOk));
    }
  }

  lemma FinishReachable(s: State, targets: iset<Target>, k: nat, e: Env)
    requires Sane(s) && Safety.Reachable(s, targets) && k < |s.sessions|
    ensures Safety.Reachable(Finish(s, k, e), targets)
  {
    var s1 := Checking(s, k);
    if At(s, k, Finishing) {
      var _ := Safety.ReachNext(s, targets, Check(k));
    }
    MiddleReachable(s1, targets, k, e);
    EndReachable(Stating(Closing(s1, k, e), k, e), targets, k, e);
  }

  lemma ChunkReachable(s: State, targets: iset<Target>, k: nat, e: Env)
    requires Sane(s) && Safety.Reachable(s, targets) && |s.waiting| == 1 && s.waiting[0].session == k
    requires s.sessions[k].phase.Free? && e.wrote <= |s.waiting[0].req.data|
    ensures k < |ApplyChunk(s, 0, e.cancelled, e.wrote).sessions|
    ensures Safety.Reachable(Finish(ApplyChunk(s, 0, e.cancelled, e.wrote), k, e), targets)
  {
    var s2 := Safety.ReachNext(s, targets, Chunk(0, e.cancelled, e.wrote));
    FinishReachable(s2, targets, k, e);
  }

  /** A handler run alone is one interleaving of its steps. */
  lemma HandledReachable(s: State, targets: iset<Target>, r: Request, e: Env)
    requires Sane(s) && Idle(s) && e.wrote <= |r.data| && Safety.Reachable(s, targets) && r.target in targets
    ensures Safety.Reachable(Handled(s, r, e), targets)
  {
    if Admissible(r) {
      var k, s1 := SessionOf(s, r.target.id), ApplyArrive(s, r);
      assert s1.waiting == [Waiting(k, r)] && s1.sessions[k].phase.Free?;
      assert Safety.Reachable(s1, targets) by {
        var _ := Safety.ReachNext(s, targets, Arrive(r));
      }
      ChunkReachable(s1, targets, k, e);
    }
  }

  // ---------------------------------------------------------------- the final chunk

  /** Everything the final chunk's handler asks comes out right. */
  predicate Commits(s: State, k: nat, r: Request, e: Env)
    requires Sane(s) && k < |s.sessions|
  {
    var tmp := s.sessions[k].target.tmp;
    && tmp in s.paths && Matches(r, s.inodes[s.paths[tmp]]) && e.closeOk
    && (r.target.overwrite || (r.target.dest !in s.paths && e.statOk)) && e.renameOk
  }

  /** What a chunk needs to be acknowledged: an open session, the next offset, a whole write
      and, for the last one, the announced size and every call of the ending. */
  predicate Accepts(s: State, k: nat, r: Request, e: Env)
    requires Sane(s) && k < |s.sessions|
  {
    var x := s.sessions[k];
    && x.open && r.offset == x.written && !e.cancelled && e.wrote == |r.data|
    && (r.final ==> Ends(s, k, r, e))
  }

  /** The final chunk completes the announced size and every call of the ending succeeds. */
  predicate Ends(s: State, k: nat, r: Request, e: Env)
    requires Sane(s) && k < |s.sessions|
  {
    s.sessions[k].written + |r.data| == r.total && Commits(Safety.Written(s, k, r.data), k, r, e)
  }

  /** Session k's file under its destination's name, and the session gone. */
  function Taken(s: State, k: nat, r: Request): (s': State)
    requires Sane(s) && k < |s.sessions| && s.sessions[k].target.tmp in s.paths
    ensures Sane(s')
  {
    var x, t := s.sessions[k], r.target;
    ApplyDrop(WithSession(s, k, x.(open := false, phase := Dropping))
                .(paths := (s.paths - {x.target.tmp})[t.dest := s.paths[x.target.tmp]],
                  committed := s.committed[t.dest := Landed(t, x.accepted)],
                  replaced := if t.dest in s.paths && !t.overwrite then s.replaced + {t.dest} else s.replaced), k)
  }

  lemma CheckSplits(s: State, k: nat, r: Request, e: Env)
    requires Sane(s) && k < |s.sessions|
    ensures var x := s.sessions[k];
      var s0, tmp := WithSession(s, k, x.(phase := Held(Finishing, r))), x.target.tmp;
      Checking(s0, k) == if r.checksum.None? || (tmp in s.paths && r.checksum.value(s.inodes[s.paths[tmp]]))
                         then WithSession(s, k, x.(phase := Held(Checked, r))) else Abort(s, k)
  {
    var x := s.sessions[k];
    Safety.PutTwice(s.sessions, k, x.(phase := Held(Finishing, r)), x.(phase := Held(Checked, r)));
    Safety.PutTwice(s.sessions, k, x.(phase := Held(Finishing, r)), x.(open := false, phase := Dropping));
  }

  lemma CloseSplits(s: State, k: nat, r: Request, e: Env)
    requires Sane(s) && k < |s.sessions|
    ensures var x := s.sessions[k];
      Stating(Closing(WithSession(s, k, x.(phase := Held(Checked, r))), k, e), k, e) ==
        if e.closeOk && (r.target.overwrite || (r.target.dest !in s.paths && e.statOk))
        then WithSession(s, k, x.(open := false, phase := Held(Cleared, r))) else Abort(s, k)
  {
    var x := s.sessions[k];
    Safety.PutTwice(s.sessions, k, x.(phase := Held(Checked, r)), x.(open := false, phase := Held(Closed, r)));
    Safety.PutTwice(s.sessions, k, x.(phase := Held(Checked, r)), x.(open := false, phase := Dropping));
    Safety.PutTwice(s.sessions, k, x.(open := false, phase := Held(Closed, r)),
                    x.(open := false, phase := Held(Cleared, r)));
    Safety.PutTwice(s.sessions, k, x.(open := false, phase := Held(Closed, r)), x.(open := false, phase := Dropping));
  }

  lemma RenameSplits(s: State, k: nat, r: Request, e: Env)
    requires Sane(s) && k < |s.sessions|
    ensures var x := s.sessions[k];
      Renaming(WithSession(s, k, x.(open := false, phase := Held(Cleared, r))), k, e) ==
        if e.renameOk && x.target.tmp in s.paths
        then WithSession(s, k, x.(open := false, phase := Dropping))
               .(paths := (s.paths - {x.target.tmp})[r.target.dest := s.paths[x.target.tmp]],
                 committed := s.committed[r.target.dest := Landed(r.target, x.accepted)],
                 replaced := if r.target.dest in s.paths && !r.target.overwrite then s.replaced + {r.target.dest}
                             else s.replaced)
        else Abort(s, k)
  {
    var x := s.sessions[k];
    Safety.PutTwice(s.sessions, k, x.(open := false, phase := Held(Cleared, r)), x.(open := false, phase := Dropping));
  }

  /** The finishing handler takes the destination, or aborts at whichever call fails. */
  lemma FinishSplits(s: State, k: nat, r: Request, e: Env)
    requires Sane(s) && k < |s.sessions|
    ensures Finish(WithSession(s, k, s.sessions[k].(phase := Held(Finishing, r))), k, e) ==
            if Commits(s, k, r, e) then Taken(s, k, r) else ApplyDrop(Abort(s, k), k)
  {
    CheckSplits(s, k, r, e);
    CloseSplits(s, k, r, e);
    RenameSplits(s, k, r, e);
  }
}
