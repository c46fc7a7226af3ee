/** When a committed file holds what its upload accepted. */
module FileUploadContents {
  import opened Text
  import opened FileUpload
  import opened FileUploadSafety

  /** No two uploads share a temporary file, and no destination is a temporary file. */
  ghost predicate Clean(targets: iset<Target>)
  {
    && (forall t, u :: t in targets && u in targets && t.tmp == u.tmp ==> t.id == u.id)
    && (forall t, u :: t in targets && u in targets ==> t.dest != u.tmp)
  }

  /** Sessions that own their temporary file. */
  predicate Owner(x: Session)
  {
    x.open || x.phase.Held?
  }

  /** The session's file is reachable by its name and holds exactly the accepted bytes. */
  predicate Owns(s: State, x: Session)
  {
    && x.target.tmp in s.paths && s.paths[x.target.tmp] == x.inode
    && x.inode < |s.inodes| && s.inodes[x.inode] == x.accepted
  }

  predicate Holding(s: State, x: Session)
  {
    && x.pos == x.written && (Owner(x) ==> Owns(s, x))
    && (x.phase.Held? && x.phase.stage != Finishing ==> Matches(x.phase.req, x.accepted))
  }

  ghost predicate AllHold(s: State)
  {
    forall k :: 0 <= k < |s.sessions| ==> Holding(s, s.sessions[k])
  }

  predicate Intact(s: State, d: string)
    requires d in s.committed
  {
    d in s.paths && s.paths[d] < |s.inodes| && s.inodes[s.paths[d]] == s.committed[d].content
  }

  /** Every committed destination holds what its upload accepted. */
  ghost predicate Good(s: State)
  {
    forall d :: d in s.committed ==> Intact(s, d)
  }

  ghost predicate Inv(s: State, targets: iset<Target>)
  {
    Linked(s, targets) && Injective(s.paths) && AllHold(s) && Good(s)
  }

  // ---------------------------------------------------------------- separation

  /** Two active sessions have different temporary files and inodes. */
  lemma OwnersApart(s: State, targets: iset<Target>, j: nat, k: nat)
    requires Inv(s, targets) && Clean(targets) && j < |s.sessions| && k < |s.sessions| && j != k
    requires Active(s.sessions[j]) && Active(s.sessions[k])
    ensures s.sessions[j].target.tmp != s.sessions[k].target.tmp
    ensures Owner(s.sessions[j]) && Owner(s.sessions[k]) ==> s.sessions[j].inode != s.sessions[k].inode
  {
    assert SessionOk(s.sessions[j], targets) && SessionOk(s.sessions[k], targets);
    assert Holding(s, s.sessions[j]) && Holding(s, s.sessions[k]);
    assert s.sessions[j].target.id != s.sessions[k].target.id;
  }

  /** A committed destination is nobody's temporary file. */
  lemma CommittedApart(s: State, targets: iset<Target>, d: string, k: nat)
    requires Inv(s, targets) && Clean(targets) && k < |s.sessions| && d in s.committed
    ensures d != s.sessions[k].target.tmp
    ensures Owner(s.sessions[k]) ==> s.paths[d] != s.sessions[k].inode
  {
    assert SessionOk(s.sessions[k], targets) && Holding(s, s.sessions[k]) && Intact(s, d);
    assert s.committed[d].target.dest != s.sessions[k].target.tmp;
  }

  // ---------------------------------------------------------------- steps

  lemma HoldsAborted(s: State, targets: iset<Target>, k: nat)
    requires Inv(s, targets) && Clean(targets) && k < |s.sessions| && Active(s.sessions[k])
    ensures AllHold(Abort(s, k))
  {
    var s' := Abort(s, k);
    forall j | 0 <= j < |s'.sessions|
      ensures Holding(s', s'.sessions[j])
    {
      assert Holding(s, s.sessions[j]);
      if j != k && Owner(s.sessions[j]) {
        OwnersApart(s, targets, j, k);
      }
    }
  }

  lemma AbortKeeps(s: State, targets: iset<Target>, k: nat)
    requires Inv(s, targets) && Clean(targets) && k < |s.sessions| && Active(s.sessions[k])
    ensures Inv(Abort(s, k), targets)
  {
    LinkedAbort(s, targets, k);
    HoldsAborted(s, targets, k);
    forall d | d in s.committed
      ensures Intact(Abort(s, k), d)
    {
      assert Intact(s, d);
      CommittedApart(s, targets, d, k);
    }
  }

  lemma HoldsOpened(s: State, targets: iset<Target>, r: Request)
    requires Inv(s, targets) && Clean(targets) && r.target in targets && r.target.id !in s.table
    ensures AllHold(ApplyArrive(s, r))
  {
    var s' := ApplyArrive(s, r);
    forall j | 0 <= j < |s'.sessions|
      ensures Holding(s', s'.sessions[j])
    {
      if j < |s.sessions| {
        assert Holding(s, s.sessions[j]) && SessionOk(s.sessions[j], targets);
        assert Active(s.sessions[j]) ==> s.sessions[j].target.id != r.target.id;
      }
    }
  }

  lemma OpenKeeps(s: State, targets: iset<Target>, r: Request)
    requires Inv(s, targets) && Clean(targets) && r.target in targets && Admissible(r) && r.target.id !in s.table
    ensures Inv(ApplyArrive(s, r), targets)
  {
    LinkedArrive(s, targets, r);
    HoldsOpened(s, targets, r);
    forall d | d in s.committed
      ensures Intact(ApplyArrive(s, r), d)
    {
      assert Intact(s, d) && s.committed[d].target.dest != r.target.tmp;
    }
  }

  lemma ArriveKeeps(s: State, targets: iset<Target>, r: Request)
    requires Inv(s, targets) && Clean(targets) && r.target in targets && Admissible(r)
    ensures Inv(ApplyArrive(s, r), targets)
  {
    if r.target.id in s.table {
      LinkedArrive(s, targets, r);
      SameFiles(s, ApplyArrive(s, r), targets);
    } else {
      OpenKeeps(s, targets, r);
    }
  }

  /** The queue plays no part in what the files hold. */
  lemma SameFiles(s: State, s': State, targets: iset<Target>)
    requires Inv(s, targets) && Linked(s', targets) && s' == s.(waiting := s'.waiting)
    ensures Inv(s', targets)
  {
    assert forall k :: 0 <= k < |s.sessions| ==> Holding(s, s.sessions[k]) && Holding(s', s.sessions[k]);
    assert forall d :: d in s.committed ==> Intact(s, d) && Intact(s', d);
  }

  lemma AppendAtEnd(content: Bytes, data: Bytes)
    ensures WriteAt(content, |content|, data) == content + data
  {
  }

  lemma HoldsWritten(s: State, targets: iset<Target>, k: nat, data: Bytes)
    requires Inv(s, targets) && Clean(targets) && k < |s.sessions| && s.sessions[k].open && s.sessions[k].phase.Free?
    ensures AllHold(Written(s, k, data))
  {
    var s' := Written(s, k, data);
    assert SessionOk(s.sessions[k], targets);
    AppendAtEnd(s.sessions[k].accepted, data);
    forall j | 0 <= j < |s'.sessions|
      ensures Holding(s', s'.sessions[j])
    {
      assert Holding(s, s.sessions[j]);
      if j != k && Owner(s.sessions[j]) {
        OwnersApart(s, targets, j, k);
      }
    }
  }

  lemma WriteKeeps(s: State, targets: iset<Target>, k: nat, data: Bytes)
    requires Inv(s, targets) && Clean(targets) && k < |s.sessions| && s.sessions[k].open && s.sessions[k].phase.Free?
    ensures Inv(Written(s, k, data), targets)
  {
    LinkedWritten(s, targets, k, data);
    HoldsWritten(s, targets, k, data);
    forall d | d in s.committed
      ensures Intact(Written(s, k, data), d)
    {
      assert Intact(s, d);
      CommittedApart(s, targets, d, k);
    }
  }

  /** Only session k's own record changes, and what it still owns is the same. */
  lemma SessionKeeps(s: State, targets: iset<Target>, k: nat, x: Session)
    requires Inv(s, targets) && k < |s.sessions| && Active(s.sessions[k]) && SessionOk(x, targets)
    requires x.target == s.sessions[k].target && x.inode == s.sessions[k].inode && x.pos == x.written
    requires Owner(x) ==> Owner(s.sessions[k]) && x.accepted == s.sessions[k].accepted
    requires x.phase.Held? && x.phase.stage != Finishing ==> Matches(x.phase.req, x.accepted)
    ensures Inv(WithSession(s, k, x), targets)
  {
    var s' := WithSession(s, k, x);
    LinkedPut(s, targets, k, x);
    forall j | 0 <= j < |s'.sessions|
      ensures Holding(s', s'.sessions[j])
    {
      assert Holding(s, s.sessions[j]);
    }
    assert forall d :: d in s.committed ==> Intact(s, d) && Intact(s', d);
  }

  /** The partial write belongs to no accepted chunk, but its file is gone. */
  lemma PartialKeeps(s: State, targets: iset<Target>, k: nat, r: Request, n: nat)
    requires Inv(s, targets) && Clean(targets) && k < |s.sessions| && s.sessions[k].open && s.sessions[k].phase.Free?
    requires n < |r.data|
    ensures Inv(AfterWrite(s, k, r, n), targets)
  {
    var w, x := Written(s, k, r.data[..n]), s.sessions[k].(open := false, phase := Dropping);
    WriteKeeps(s, targets, k, r.data[..n]);
    AbortKeeps(w, targets, k);
    assert SessionOk(s.sessions[k], targets) && Holding(s, s.sessions[k]);
    SessionKeeps(Abort(w, k), targets, k, x);
    ShortWrite(s, k, r, n);
  }

  lemma FullKeeps(s: State, targets: iset<Target>, k: nat, r: Request)
    requires Inv(s, targets) && Clean(targets) && k < |s.sessions| && s.sessions[k].open && s.sessions[k].phase.Free?
    requires r.target in targets && Admissible(r) && r.target.id == s.sessions[k].target.id
    ensures Inv(AfterWrite(s, k, r, |r.data|), targets)
  {
    var w := Written(s, k, r.data);
    WriteKeeps(s, targets, k, r.data);
    FullWrite(s, k, r);
    if r.final {
      if w.sessions[k].written != r.total {
        AbortKeeps(w, targets, k);
      } else {
        assert SessionOk(w.sessions[k], targets) && Holding(w, w.sessions[k]);
        SessionKeeps(w, targets, k, w.sessions[k].(phase := Held(Finishing, r)));
      }
    }
  }

  lemma AfterWriteKeeps(s: State, targets: iset<Target>, k: nat, r: Request, n: nat)
    requires Inv(s, targets) && Clean(targets) && k < |s.sessions| && s.sessions[k].open && s.sessions[k].phase.Free?
    requires r.target in targets && Admissible(r) && r.target.id == s.sessions[k].target.id && n <= |r.data|
    ensures Inv(AfterWrite(s, k, r, n), targets)
  {
    if n < |r.data| {
      PartialKeeps(s, targets, k, r, n);
    } else {
      FullKeeps(s, targets, k, r);
    }
  }

  lemma UnqueueKeeps(s: State, targets: iset<Target>, at: nat)
    requires Inv(s, targets) && at < |s.waiting|
    ensures Inv(s.(waiting := s.waiting[..at] + s.waiting[at + 1..]), targets)
    ensures WaitingOk(s, s.waiting[at], targets)
  {
    LinkedUnqueue(s, targets, at);
    SameFiles(s, s.(waiting := s.waiting[..at] + s.waiting[at + 1..]), targets);
  }

  lemma ChunkKeeps(s: State, targets: iset<Target>, at: nat, cancelled: bool, n: nat)
    requires Inv(s, targets) && Clean(targets) && Enabled(s, Chunk(at, cancelled, n))
    ensures Inv(ApplyChunk(s, at, cancelled, n), targets)
  {
    var k, r := s.waiting[at].session, s.waiting[at].req;
    var s0 := s.(waiting := s.waiting[..at] + s.waiting[at + 1..]);
    UnqueueKeeps(s, targets, at);
    if s.sessions[k].open {
      if r.offset != s.sessions[k].written || cancelled {
        AbortKeeps(s0, targets, k);
      } else {
        AfterWriteKeeps(s0, targets, k, r, n);
      }
    }
  }

  lemma FinalKeeps(s: State, targets: iset<Target>, step: Step)
    requires Inv(s, targets) && Clean(targets) && Enabled(s, step) && (step.Check? || step.Close? || step.Stat?)
    ensures Inv(Apply(s, step), targets)
  {
    var k := step.session;
    assert SessionOk(s.sessions[k], targets) && Holding(s, s.sessions[k]);
    if Apply(s, step).sessions[k].phase.Dropping? {
      AbortKeeps(s, targets, k);
    } else {
      SessionKeeps(s, targets, k, Apply(s, step).sessions[k]);
    }
  }

  lemma HoldsRenamed(s: State, targets: iset<Target>, k: nat)
    requires Inv(s, targets) && Clean(targets) && At(s, k, Cleared) && s.sessions[k].target.tmp in s.paths
    ensures AllHold(ApplyRename(s, k, true))
  {
    var s', dest := ApplyRename(s, k, true), s.sessions[k].phase.req.target.dest;
    assert SessionOk(s.sessions[k], targets);
    forall j | 0 <= j < |s'.sessions|
      ensures Holding(s', s'.sessions[j])
    {
      assert Holding(s, s.sessions[j]) && SessionOk(s.sessions[j], targets);
      if j != k && Owner(s.sessions[j]) {
        OwnersApart(s, targets, j, k);
        assert dest != s.sessions[j].target.tmp;
      }
    }
  }

  lemma GoodRenamed(s: State, targets: iset<Target>, k: nat)
    requires Inv(s, targets) && Clean(targets) && At(s, k, Cleared) && Owns(s, s.sessions[k])
    ensures Good(ApplyRename(s, k, true)) && Injective(ApplyRename(s, k, true).paths)
  {
    var s', dest := ApplyRename(s, k, true), s.sessions[k].phase.req.target.dest;
    forall d | d in s'.committed
      ensures Intact(s', d)
    {
      if d != dest {
        assert Intact(s, d);
        CommittedApart(s, targets, d, k);
      }
    }
  }

  lemma RenameKeeps(s: State, targets: iset<Target>, k: nat, renameOk: bool)
    requires Inv(s, targets) && Clean(targets) && At(s, k, Cleared)
    ensures Inv(ApplyRename(s, k, renameOk), targets)
  {
    assert Holding(s, s.sessions[k]);
    if renameOk {
      LinkedRename(s, targets, k, renameOk);
      HoldsRenamed(s, targets, k);
      GoodRenamed(s, targets, k);
    } else {
      AbortKeeps(s, targets, k);
    }
  }

  lemma DropKeeps(s: State, targets: iset<Target>, k: nat)
    requires Inv(s, targets) && Enabled(s, Drop(k))
    ensures Inv(ApplyDrop(s, k), targets)
  {
    var s' := ApplyDrop(s, k);
    LinkedDrop(s, targets, k);
    assert SessionOk(s.sessions[k], targets);
    forall j | 0 <= j < |s'.sessions|
      ensures Holding(s', s'.sessions[j])
    {
      assert Holding(s, s.sessions[j]);
    }
    assert forall d :: d in s.committed ==> Intact(s, d) && Intact(s', d);
  }

  lemma InvStep(s: State, targets: iset<Target>, step: Step)
    requires Inv(s, targets) && Clean(targets) && Enabled(s, step)
    requires step.Arrive? ==> step.req.target in targets
    ensures Inv(Apply(s, step), targets)
  {
    match step
    case Arrive(r) => ArriveKeeps(s, targets, r);
    case Chunk(at, cancelled, n) => ChunkKeeps(s, targets, at, cancelled, n);
    case Rename(k, renameOk) => RenameKeeps(s, targets, k, renameOk);
    case Drop(k) => DropKeeps(s, targets, k);
    case _ => FinalKeeps(s, targets, step);
  }

  lemma {:induction false} InvRun(s: State, targets: iset<Target>, steps: seq<Step>)
    requires Inv(s, targets) && Clean(targets) && ValidRun(s, steps) && RequestsIn(steps, targets)
    ensures Inv(Exec(s, steps), targets)
    decreases |steps|
  {
    if steps != [] {
      InvStep(s, targets, steps[0]);
      InvRun(Apply(s, steps[0]), targets, steps[1..]);
    }
  }

  lemma InvReachable(s: State, targets: iset<Target>)
    requires Clean(targets) && Reachable(s, targets)
    ensures Inv(s, targets)
  {
    var s0, steps :| Initial(s0) && ValidRun(s0, steps) && RequestsIn(steps, targets) && Exec(s0, steps) == s;
    InvRun(s0, targets, steps);
  }

  lemma OnlyRename(s: State, step: Step)
    requires Sane(s) && Enabled(s, step)
    ensures !step.Rename? ==> Apply(s, step).committed == s.committed
  {
  }

  /** A destination changes hands only by a rename, and only to a file that holds exactly the
      accepted bytes, of the announced size and checksum and within the limit. */
  lemma CommitSound(s: State, targets: iset<Target>, step: Step)
    requires Clean(targets) && Reachable(s, targets) && Sane(s) && Enabled(s, step)
    requires Apply(s, step).committed != s.committed
    ensures step.Rename?
    ensures var x, s' := s.sessions[step.session], Apply(s, step);
      var r := x.phase.req;
      && |x.accepted| == r.total <= MAX_TOTAL && Matches(r, x.accepted)
      && r.target.dest in s'.paths && s'.inodes[s'.paths[r.target.dest]] == x.accepted
      && s'.committed == s.committed[r.target.dest := Landed(r.target, x.accepted)]
  {
    InvReachable(s, targets);
    OnlyRename(s, step);
    assert SessionOk(s.sessions[step.session], targets) && Holding(s, s.sessions[step.session]);
  }

  // ---------------------------------------------------------------- the converse

  /** A destination is never its own temporary file: the latter's base name is longer. */
  ghost predicate Proper(targets: iset<Target>)
  {
    forall t :: t in targets ==> t.dest != t.tmp
  }

  /** Session 0, finishing, takes a free destination. */
  lemma CommitNow(s: State, targets: iset<Target>) returns (s': State)
    requires Sane(s) && Reachable(s, targets) && At(s, 0, Finishing) && s.sessions[0].phase.req.checksum.None?
    requires s.sessions[0].target.tmp in s.paths && s.sessions[0].phase.req.target.dest !in s.paths
    ensures Sane(s') && Reachable(s', targets) && s'.inodes == s.inodes && s'.waiting == s.waiting &&
            s'.table == s.table
    ensures var x, d := s.sessions[0], s.sessions[0].phase.req.target.dest;
      && s'.sessions == s.sessions[0 := x.(open := false, phase := Dropping)]
      && s'.paths == (s.paths - {x.target.tmp})[d := s.paths[x.target.tmp]]
      && d in s'.committed && s'.committed[d].content == x.accepted
  {
    var s1 := ClearNow(s, targets, 0);
    s' := ReachNext(s1, targets, Rename(0, true));
    var x := s.sessions[0].(open := false, phase := Dropping);
    assert s1.sessions[0 := x] == s.sessions[0 := x];
  }

  /** Two uploads on one temporary file: the first commits the second one's bytes. */
  lemma SharedTemporary(targets: iset<Target>, t: Target, u: Target) returns (s: State)
    requires t in targets && u in targets && t.tmp == u.tmp && t.id != u.id && t.dest != t.tmp
    ensures Reachable(s, targets) && !Good(s)
  {
    EmptyReachable(targets);
    s := OpenWith(EMPTY, targets, t, [1], false);
    s := OpenWith(s, targets, u, [2], false);
    assert s.inodes == [[2]] && s.sessions[0] == Session(t, 0, 1, 1, true, Free, [1]);
    s := CommitMixed(s, targets, t);
  }

  lemma CommitMixed(s: State, targets: iset<Target>, t: Target) returns (s': State)
    requires Sane(s) && Reachable(s, targets) && t in targets && s.waiting == [] && t.id in s.table &&
             s.table[t.id] == 0
    requires |s.sessions| > 0 && s.sessions[0] == Session(t, 0, 1, 1, true, Free, [1]) && s.inodes == [[2]]
    requires s.paths == map[t.tmp := 0] && t.dest != t.tmp
    ensures Reachable(s', targets) && !Good(s')
  {
    s' := FinishEmpty(s, targets, t);
    s' := CommitNow(s', targets);
    assert [1 as byte][0] != [2 as byte][0];
    assert !Intact(s', t.dest);
  }

  /** An empty final chunk of the right size only makes session 0 finish. */
  lemma FinishEmpty(s: State, targets: iset<Target>, t: Target) returns (s': State)
    requires Sane(s) && Reachable(s, targets) && t in targets && s.waiting == [] && t.id in s.table &&
             s.table[t.id] == 0
    requires |s.sessions| > 0 && s.sessions[0].open && s.sessions[0].phase.Free? && s.sessions[0].written <= MAX_TOTAL
    requires s.sessions[0].pos == |s.inodes[s.sessions[0].inode]| == s.sessions[0].written
    ensures Sane(s') && Reachable(s', targets)
    ensures s' == WithSession(s, 0, s.sessions[0].(phase := Held(Finishing, Plain(t, s.sessions[0].written, [], true))))
  {
    var r := Plain(t, s.sessions[0].written, [], true);
    LastEmpty(s, r);
    s' := ReachNext(s, targets, Arrive(r));
    s' := ReachNext(s', targets, Chunk(0, false, 0));
  }

  lemma LastEmpty(s: State, r: Request)
    requires Sane(s) && s.waiting == [] && r.target.id in s.table && s.table[r.target.id] == 0 && r.data == [] &&
             r.final
    requires |s.sessions| > 0 && s.sessions[0].open && s.sessions[0].phase.Free?
    requires r.offset == s.sessions[0].written == r.total && s.sessions[0].pos == |s.inodes[s.sessions[0].inode]|
    ensures var s1 := ApplyArrive(s, r);
      && Enabled(s1, Chunk(0, false, 0))
      && ApplyChunk(s1, 0, false, 0) == WithSession(s, 0, s.sessions[0].(phase := Held(Finishing, r)))
  {
    var s1, x := ApplyArrive(s, r), s.sessions[0];
    assert s1.waiting == [Waiting(0, r)];
    assert s1.waiting[..0] + s1.waiting[1..] == [] && s1.(waiting := []) == s;
    FullWrite(s, 0, r);
    assert WriteAt(s.inodes[x.inode], x.pos, []) == s.inodes[x.inode];
    assert s.inodes[x.inode := s.inodes[x.inode]] == s.inodes && x.accepted + [] == x.accepted;
    assert Written(s, 0, []) == s;
  }

  /** A committed destination that is another upload's temporary file is truncated by it. */
  lemma DestinationIsTemporary(targets: iset<Target>, t: Target, u: Target) returns (s: State)
    requires t in targets && u in targets && t.dest == u.tmp && t.dest != t.tmp
    ensures Reachable(s, targets) && !Good(s)
  {
    s := CommitFirst(targets, t);
    s := OpenWith(s, targets, u, [2], false);
    assert [1 as byte][0] != [2 as byte][0];
    assert s.inodes[s.paths[t.dest]] == [2] && !Intact(s, t.dest);
  }

  lemma CommitFirst(targets: iset<Target>, t: Target) returns (s: State)
    requires t in targets && t.dest != t.tmp
    ensures Sane(s) && Reachable(s, targets) && s.table == map[] && s.waiting == [] && |s.inodes| == 1
    ensures t.dest in s.paths && s.paths[t.dest] == 0 && t.dest in s.committed && s.committed[t.dest].content == [1]
  {
    EmptyReachable(targets);
    s := OpenWith(EMPTY, targets, t, [1], true);
    assert s.sessions == [Session(t, 0, 1, 1, true, Held(Finishing, Plain(t, 0, [1], true)), [1])] && s.inodes == [[1]];
    s := CommitNow(s, targets);
    s := ReachNext(s, targets, Drop(0));
    assert s.table == map[];
  }

  /** Committed files stay what their uploads accepted, whatever the interleaving, exactly
      when no two uploads share a temporary file and none is anyone's destination. */
  lemma CommittedIntactExactly(targets: iset<Target>)
    requires Proper(targets)
    ensures (forall s :: Reachable(s, targets) ==> Good(s)) <==> Clean(targets)
  {
    if Clean(targets) {
      forall s | Reachable(s, targets)
        ensures Good(s)
      {
        InvReachable(s, targets);
      }
    } else if t, u :| t in targets && u in targets && t.tmp == u.tmp && t.id != u.id {
      var s := SharedTemporary(targets, t, u);
    } else {
      var t, u :| t in targets && u in targets && t.dest == u.tmp;
      var s := DestinationIsTemporary(targets, t, u);
    }
  }

  // ---------------------------------------------------------------- sizes

  /** A temporary file has no bound: only the final chunk's total is compared with the limit. */
  lemma {:induction false} TemporaryUnbounded(targets: iset<Target>, t: Target, n: nat) returns (s: State)
    requires t in targets
    ensures Sane(s) && Reachable(s, targets) && s.paths == map[t.tmp := 0] && |s.inodes| == 1 && |s.inodes[0]| == n
    ensures s.waiting == [] && s.table == map[t.id := 0] && |s.sessions| == 1
    ensures s.sessions[0].open && s.sessions[0].phase.Free? && s.sessions[0].inode == 0
    ensures s.sessions[0].pos == s.sessions[0].written == n
  {
    if n == 0 {
      EmptyReachable(targets);
      s := OpenWith(EMPTY, targets, t, [], false);
    } else {
      s := TemporaryUnbounded(targets, t, n - 1);
      s := OneMore(s, targets, t, n - 1);
    }
  }

  lemma OneMore(s: State, targets: iset<Target>, t: Target, n: nat) returns (s': State)
    requires t in targets && Sane(s) && Reachable(s, targets) && s.paths == map[t.tmp := 0] && |s.inodes| == 1
    requires |s.inodes[0]| == n && s.waiting == [] && s.table == map[t.id := 0] && |s.sessions| == 1
    requires s.sessions[0].open && s.sessions[0].phase.Free? && s.sessions[0].inode == 0
    requires s.sessions[0].pos == s.sessions[0].written == n
    ensures Sane(s') && Reachable(s', targets) && s'.paths == s.paths && |s'.inodes| == 1 && |s'.inodes[0]| == n + 1
    ensures s'.waiting == [] && s'.table == s.table && |s'.sessions| == 1
    ensures s'.sessions[0].open && s'.sessions[0].phase.Free? && s'.sessions[0].inode == 0
    ensures s'.sessions[0].pos == s'.sessions[0].written == n + 1
  {
    var r := Request(t, n, [0], false, 0, None);
    s' := ReachNext(s, targets, Arrive(r));
    s' := ReachNext(s', targets, Chunk(0, false, 1));
  }
}
