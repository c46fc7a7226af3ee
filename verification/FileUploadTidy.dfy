/** A failed upload leaves no temporary file behind, under every interleaving. */
module FileUploadTidy {
  import opened Text
  import opened FileUpload
  import opened Safety = FileUploadSafety

  /** The session's temporary file is still in use. */
  predicate Live(x: Session)
  {
    x.open || x.phase.Held?
  }

  predicate LiveAt(sessions: seq<Session>, p: string)
  {
    exists k :: 0 <= k < |sessions| && Live(sessions[k]) && sessions[k].target.tmp == p
  }

  /** A file was there before, is a committed destination, or belongs to a live upload. */
  predicate TidyAt(s: State, base: set<string>, p: string)
  {
    p in s.paths ==> p in base || p in s.committed || LiveAt(s.sessions, p)
  }

  ghost predicate Tidy(s: State, base: set<string>)
  {
    forall p :: TidyAt(s, base, p)
  }

  lemma PutLive(sessions: seq<Session>, k: nat, x: Session, p: string)
    requires k < |sessions| && x.target == sessions[k].target && LiveAt(sessions, p)
    requires sessions[k].target.tmp == p && Live(sessions[k]) ==> Live(x)
    ensures LiveAt(sessions[k := x], p)
  {
    var j :| 0 <= j < |sessions| && Live(sessions[j]) && sessions[j].target.tmp == p;
    assert Live(sessions[k := x][j]) && sessions[k := x][j].target.tmp == p;
  }

  lemma PutTidy(s: State, base: set<string>, k: nat, x: Session, p: string)
    requires k < |s.sessions| && x.target == s.sessions[k].target && TidyAt(s, base, p)
    requires Live(s.sessions[k]) ==> Live(x)
    ensures TidyAt(s.(sessions := s.sessions[k := x]), base, p)
  {
    if p in s.paths && LiveAt(s.sessions, p) {
      PutLive(s.sessions, k, x, p);
    }
  }

  lemma AbortTidy(s: State, base: set<string>, k: nat, p: string)
    requires Sane(s) && k < |s.sessions| && TidyAt(s, base, p)
    ensures TidyAt(Abort(s, k), base, p)
  {
    var x := s.sessions[k];
    if p != x.target.tmp && p in s.paths && LiveAt(s.sessions, p) {
      PutLive(s.sessions, k, x.(open := false, phase := Dropping), p);
    }
  }

  lemma ArriveTidy(s: State, base: set<string>, r: Request, p: string)
    requires Sane(s) && TidyAt(s, base, p)
    ensures TidyAt(ApplyArrive(s, r), base, p)
  {
    var s' := ApplyArrive(s, r);
    if r.target.id !in s.table {
      var k := |s.sessions|;
      assert Live(s'.sessions[k]) && s'.sessions[k].target.tmp == r.target.tmp;
      if LiveAt(s.sessions, p) {
        var j :| 0 <= j < |s.sessions| && Live(s.sessions[j]) && s.sessions[j].target.tmp == p;
        assert s'.sessions[j] == s.sessions[j];
      }
    }
  }

  lemma WriteTidy(s: State, base: set<string>, k: nat, r: Request, n: nat, p: string)
    requires Sane(s) && k < |s.sessions| && s.sessions[k].open && n <= |r.data| && TidyAt(s, base, p)
    ensures TidyAt(AfterWrite(s, k, r, n), base, p)
  {
    var x := s.sessions[k];
    var s1 := s.(inodes := s.inodes[x.inode := WriteAt(s.inodes[x.inode], x.pos, r.data[..n])]);
    if n < |r.data| {
      AbortTidy(s1, base, k, p);
    } else {
      var x' := x.(pos := x.pos + n, written := x.written + n, accepted := x.accepted + r.data);
      PutTidy(s1, base, k, x', p);
      PutTidy(s1, base, k, x'.(phase := Held(Finishing, r)), p);
      AbortTidy(WithSession(s1, k, x'), base, k, p);
    }
  }

  lemma ChunkTidy(s: State, base: set<string>, at: nat, cancelled: bool, n: nat, p: string)
    requires Sane(s) && Enabled(s, Chunk(at, cancelled, n)) && TidyAt(s, base, p)
    ensures TidyAt(ApplyChunk(s, at, cancelled, n), base, p)
  {
    var k, r := s.waiting[at].session, s.waiting[at].req;
    var s0 := s.(waiting := s.waiting[..at] + s.waiting[at + 1..]);
    if s.sessions[k].open {
      AbortTidy(s0, base, k, p);
      WriteTidy(s0, base, k, r, n, p);
    }
  }

  lemma RenameTidy(s: State, base: set<string>, k: nat, renameOk: bool, p: string)
    requires Sane(s) && Enabled(s, Rename(k, renameOk)) && TidyAt(s, base, p)
    ensures TidyAt(ApplyRename(s, k, renameOk), base, p)
  {
    var x := s.sessions[k];
    AbortTidy(s, base, k, p);
    if p != x.target.tmp && p in s.paths && LiveAt(s.sessions, p) {
      PutLive(s.sessions, k, x.(phase := Dropping), p);
    }
  }

  /** The steps between the last write and the rename either keep the session or abort it. */
  lemma HeldTidy(s: State, base: set<string>, k: nat, stage: Stage, open: bool, p: string)
    requires Sane(s) && k < |s.sessions| && s.sessions[k].phase.Held? && TidyAt(s, base, p)
    ensures TidyAt(Abort(s, k), base, p)
    ensures var x := s.sessions[k];
      TidyAt(WithSession(s, k, x.(open := open, phase := Held(stage, x.phase.req))), base, p)
  {
    AbortTidy(s, base, k, p);
    PutTidy(s, base, k, s.sessions[k].(open := open, phase := Held(stage, s.sessions[k].phase.req)), p);
  }

  lemma StepTidy(s: State, base: set<string>, step: Step, p: string)
    requires Sane(s) && Enabled(s, step) && TidyAt(s, base, p)
    ensures TidyAt(Apply(s, step), base, p)
  {
    match step
    case Arrive(r) => ArriveTidy(s, base, r, p);
    case Chunk(at, cancelled, n) => ChunkTidy(s, base, at, cancelled, n, p);
    case Check(k) => HeldTidy(s, base, k, Checked, s.sessions[k].open, p);
    case Close(k, _) => HeldTidy(s, base, k, Closed, false, p);
    case Stat(k, _) => HeldTidy(s, base, k, Cleared, s.sessions[k].open, p);
    case Rename(k, renameOk) => RenameTidy(s, base, k, renameOk, p);
    case Drop(k) => PutTidy(s, base, k, s.sessions[k].(phase := Free), p);
  }

  lemma {:induction false} RunTidy(s: State, base: set<string>, steps: seq<Step>)
    requires Sane(s) && Tidy(s, base) && ValidRun(s, steps)
    ensures Tidy(Exec(s, steps), base)
    decreases |steps|
  {
    if steps != [] {
      forall p
        ensures TidyAt(Apply(s, steps[0]), base, p)
      {
        StepTidy(s, base, steps[0], p);
      }
      RunTidy(Apply(s, steps[0]), base, steps[1..]);
    }
  }

  predicate NoneLive(s: State)
  {
    forall k :: 0 <= k < |s.sessions| ==> !Live(s.sessions[k])
  }

  lemma TidyAtRest(s: State, base: set<string>)
    requires Tidy(s, base) && NoneLive(s)
    ensures forall p :: p in s.paths ==> p in base || p in s.committed
  {
    forall p | p in s.paths
      ensures p in base || p in s.committed
    {
      assert TidyAt(s, base, p);
    }
  }

  /** In every run, whatever fails wherever: once no upload is live, every file was there
      before the first upload or is a committed destination. */
  lemma NothingLeftBehind(s0: State, steps: seq<Step>)
    requires Initial(s0) && ValidRun(s0, steps)
    ensures Tidy(Exec(s0, steps), s0.paths.Keys)
    ensures NoneLive(Exec(s0, steps)) ==>
              forall p :: p in Exec(s0, steps).paths ==> p in s0.paths.Keys || p in Exec(s0, steps).committed
  {
    RunTidy(s0, s0.paths.Keys, steps);
    if NoneLive(Exec(s0, steps)) {
      TidyAtRest(Exec(s0, steps), s0.paths.Keys);
    }
  }
}
