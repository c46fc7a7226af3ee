/** What every interleaving of chunk handlers keeps, and the exact conditions on upload
    targets under which a committed file holds what its upload accepted, and under which no
    file is replaced unasked. */
module FileUploadSafety {
  import opened Text
  import opened FileUpload

  // ---------------------------------------------------------------- bookkeeping

  predicate Active(x: Session)
  {
    x.open || !x.phase.Free?
  }

  /** A session's own record at each phase of its last handler. */
  ghost predicate SessionOk(x: Session, targets: iset<Target>)
  {
    && x.target in targets && |x.accepted| == x.written
    && (x.phase.Dropping? ==> !x.open)
    && (x.phase.Held? ==>
          && x.phase.req.target in targets && x.phase.req.target.id == x.target.id
          && x.written == x.phase.req.total <= MAX_TOTAL
          && (x.open <==> x.phase.stage in {Finishing, Checked}))
  }

  ghost predicate WaitingOk(s: State, w: Waiting, targets: iset<Target>)
  {
    && w.session < |s.sessions| && w.req.target in targets && Admissible(w.req)
    && s.sessions[w.session].target.id == w.req.target.id
  }

  /** The session an id names in the table is the one with a handle or a running handler. */
  ghost predicate TableOk(s: State)
  {
    && (forall id :: id in s.table ==> s.table[id] < |s.sessions| && s.sessions[s.table[id]].target.id == id)
    && (forall k :: 0 <= k < |s.sessions| && Active(s.sessions[k]) ==>
          s.sessions[k].target.id in s.table && s.table[s.sessions[k].target.id] == k)
  }

  ghost predicate CommitsOk(s: State, targets: iset<Target>)
  {
    forall d :: d in s.committed ==>
      && s.committed[d].target in targets && s.committed[d].target.dest == d && |s.committed[d].content| <= MAX_TOTAL
  }

  /** Holds in every run, whatever the targets. */
  ghost predicate Linked(s: State, targets: iset<Target>)
  {
    && Sane(s) && TableOk(s) && CommitsOk(s, targets)
    && (forall k :: 0 <= k < |s.sessions| ==> SessionOk(s.sessions[k], targets))
    && (forall i :: 0 <= i < |s.waiting| ==> WaitingOk(s, s.waiting[i], targets))
  }

  /** Only session k's record changes. */
  lemma LinkedPut(s: State, targets: iset<Target>, k: nat, x: Session)
    requires Linked(s, targets) && k < |s.sessions| && Active(s.sessions[k]) && SessionOk(x, targets)
    requires x.target == s.sessions[k].target && x.inode == s.sessions[k].inode
    ensures Linked(WithSession(s, k, x), targets)
  {
    var s' := WithSession(s, k, x);
    assert forall j :: 0 <= j < |s'.sessions| && j != k ==> s'.sessions[j] == s.sessions[j];
    assert forall i :: 0 <= i < |s'.waiting| ==> WaitingOk(s, s.waiting[i], targets);
  }

  lemma LinkedAbort(s: State, targets: iset<Target>, k: nat)
    requires Linked(s, targets) && k < |s.sessions| && Active(s.sessions[k])
    ensures Linked(Abort(s, k), targets)
  {
    var x := s.sessions[k].(open := false, phase := Dropping);
    assert SessionOk(s.sessions[k], targets);
    LinkedPut(s, targets, k, x);
    LinkedFiles(WithSession(s, k, x), Abort(s, k), targets);
  }

  /** Files and what became of them play no part in it. */
  lemma LinkedFiles(s: State, s': State, targets: iset<Target>)
    requires Linked(s, targets) && Sane(s') && CommitsOk(s', targets)
    requires s'.table == s.table && s'.sessions == s.sessions && s'.waiting == s.waiting
    ensures Linked(s', targets)
  {
    assert forall i :: 0 <= i < |s.waiting| ==> WaitingOk(s, s.waiting[i], targets);
  }

  lemma LinkedArrive(s: State, targets: iset<Target>, r: Request)
    requires Linked(s, targets) && r.target in targets && Admissible(r)
    ensures Linked(ApplyArrive(s, r), targets)
  {
    var s' := ApplyArrive(s, r);
    assert forall k :: 0 <= k < |s.sessions| ==> s'.sessions[k] == s.sessions[k];
    forall i | 0 <= i < |s'.waiting|
      ensures WaitingOk(s', s'.waiting[i], targets)
    {
      if i < |s.waiting| {
        assert WaitingOk(s, s.waiting[i], targets);
      }
    }
  }

  lemma LinkedUnqueue(s: State, targets: iset<Target>, at: nat)
    requires Linked(s, targets) && at < |s.waiting|
    ensures Linked(s.(waiting := s.waiting[..at] + s.waiting[at + 1..]), targets)
  {
    var s' := s.(waiting := s.waiting[..at] + s.waiting[at + 1..]);
    forall i | 0 <= i < |s'.waiting|
      ensures WaitingOk(s', s'.waiting[i], targets)
    {
      assert WaitingOk(s, s.waiting[if i < at then i else i + 1], targets);
    }
  }

  /** A write through the handle: only this session and its file change. */
  function Written(s: State, k: nat, data: Bytes): (s': State)
    requires Sane(s) && k < |s.sessions|
    ensures Sane(s')
  {
    var x := s.sessions[k];
    s.(inodes := s.inodes[x.inode := WriteAt(s.inodes[x.inode], x.pos, data)],
       sessions := s.sessions[k := x.(pos := x.pos + |data|, written := x.written + |data|,
                                      accepted := x.accepted + data)])
  }

  lemma FullWrite(s: State, k: nat, r: Request)
    requires Sane(s) && k < |s.sessions|
    ensures AfterWrite(s, k, r, |r.data|) ==
            var w := Written(s, k, r.data);
            if !r.final then w
            else if w.sessions[k].written != r.total then Abort(w, k)
            else WithSession(w, k, w.sessions[k].(phase := Held(Finishing, r)))
  {
    assert r.data[..|r.data|] == r.data;
  }

  lemma ShortWrite(s: State, k: nat, r: Request, n: nat)
    requires Sane(s) && k < |s.sessions| && n < |r.data|
    ensures var w, x := Written(s, k, r.data[..n]), s.sessions[k].(open := false, phase := Dropping);
      AfterWrite(s, k, r, n) == WithSession(Abort(w, k), k, x)
  {
    var w, x := Written(s, k, r.data[..n]), s.sessions[k].(open := false, phase := Dropping);
    assert Abort(w, k).sessions[k := x] == AfterWrite(s, k, r, n).sessions;
  }

  lemma LinkedWritten(s: State, targets: iset<Target>, k: nat, data: Bytes)
    requires Linked(s, targets) && k < |s.sessions| && s.sessions[k].open && s.sessions[k].phase.Free?
    ensures Linked(Written(s, k, data), targets)
  {
    var x, w := s.sessions[k], Written(s, k, data);
    assert SessionOk(x, targets);
    LinkedPut(s, targets, k, w.sessions[k]);
    LinkedFiles(WithSession(s, k, w.sessions[k]), w, targets);
  }

  lemma LinkedAfterWrite(s: State, targets: iset<Target>, k: nat, r: Request, n: nat)
    requires Linked(s, targets) && k < |s.sessions| && s.sessions[k].open && s.sessions[k].phase.Free?
    requires n <= |r.data| && r.target in targets && Admissible(r) && r.target.id == s.sessions[k].target.id
    ensures Linked(AfterWrite(s, k, r, n), targets)
  {
    var w := Written(s, k, r.data[..n]);
    LinkedWritten(s, targets, k, r.data[..n]);
    LinkedAbort(w, targets, k);
    if n < |r.data| {
      ShortWrite(s, k, r, n);
      assert SessionOk(s.sessions[k], targets);
      LinkedPut(Abort(w, k), targets, k, s.sessions[k].(open := false, phase := Dropping));
    } else {
      assert r.data[..n] == r.data;
      FullWrite(s, k, r);
      if w.sessions[k].written == r.total {
        assert SessionOk(w.sessions[k], targets);
        LinkedPut(w, targets, k, w.sessions[k].(phase := Held(Finishing, r)));
      }
    }
  }

  lemma LinkedChunk(s: State, targets: iset<Target>, at: nat, cancelled: bool, n: nat)
    requires Linked(s, targets) && Enabled(s, Chunk(at, cancelled, n))
    ensures Linked(ApplyChunk(s, at, cancelled, n), targets)
  {
    var k, r := s.waiting[at].session, s.waiting[at].req;
    var s0 := s.(waiting := s.waiting[..at] + s.waiting[at + 1..]);
    assert WaitingOk(s, s.waiting[at], targets);
    LinkedUnqueue(s, targets, at);
    if s.sessions[k].open {
      if r.offset != s.sessions[k].written || cancelled {
        LinkedAbort(s0, targets, k);
      } else {
        LinkedAfterWrite(s0, targets, k, r, n);
      }
    }
  }

  lemma LinkedFinal(s: State, targets: iset<Target>, step: Step)
    requires Linked(s, targets) && Enabled(s, step) && (step.Check? || step.Close? || step.Stat?)
    ensures Linked(Apply(s, step), targets)
  {
    var k := step.session;
    assert SessionOk(s.sessions[k], targets);
    if Apply(s, step).sessions[k].phase.Dropping? {
      LinkedAbort(s, targets, k);
    } else {
      LinkedPut(s, targets, k, Apply(s, step).sessions[k]);
    }
  }

  lemma LinkedRename(s: State, targets: iset<Target>, k: nat, renameOk: bool)
    requires Linked(s, targets) && At(s, k, Cleared)
    ensures Linked(ApplyRename(s, k, renameOk), targets)
  {
    var x := s.sessions[k];
    assert SessionOk(x, targets);
    if !renameOk || x.target.tmp !in s.paths {
      LinkedAbort(s, targets, k);
    } else {
      LinkedPut(s, targets, k, x.(phase := Dropping));
      LinkedFiles(WithSession(s, k, x.(phase := Dropping)), ApplyRename(s, k, renameOk), targets);
    }
  }

  lemma LinkedDrop(s: State, targets: iset<Target>, k: nat)
    requires Linked(s, targets) && Enabled(s, Drop(k))
    ensures Linked(ApplyDrop(s, k), targets)
  {
    var s', x := ApplyDrop(s, k), s.sessions[k].(phase := Free);
    assert SessionOk(s.sessions[k], targets);
    LinkedPut(s, targets, k, x);
    assert s'.sessions == WithSession(s, k, x).sessions && s'.waiting == s.waiting;
    assert forall i :: 0 <= i < |s'.waiting| ==> WaitingOk(WithSession(s, k, x), s'.waiting[i], targets);
  }

  lemma LinkedStep(s: State, targets: iset<Target>, step: Step)
    requires Linked(s, targets) && Enabled(s, step) && (step.Arrive? ==> step.req.target in targets)
    ensures Linked(Apply(s, step), targets)
  {
    match step
    case Arrive(r) => LinkedArrive(s, targets, r);
    case Chunk(at, cancelled, n) => LinkedChunk(s, targets, at, cancelled, n);
    case Rename(k, renameOk) => LinkedRename(s, targets, k, renameOk);
    case Drop(k) => LinkedDrop(s, targets, k);
    case _ => LinkedFinal(s, targets, step);
  }

  // ---------------------------------------------------------------- runs

  ghost predicate Injective(paths: map<string, nat>)
  {
    forall p, q :: p in paths && q in paths && paths[p] == paths[q] ==> p == q
  }

  /** Any file system without hard links, before the first upload. */
  ghost predicate Initial(s: State)
  {
    && s.table == map[] && s.sessions == [] && s.waiting == [] && s.committed == map[] && s.replaced == {}
    && Injective(s.paths) && forall p :: p in s.paths ==> s.paths[p] < |s.inodes|
  }

  ghost predicate RequestsIn(steps: seq<Step>, targets: iset<Target>)
  {
    forall i :: 0 <= i < |steps| && steps[i].Arrive? ==> steps[i].req.target in targets
  }

  ghost predicate Reachable(s: State, targets: iset<Target>)
  {
    exists s0, steps :: Initial(s0) && ValidRun(s0, steps) && RequestsIn(steps, targets) && Exec(s0, steps) == s
  }

  lemma {:induction false} LinkedRun(s: State, targets: iset<Target>, steps: seq<Step>)
    requires Linked(s, targets) && ValidRun(s, steps) && RequestsIn(steps, targets)
    ensures Linked(Exec(s, steps), targets)
    decreases |steps|
  {
    if steps != [] {
      LinkedStep(s, targets, steps[0]);
      LinkedRun(Apply(s, steps[0]), targets, steps[1..]);
    }
  }

  /** In every run: a session with an open handle or a running handler is the one its id names
      in the table, so two of them never have the same id and dropping a stale session never
      evicts a newer one; and no committed file exceeds the limit. */
  lemma ActiveIsListed(s: State, targets: iset<Target>)
    requires Reachable(s, targets)
    ensures Linked(s, targets)
    ensures forall j, k :: 0 <= j < k < |s.sessions| && Active(s.sessions[j]) && Active(s.sessions[k]) ==>
      s.sessions[j].target.id != s.sessions[k].target.id
    ensures forall d :: d in s.committed ==> |s.committed[d].content| <= MAX_TOTAL
  {
    var s0, steps :| Initial(s0) && ValidRun(s0, steps) && RequestsIn(steps, targets) && Exec(s0, steps) == s;
    LinkedRun(s0, targets, steps);
  }

  // ---------------------------------------------------------------- building runs

  lemma {:induction false} ExecAppend(s: State, steps: seq<Step>, step: Step)
    requires Sane(s) && ValidRun(s, steps) && Enabled(Exec(s, steps), step)
    ensures ValidRun(s, steps + [step]) && Exec(s, steps + [step]) == Apply(Exec(s, steps), step)
    decreases |steps|
  {
    if steps == [] {
      assert [step][1..] == [];
    } else {
      assert (steps + [step])[1..] == steps[1..] + [step];
      ExecAppend(Apply(s, steps[0]), steps[1..], step);
    }
  }

  lemma ReachNext(s: State, targets: iset<Target>, step: Step) returns (s': State)
    requires Sane(s) && Reachable(s, targets) && Enabled(s, step)
    requires step.Arrive? ==> step.req.target in targets
    ensures s' == Apply(s, step) && Sane(s') && Reachable(s', targets)
  {
    var s0, steps :| Initial(s0) && ValidRun(s0, steps) && RequestsIn(steps, targets) && Exec(s0, steps) == s;
    ExecAppend(s0, steps, step);
    s' := Apply(s, step);
    assert RequestsIn(steps + [step], targets);
  }

  const EMPTY := State(map[], [], [], map[], [], map[], {})

  lemma EmptyReachable(targets: iset<Target>)
    ensures Reachable(EMPTY, targets) && Sane(EMPTY)
  {
    assert Initial(EMPTY) && ValidRun(EMPTY, []) && RequestsIn([], targets) && Exec(EMPTY, []) == EMPTY;
  }

  /** A request without a checksum. */
  function Plain(t: Target, offset: nat, data: Bytes, final: bool): Request
  {
    Request(t, offset, data, final, offset + |data|, None)
  }

  /** The session a new upload's first chunk of at most one byte leaves, alone in the queue. */
  function Opened(s: State, t: Target, data: Bytes, final: bool): State
  {
    var at := if t.tmp in s.paths then s.paths[t.tmp] else |s.inodes|;
    State(s.table[t.id := |s.sessions|],
          s.sessions + [Session(t, at, |data|, |data|, true,
                                if final then Held(Finishing, Plain(t, 0, data, true)) else Free, data)],
          [],
          s.paths[t.tmp := at],
          if t.tmp in s.paths && at < |s.inodes| then s.inodes[at := data] else s.inodes + [data],
          s.committed,
          s.replaced)
  }

  lemma OpenedIs(s: State, t: Target, data: Bytes, final: bool)
    requires Sane(s) && s.waiting == [] && t.id !in s.table && |data| <= 1
    ensures var s1 := ApplyArrive(s, Plain(t, 0, data, final));
      Enabled(s1, Chunk(0, false, |data|)) && ApplyChunk(s1, 0, false, |data|) == Opened(s, t, data, final)
  {
    var r, k := Plain(t, 0, data, final), |s.sessions|;
    var s1, s' := ApplyArrive(s, r), Opened(s, t, data, final);
    assert s1.waiting == [Waiting(k, r)];
    var s0 := s1.(waiting := []);
    assert s1.waiting[..0] + s1.waiting[1..] == [];
    FullWrite(s0, k, r);
    WrittenFirst(s0, k, data);
    assert Written(s0, k, data).inodes == s'.inodes;
    assert Written(s0, k, data).sessions[k := s'.sessions[k]] == s'.sessions;
  }

  lemma WrittenFirst(s: State, k: nat, data: Bytes)
    requires Sane(s) && k < |s.sessions| && s.sessions[k].pos == s.sessions[k].written == 0 &&
             s.sessions[k].accepted == []
    requires s.inodes[s.sessions[k].inode] == []
    ensures var x := s.sessions[k];
      Written(s, k, data) == s.(inodes := s.inodes[x.inode := data],
                                sessions := s.sessions[k := x.(pos := |data|, written := |data|, accepted := data)])
  {
    assert WriteAt([], 0, data) == data && [] + data == data;
  }

  lemma OpenWith(s: State, targets: iset<Target>, t: Target, data: Bytes, final: bool) returns (s': State)
    requires Sane(s) && Reachable(s, targets) && t in targets && s.waiting == [] && t.id !in s.table && |data| <= 1
    ensures s' == Opened(s, t, data, final) && Sane(s') && Reachable(s', targets)
  {
    OpenedIs(s, t, data, final);
    s' := ReachNext(s, targets, Arrive(Plain(t, 0, data, final)));
    s' := ReachNext(s', targets, Chunk(0, false, |data|));
  }

  /** From the finishing handler to the point before its rename, the destination being free. */
  lemma ClearNow(s: State, targets: iset<Target>, k: nat) returns (s': State)
    requires Sane(s) && Reachable(s, targets) && At(s, k, Finishing) && s.sessions[k].phase.req.checksum.None?
    requires s.sessions[k].phase.req.target.dest !in s.paths
    ensures Sane(s') && Reachable(s', targets)
    ensures s' == WithSession(s, k, s.sessions[k].(open := false, phase := Held(Cleared, s.sessions[k].phase.req)))
  {
    var r := s.sessions[k].phase.req;
    s' := ReachNext(s, targets, Check(k));
    s' := CloseNow(s', targets, k);
    PutTwice(s.sessions, k, s.sessions[k].(phase := Held(Checked, r)), s'.sessions[k]);
  }

  lemma PutTwice(xs: seq<Session>, k: nat, a: Session, b: Session)
    requires k < |xs|
    ensures xs[k := a][k := b] == xs[k := b]
  {
  }

  lemma CloseNow(s: State, targets: iset<Target>, k: nat) returns (s': State)
    requires Sane(s) && Reachable(s, targets) && At(s, k, Checked) && s.sessions[k].phase.req.target.dest !in s.paths
    ensures Sane(s') && Reachable(s', targets)
    ensures s' == WithSession(s, k, s.sessions[k].(open := false, phase := Held(Cleared, s.sessions[k].phase.req)))
  {
    var x, r := s.sessions[k], s.sessions[k].phase.req;
    s' := ReachNext(s, targets, Close(k, true));
    s' := ReachNext(s', targets, Stat(k, true));
    PutTwice(s.sessions, k, x.(open := false, phase := Held(Closed, r)), x.(open := false, phase := Held(Cleared, r)));
  }
}
