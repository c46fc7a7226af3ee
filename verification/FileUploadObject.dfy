/** The upload table as the handlers change it (common/agent/host_file_upload.go). */
module FileUploadObject {
  import opened Text
  import opened FileUpload
  import opened FileUploadHandler
  import Safety = FileUploadSafety

  class Uploads {
    var table: map<string, nat>
    var sessions: seq<Session>
    var paths: map<string, nat>
    var inodes: seq<Bytes>
    ghost var committed: map<string, Landed>
    ghost var replaced: set<string>

    ghost function Snapshot(): State
      reads this
    {
      State(table, sessions, [], paths, inodes, committed, replaced)
    }

    ghost predicate Valid()
      reads this
    {
      Sane(Snapshot()) && Idle(Snapshot())
    }

    constructor ()
      ensures Valid() && Snapshot() == Safety.EMPTY
    {
      table, sessions, paths, inodes, committed, replaced := map[], [], map[], [], map[], {};
    }

    /** The entry goes only if it is this session's. */
    method DropUploadSession(k: nat)
      requires Sane(Snapshot()) && k < |sessions|
      modifies this`table
      ensures table == if sessions[k].target.id in old(table) && old(table)[sessions[k].target.id] == k
                       then old(table) - {sessions[k].target.id} else old(table)
    {
      var id := sessions[k].target.id;
      if id in table && table[id] == k {
        table := table - {id};
      }
    }

    method AbortUpload(k: nat)
      requires Sane(Snapshot()) && k < |sessions|
      modifies this
      ensures Snapshot() == ApplyDrop(Abort(old(Snapshot()), k), k)
      ensures |sessions| == |old(sessions)| && !sessions[k].open
      ensures paths == old(paths) - {old(sessions[k]).target.tmp} && inodes == old(inodes)
      ensures old(sessions[k]).target.id in table ==> table[old(sessions[k]).target.id] != k
    {
      sessions := sessions[k := sessions[k].(open := false, phase := Free)];
      paths := paths - {sessions[k].target.tmp};
      DropUploadSession(k);
      Safety.PutTwice(old(sessions), k, old(sessions[k]).(open := false, phase := Dropping), sessions[k]);
    }

    method OpenSession(r: Request) returns (k: nat)
      requires Valid()
      modifies this
      ensures k == SessionOf(old(Snapshot()), r.target.id) < |sessions|
      ensures Snapshot() == Begun(old(Snapshot()), r) && Valid()
    {
      if r.target.id in table {
        k := table[r.target.id];
      } else {
        k := |sessions|;
        var inode := |inodes|;
        if r.target.tmp in paths {
          inode := paths[r.target.tmp];
          inodes := inodes[inode := []];
        } else {
          inodes := inodes + [[]];
        }
        paths := paths[r.target.tmp := inode];
        sessions := sessions + [Session(r.target, inode, 0, 0, true, Free, [])];
        table := table[r.target.id := k];
      }
    }

    /** The rename went through. */
    method TakeDestination(k: nat, r: Request)
      requires Valid() && k < |sessions| && sessions[k].target.tmp in paths
      modifies this
      ensures Snapshot() == Taken(old(Snapshot()), k, r)
      ensures var tmp := old(sessions[k]).target.tmp; paths == (old(paths) - {tmp})[r.target.dest := old(paths)[tmp]]
      ensures inodes == old(inodes) && (old(sessions[k]).target.id in table ==> table[old(sessions[k]).target.id] != k)
      ensures sessions == old(sessions)[k := old(sessions[k]).(open := false)]
      ensures committed == old(committed)[r.target.dest := Landed(r.target, old(sessions[k]).accepted)]
    {
      var tmp, dest := sessions[k].target.tmp, r.target.dest;
      replaced := if dest in paths && !r.target.overwrite then replaced + {dest} else replaced;
      committed := committed[dest := Landed(r.target, sessions[k].accepted)];
      paths := (paths - {tmp})[dest := paths[tmp]];
      sessions := sessions[k := sessions[k].(open := false)];
      DropUploadSession(k);
      Safety.PutTwice(old(sessions), k, old(sessions[k]).(open := false, phase := Dropping), sessions[k]);
    }

    /** Nothing is left of a session but its record. */
    predicate Gone(k: nat, t: Target)
      reads this
    {
      t.tmp !in paths && (t.id in table ==> table[t.id] != k)
    }

    /** The final chunk's checksum, close, stat and rename. */
    method FinishUpload(k: nat, r: Request, e: Env) returns (ok: bool)
      requires Valid() && k < |sessions| && sessions[k].open && sessions[k].written == r.total
      modifies this
      ensures ok == Commits(old(Snapshot()), k, r, e)
      ensures Snapshot() == if ok then Taken(old(Snapshot()), k, r) else ApplyDrop(Abort(old(Snapshot()), k), k)
      ensures |sessions| == |old(sessions)| && !sessions[k].open &&
              (ok ==> sessions[k].accepted == old(sessions[k].accepted))
      ensures ok ==> committed == old(committed)[r.target.dest := Landed(r.target, old(sessions[k].accepted))]
      ensures !ok ==> committed == old(committed)
      ensures Gone(k, old(sessions[k]).target) || (ok && r.target.dest == old(sessions[k]).target.tmp)
    {
      var tmp := sessions[k].target.tmp;
      ok := false;
      if r.checksum.Some? && (tmp !in paths || !r.checksum.value(inodes[paths[tmp]])) {
        AbortUpload(k);
      } else if !e.closeOk {
        AbortUpload(k);
      } else if !r.target.overwrite && (r.target.dest in paths || !e.statOk) {
        AbortUpload(k);
      } else if !e.renameOk || tmp !in paths {
        AbortUpload(k);
      } else {
        TakeDestination(k, r);
        ok := true;
      }
    }

    method Write(k: nat, data: Bytes, n: nat) returns (ok: bool)
      requires Valid() && k < |sessions| && n <= |data|
      modifies this
      ensures Valid() && ok == (n == |data|)
      ensures ok ==> Snapshot() == Safety.Written(old(Snapshot()), k, data)
      ensures !ok ==> Snapshot() == old(Snapshot()).(inodes := Safety.Written(old(Snapshot()), k, data[..n]).inodes)
    {
      var x := sessions[k];
      inodes := inodes[x.inode := WriteAt(inodes[x.inode], x.pos, data[..n])];
      ok := n == |data|;
      if ok {
        assert data[..n] == data;
        sessions := sessions[k := x.(pos := x.pos + n, written := x.written + n, accepted := x.accepted + data)];
      }
    }

    /** The final chunk is in: the announced size decides whether the rest is tried. */
    method EndUpload(k: nat, r: Request, e: Env) returns (ok: bool)
      requires Valid() && k < |sessions| && sessions[k].open
      modifies this
      ensures ok == (old(sessions[k].written) == r.total && Commits(old(Snapshot()), k, r, e))
      ensures Snapshot() == if ok then Taken(old(Snapshot()), k, r) else ApplyDrop(Abort(old(Snapshot()), k), k)
      ensures |sessions| == |old(sessions)| && !sessions[k].open && (!ok ==> Gone(k, old(sessions[k]).target))
      ensures ok ==> sessions[k].accepted == old(sessions[k].accepted)
      ensures ok ==> committed == old(committed)[r.target.dest := Landed(r.target, old(sessions[k].accepted))]
      ensures !ok ==> committed == old(committed)
    {
      if sessions[k].written != r.total {
        AbortUpload(k);
        return false;
      }
      ok := FinishUpload(k, r, e);
    }

    method WriteChunk(k: nat, r: Request, e: Env) returns (ok: bool)
      requires Valid() && k < |sessions| && sessions[k].open && e.wrote <= |r.data|
      modifies this
      ensures Snapshot() == Finish(AfterWrite(old(Snapshot()), k, r, e.wrote), k, e)
      ensures ok <==> e.wrote == |r.data| && (r.final ==> Ends(old(Snapshot()), k, r, e))
      ensures !ok ==> Gone(k, old(sessions[k]).target)
      ensures |sessions| == |old(sessions)| && (sessions[k].open <==> ok && !r.final)
      ensures ok ==> sessions[k].accepted == old(sessions[k].accepted) + r.data
      ensures !ok || !r.final ==> committed == old(committed)
      ensures ok && r.final ==>
        r.target.dest in committed && committed[r.target.dest] == Landed(r.target, old(sessions[k].accepted) + r.data)
    {
      ghost var s := Snapshot();
      ok := Write(k, r.data, e.wrote);
      ghost var w := Snapshot();
      if !ok {
        CutShort(s, w, k, r, e);
        AbortUpload(k);
      } else {
        WrittenWhole(s, w, k, r, e);
        if r.final {
          ok := EndUpload(k, r, e);
        }
      }
    }

    method RunOpen(k: nat, r: Request, e: Env) returns (ok: bool)
      requires Valid() && k < |sessions| && sessions[k].open && e.wrote <= |r.data|
      modifies this
      ensures Snapshot() == Locked(old(Snapshot()), k, r, e)
      ensures ok == Accepts(old(Snapshot()), k, r, e) && (!ok ==> Gone(k, old(sessions[k]).target))
      ensures |sessions| == |old(sessions)| && (sessions[k].open <==> ok && !r.final)
      ensures ok ==> sessions[k].accepted == old(sessions[k].accepted) + r.data
      ensures !ok || !r.final ==> committed == old(committed)
      ensures ok && r.final ==>
        r.target.dest in committed && committed[r.target.dest] == Landed(r.target, old(sessions[k].accepted) + r.data)
    {
      if r.offset != sessions[k].written || e.cancelled {
        AbortUpload(k);
        ok := false;
      } else {
        ok := WriteChunk(k, r, e);
      }
    }

    method RunLocked(k: nat, r: Request, e: Env) returns (ok: bool)
      requires Valid() && k < |sessions| && e.wrote <= |r.data|
      modifies this
      ensures Snapshot() == Locked(old(Snapshot()), k, r, e)
      ensures ok == Accepts(old(Snapshot()), k, r, e)
      ensures !ok && old(sessions[k].open) ==> Gone(k, old(sessions[k]).target)
      ensures |sessions| == |old(sessions)| && (sessions[k].open <==> ok && !r.final)
      ensures ok ==> sessions[k].accepted == old(sessions[k].accepted) + r.data
      ensures !ok || !r.final ==> committed == old(committed)
      ensures ok && r.final ==>
        r.target.dest in committed && committed[r.target.dest] == Landed(r.target, old(sessions[k].accepted) + r.data)
    {
      ok := false;
      if sessions[k].open {
        ok := RunOpen(k, r, e);
      }
    }

    /** ok acknowledges the chunk, exactly if its session accepts it: the chunk joins the
        accepted bytes, or, when it is the final one, all of them become the destination. A
        failure on an open session leaves neither its temporary file nor its table entry. */
    twostate predicate Acked(r: Request, e: Env, ok: bool)
      requires old(Valid()) && e.wrote <= |r.data|
      reads this
    {
      var k, b := SessionOf(old(Snapshot()), r.target.id), Begun(old(Snapshot()), r);
      var accepted := b.sessions[k].accepted + r.data;
      && ok == Accepts(b, k, r, e) && (!ok && b.sessions[k].open ==> Gone(k, b.sessions[k].target))
      && k < |sessions| && (sessions[k].open <==> ok && !r.final) && (ok ==> sessions[k].accepted == accepted)
      && (ok && r.final ==> r.target.dest in committed && committed[r.target.dest] == Landed(r.target, accepted))
    }

    method RunAdmitted(r: Request, e: Env) returns (ok: bool)
      requires Valid() && e.wrote <= |r.data|
      modifies this
      ensures Snapshot() == Locked(Begun(old(Snapshot()), r), SessionOf(old(Snapshot()), r.target.id), r, e)
      ensures Acked(r, e, ok) && (!ok || !r.final ==> committed == old(committed))
    {
      var k := OpenSession(r);
      ok := RunLocked(k, r, e);
    }

    /** A request over the limits is refused and changes nothing; any other is acknowledged
        as its session decides. */
    method RunFileUpload(r: Request, e: Env) returns (ok: bool)
      requires Valid() && e.wrote <= |r.data|
      modifies this
      ensures Valid() && Snapshot() == Handled(old(Snapshot()), r, e)
      ensures if Admissible(r) then Acked(r, e, ok) else !ok && Snapshot() == old(Snapshot())
      ensures !ok || !r.final ==> committed == old(committed)
    {
      ghost var s := Snapshot();
      if r.total > MAX_TOTAL || |r.data| > MAX_CHUNK {
        ok := false;
      } else {
        ok := RunAdmitted(r, e);
        HandledIs(s, r, e);
      }
      HandledIdle(s, r, e);
    }
  }

  /** A short write is aborted. */
  lemma CutShort(s: State, w: State, k: nat, r: Request, e: Env)
    requires Sane(s) && k < |s.sessions| && s.sessions[k].phase.Free? && e.wrote < |r.data|
    requires w == s.(inodes := Safety.Written(s, k, r.data[..e.wrote]).inodes)
    ensures Sane(w) && Finish(AfterWrite(s, k, r, e.wrote), k, e) == ApplyDrop(Abort(w, k), k)
  {
    FinishDropped(w, k, e);
  }

  /** A whole write stays, and a final one is ended. */
  lemma WrittenWhole(s: State, w: State, k: nat, r: Request, e: Env)
    requires Sane(s) && k < |s.sessions| && s.sessions[k].phase.Free? && e.wrote == |r.data|
    requires w == Safety.Written(s, k, r.data)
    ensures Finish(AfterWrite(s, k, r, e.wrote), k, e) ==
            if !r.final then w else if Ends(s, k, r, e) then Taken(w, k, r) else ApplyDrop(Abort(w, k), k)
  {
    Safety.FullWrite(s, k, r);
    if !r.final || w.sessions[k].written != r.total {
      FinishDropped(w, k, e);
    } else {
      FinishSplits(w, k, r, e);
    }
  }
}
