/** Chunked host file upload (common/agent/host_file_upload.go) on a small file system with
    inodes and open handles. A step is one critical section or one file-system call of a
    chunk handler; handlers of any number of uploads interleave. Requests that fail the
    up-front validation change nothing and are not steps. */
module FileUpload {
  import opened Text

  const MAX_CHUNK := 1024 * 1024
  const MAX_TOTAL := 10 * 1024 * 1024

  // ---------------------------------------------------------------- names

  predicate Plainly(c: char)
  {
    'a' <= c <= 'z' || 'A' <= c <= 'Z' || '0' <= c <= '9' || c == '-'
  }

  function SanitizeUploadId(id: string): (r: string)
    ensures forall c :: c in r ==> Plainly(c)
  {
    if id == [] then "upload" else seq(|id|, i requires 0 <= i < |id| => if Plainly(id[i]) then id[i] else '-')
  }

  /** What a request says on the wire, trimmed: its id, its path and its overwrite flag. */
  datatype Ask = Ask(id: string, path: string, overwrite: bool)

  /** The text of the temporary file's path. */
  function TempText(a: Ask): string
  {
    a.path + ".upload-" + SanitizeUploadId(a.id) + ".tmp"
  }

  /** Where an upload goes, by the names of the directory entries: the file system may give
      one entry several path texts. */
  datatype Target = Target(id: string, dest: string, tmp: string, overwrite: bool)

  /** name resolves a path text to its directory entry. */
  function TargetOf(a: Ask, name: string -> string): Target
  {
    Target(a.id, name(a.path), name(TempText(a)), a.overwrite)
  }

  /** Equal, or both turned into '-'. */
  predicate Alike(c: char, d: char)
  {
    c == d || ((c == '-' || !Plainly(c)) && (d == '-' || !Plainly(d)))
  }

  predicate AlikeIds(a: string, b: string)
  {
    |a| == |b| && forall i :: 0 <= i < |a| ==> Alike(a[i], b[i])
  }

  lemma AlikeSanitized(a: string, b: string)
    requires a != [] && b != []
    ensures SanitizeUploadId(a) == SanitizeUploadId(b) <==> AlikeIds(a, b)
  {
    var x, y := SanitizeUploadId(a), SanitizeUploadId(b);
    assert forall i :: 0 <= i < |a| && i < |b| ==> (x[i] == y[i] <==> Alike(a[i], b[i]));
    assert x == y <==> |a| == |b| && forall i :: 0 <= i < |a| ==> x[i] == y[i];
  }

  /** The last dot of a temporary file's text, without its ending, is the one in front of "upload-". */
  lemma LastDot(path: string, x: string)
    requires forall c :: c in x ==> Plainly(c)
    ensures var s := path + ".upload-" + x;
      s[|path|] == '.' && forall i :: |path| < i < |s| ==> s[i] != '.'
  {
    var s := path + ".upload-" + x;
    forall i | |path| < i < |s|
      ensures s[i] != '.'
    {
      if i < |path| + 8 {
        assert s[i] == ".upload-"[i - |path|];
      } else {
        assert s[i] == x[i - |path| - 8] && x[i - |path| - 8] in x;
      }
    }
  }

  /** The text of a temporary file determines the path and the sanitized id. */
  lemma TempParts(p: string, x: string, q: string, y: string)
    requires (forall c :: c in x ==> Plainly(c)) && (forall c :: c in y ==> Plainly(c))
    requires p + ".upload-" + x == q + ".upload-" + y
    ensures p == q && x == y
  {
    var s, t := p + ".upload-" + x, q + ".upload-" + y;
    LastDot(p, x);
    LastDot(q, y);
    assert |p| == |q|;
    assert p == s[..|p|] && q == t[..|q|] && x == s[|p| + 8..] && y == t[|q| + 8..];
  }

  /** Two uploads name the same temporary file exactly when they name the same path and their
      ids agree up to the characters the sanitizer replaces. */
  lemma SameTemporaryExactly(a: Ask, b: Ask)
    requires a.id != [] && b.id != []
    ensures TempText(a) == TempText(b) <==> a.path == b.path && AlikeIds(a.id, b.id)
  {
    var x, y := SanitizeUploadId(a.id), SanitizeUploadId(b.id);
    var s, t := a.path + ".upload-" + x, b.path + ".upload-" + y;
    AlikeSanitized(a.id, b.id);
    assert s + ".tmp" == t + ".tmp" <==> s == t by {
      assert (s + ".tmp")[..|s|] == s && (t + ".tmp")[..|t|] == t;
    }
    if s == t {
      TempParts(a.path, x, b.path, y);
    }
  }

  // ---------------------------------------------------------------- state

  /** A validated request. The checksum, if it carries one, tells which contents match. */
  datatype Request = Request(target: Target, offset: nat, data: Bytes, final: bool, total: nat,
                             checksum: Option<Bytes -> bool>)

  predicate Admissible(r: Request)
  {
    r.total <= MAX_TOTAL && |r.data| <= MAX_CHUNK
  }

  predicate Matches(r: Request, content: Bytes)
  {
    r.checksum.Some? ==> r.checksum.value(content)
  }

  /** How far the final chunk's handler is. Finishing: the sizes agree. Checked: the checksum
      holds. Closed: the handle is closed. Cleared: the destination may be taken. */
  datatype Stage = Finishing | Checked | Closed | Cleared

  /** Free: sess.mu is not held. Dropping: about to leave the table. */
  datatype Phase = Free | Held(stage: Stage, req: Request) | Dropping

  /** target is the one its first chunk named; accepted holds the chunks accepted since. */
  datatype Session = Session(target: Target, inode: nat, pos: nat, written: nat, open: bool, phase: Phase,
                             accepted: Bytes)

  /** What the upload that last committed a destination had accepted. */
  datatype Landed = Landed(target: Target, content: Bytes)

  /** A handler that looked its session up and waits for sess.mu. */
  datatype Waiting = Waiting(session: nat, req: Request)

  datatype State = State(
    table: map<string, nat>,          // uploadSessions
    sessions: seq<Session>,
    waiting: seq<Waiting>,
    paths: map<string, nat>,
    inodes: seq<Bytes>,
    committed: map<string, Landed>,
    replaced: set<string>)            // entries a rename took that did not ask to overwrite

  datatype Step =
    | Arrive(req: Request)                     // table lookup, or open a new session
    | Chunk(at: nat, cancelled: bool, n: nat)  // waiting[at] gets sess.mu; Write takes n bytes
    | Check(session: nat)                      // the checksum of the temporary file
    | Close(session: nat, closeOk: bool)
    | Stat(session: nat, statOk: bool)         // skipped over when overwriting
    | Rename(session: nat, renameOk: bool)
    | Drop(session: nat)

  predicate Sane(s: State)
  {
    && (forall i :: 0 <= i < |s.sessions| ==> s.sessions[i].inode < |s.inodes|)
    && (forall i :: 0 <= i < |s.waiting| ==> s.waiting[i].session < |s.sessions|)
    && (forall id :: id in s.table ==> s.table[id] < |s.sessions|)
    && (forall p :: p in s.paths ==> s.paths[p] < |s.inodes|)
  }

  predicate At(s: State, k: nat, stage: Stage)
  {
    k < |s.sessions| && s.sessions[k].phase.Held? && s.sessions[k].phase.stage == stage
  }

  predicate Enabled(s: State, step: Step)
    requires Sane(s)
  {
    match step
    case Arrive(r) => Admissible(r)
    case Chunk(at, _, n) =>
      at < |s.waiting| && s.sessions[s.waiting[at].session].phase.Free? && n <= |s.waiting[at].req.data|
    case Check(k) => At(s, k, Finishing)
    case Close(k, _) => At(s, k, Checked)
    case Stat(k, _) => At(s, k, Closed)
    case Rename(k, _) => At(s, k, Cleared)
    case Drop(k) => k < |s.sessions| && s.sessions[k].phase.Dropping?
  }

  // ---------------------------------------------------------------- effects

  /** write(2) through a handle at a position; a gap left by truncation reads as zeros. */
  function WriteAt(content: Bytes, pos: nat, data: Bytes): Bytes
  {
    var padded := if pos <= |content| then content else content + seq(pos - |content|, i => 0);
    padded[..pos] + data + (if pos + |data| <= |padded| then padded[pos + |data|..] else [])
  }

  function WithSession(s: State, k: nat, sess: Session): (s': State)
    requires Sane(s) && k < |s.sessions| && sess.inode < |s.inodes|
    ensures Sane(s')
  {
    s.(sessions := s.sessions[k := sess])
  }

  function WithStage(s: State, k: nat, stage: Stage): (s': State)
    requires Sane(s) && k < |s.sessions| && s.sessions[k].phase.Held?
    ensures Sane(s')
  {
    WithSession(s, k, s.sessions[k].(phase := s.sessions[k].phase.(stage := stage)))
  }

  /** abortUpload up to the drop: close the handle, remove the temporary file. */
  function Abort(s: State, k: nat): (s': State)
    requires Sane(s) && k < |s.sessions|
    ensures Sane(s')
  {
    WithSession(s, k, s.sessions[k].(open := false, phase := Dropping)).(paths := s.paths - {s.sessions[k].target.tmp})
  }

  function ApplyArrive(s: State, r: Request): (s': State)
    requires Sane(s)
    ensures Sane(s')
  {
    if r.target.id in s.table then s.(waiting := s.waiting + [Waiting(s.table[r.target.id], r)])
    else
      var k, tmp := |s.sessions|, r.target.tmp;
      var existing := tmp in s.paths;
      var inode := if existing then s.paths[tmp] else |s.inodes|;
      s.(table := s.table[r.target.id := k],
         sessions := s.sessions + [Session(r.target, inode, 0, 0, true, Free, [])],
         waiting := s.waiting + [Waiting(k, r)],
         paths := s.paths[tmp := inode],
         inodes := if existing then s.inodes[inode := []] else s.inodes + [[]])
  }

  /** The chunk once its offset is accepted: write, and on the final one compare sizes. */
  function AfterWrite(s: State, k: nat, r: Request, n: nat): (s': State)
    requires Sane(s) && k < |s.sessions| && n <= |r.data|
    ensures Sane(s')
  {
    var sess := s.sessions[k];
    var s1 := s.(inodes := s.inodes[sess.inode := WriteAt(s.inodes[sess.inode], sess.pos, r.data[..n])]);
    if n < |r.data| then Abort(s1, k)
    else
      var sess' := sess.(pos := sess.pos + n, written := sess.written + n, accepted := sess.accepted + r.data);
      if !r.final then WithSession(s1, k, sess')
      else if sess'.written != r.total then Abort(WithSession(s1, k, sess'), k)
      else WithSession(s1, k, sess'.(phase := Held(Finishing, r)))
  }

  function ApplyChunk(s: State, at: nat, cancelled: bool, n: nat): (s': State)
    requires Sane(s) && Enabled(s, Chunk(at, cancelled, n))
    ensures Sane(s')
  {
    var k, r := s.waiting[at].session, s.waiting[at].req;
    var s0 := s.(waiting := s.waiting[..at] + s.waiting[at + 1..]);
    if !s.sessions[k].open then s0
    else if r.offset != s.sessions[k].written || cancelled then Abort(s0, k)
    else AfterWrite(s0, k, r, n)
  }

  function ApplyCheck(s: State, k: nat): (s': State)
    requires Sane(s) && At(s, k, Finishing)
    ensures Sane(s')
  {
    var sess := s.sessions[k];
    var tmp, r := sess.target.tmp, sess.phase.req;
    if r.checksum.None? || (tmp in s.paths && r.checksum.value(s.inodes[s.paths[tmp]])) then WithStage(s, k, Checked)
    else Abort(s, k)
  }

  function ApplyClose(s: State, k: nat, closeOk: bool): (s': State)
    requires Sane(s) && At(s, k, Checked)
    ensures Sane(s')
  {
    var sess := s.sessions[k];
    if closeOk then WithSession(s, k, sess.(open := false, phase := Held(Closed, sess.phase.req))) else Abort(s, k)
  }

  function ApplyStat(s: State, k: nat, statOk: bool): (s': State)
    requires Sane(s) && At(s, k, Closed)
    ensures Sane(s')
  {
    var t := s.sessions[k].phase.req.target;
    if t.overwrite || (t.dest !in s.paths && statOk) then WithStage(s, k, Cleared) else Abort(s, k)
  }

  function ApplyRename(s: State, k: nat, renameOk: bool): (s': State)
    requires Sane(s) && At(s, k, Cleared)
    ensures Sane(s')
  {
    var sess := s.sessions[k];
    var t, tmp := sess.phase.req.target, sess.target.tmp;
    if !renameOk || tmp !in s.paths then Abort(s, k)
    else
      WithSession(s, k, sess.(phase := Dropping))
        .(paths := (s.paths - {tmp})[t.dest := s.paths[tmp]],
          committed := s.committed[t.dest := Landed(t, sess.accepted)],
          replaced := if t.dest in s.paths && !t.overwrite then s.replaced + {t.dest} else s.replaced)
  }

  function ApplyDrop(s: State, k: nat): (s': State)
    requires Sane(s) && k < |s.sessions| && s.sessions[k].phase.Dropping?
    ensures Sane(s')
  {
    var sess := s.sessions[k];
    WithSession(s, k, sess.(phase := Free))
      .(table := if sess.target.id in s.table && s.table[sess.target.id] == k then s.table - {sess.target.id}
        else s.table)
  }

  function Apply(s: State, step: Step): (s': State)
    requires Sane(s) && Enabled(s, step)
    ensures Sane(s')
  {
    match step
    case Arrive(r) => ApplyArrive(s, r)
    case Chunk(at, cancelled, n) => ApplyChunk(s, at, cancelled, n)
    case Check(k) => ApplyCheck(s, k)
    case Close(k, closeOk) => ApplyClose(s, k, closeOk)
    case Stat(k, statOk) => ApplyStat(s, k, statOk)
    case Rename(k, renameOk) => ApplyRename(s, k, renameOk)
    case Drop(k) => ApplyDrop(s, k)
  }

  ghost predicate ValidRun(s: State, steps: seq<Step>)
    requires Sane(s)
    decreases |steps|
  {
    steps == [] || (Enabled(s, steps[0]) && ValidRun(Apply(s, steps[0]), steps[1..]))
  }

  ghost function Exec(s: State, steps: seq<Step>): (s': State)
    requires Sane(s) && ValidRun(s, steps)
    ensures Sane(s')
    decreases |steps|
  {
    if steps == [] then s else Exec(Apply(s, steps[0]), steps[1..])
  }
}
