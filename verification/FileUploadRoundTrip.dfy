/** A whole upload, chunk by chunk: it lands exactly when it is within the limits. */
module FileUploadRoundTrip {
  import opened Text
  import opened FileUpload
  import opened FileUploadHandler
  import Safety = FileUploadSafety
  import Contents = FileUploadContents

  // ---------------------------------------------------------------- the chunks

  function Concat(chunks: seq<Bytes>): Bytes
  {
    if chunks == [] then [] else chunks[0] + Concat(chunks[1..])
  }

  lemma {:induction false} ConcatSnoc(chunks: seq<Bytes>, d: Bytes)
    ensures Concat(chunks + [d]) == Concat(chunks) + d
  {
    if chunks == [] {
      assert Concat([d][1..]) == [] && [] + d == d + [];
    } else {
      assert (chunks + [d])[1..] == chunks[1..] + [d];
      ConcatSnoc(chunks[1..], d);
    }
  }

  lemma ConcatNext(chunks: seq<Bytes>, i: nat)
    requires i < |chunks|
    ensures Concat(chunks[..i + 1]) == Concat(chunks[..i]) + chunks[i]
  {
    assert chunks[..i + 1] == chunks[..i] + [chunks[i]];
    ConcatSnoc(chunks[..i], chunks[i]);
  }

  lemma WholeLast(chunks: seq<Bytes>)
    requires chunks != []
    ensures Concat(chunks) == Concat(chunks[..|chunks| - 1]) + chunks[|chunks| - 1]
    ensures |chunks| == 1 ==> chunks[..0] == [] && Concat(chunks) == chunks[0]
  {
    ConcatNext(chunks, |chunks| - 1);
    assert chunks[..|chunks|] == chunks;
  }

  /** The limits of host_file_upload.go. */
  predicate Within(chunks: seq<Bytes>)
  {
    |Concat(chunks)| <= MAX_TOTAL && forall i :: 0 <= i < |chunks| ==> |chunks[i]| <= MAX_CHUNK
  }

  function Nth(t: Target, chunks: seq<Bytes>, i: nat, checksum: Option<Bytes -> bool>): Request
    requires i < |chunks|
  {
    Request(t, |Concat(chunks[..i])|, chunks[i], i == |chunks| - 1, |Concat(chunks)|, checksum)
  }

  // ---------------------------------------------------------------- the calls

  function Fine(data: Bytes): Env
  {
    Env(false, |data|, true, true, true)
  }

  /** The request handled with nothing failing. */
  function After(s: State, r: Request): (s': State)
    requires Sane(s) && Idle(s)
    ensures Sane(s') && Idle(s')
  {
    HandledIdle(s, r, Fine(r.data));
    Handled(s, r, Fine(r.data))
  }

  /** The chunks sent in order, one handler at a time, nothing failing. */
  ghost predicate Sent(states: seq<State>, t: Target, chunks: seq<Bytes>, checksum: Option<Bytes -> bool>)
  {
    && |states| == |chunks| + 1
    && (forall i :: 0 <= i <= |chunks| ==> Sane(states[i]) && Idle(states[i]))
    && (forall i, j :: 0 <= i && j == i + 1 <= |chunks| ==> states[j] == After(states[i], Nth(t, chunks, i, checksum)))
  }

  /** The destination is a new file with that content, and the upload's session is gone. */
  predicate Delivered(s: State, s': State, t: Target, content: Bytes)
    requires Sane(s')
  {
    && t.id !in s'.table && t.dest in s'.paths && s'.inodes[s'.paths[t.dest]] == content
    && (t.dest in s.paths ==> s'.paths[t.dest] != s.paths[t.dest])
  }

  // ---------------------------------------------------------------- within the limits

  /** The file t's first chunk opens in s. */
  function TempInode(s: State, t: Target): nat
  {
    if t.tmp in s.paths then s.paths[t.tmp] else |s.inodes|
  }

  /** One session for t is open and its file holds what was accepted so far. */
  predicate InProgress(s: State, t: Target, acc: Bytes)
  {
    && Sane(s) && Idle(s) && t.id in s.table
    && var k := s.table[t.id];
    && k < |s.sessions|
    && var x := s.sessions[k];
    && x == Session(t, x.inode, |acc|, |acc|, true, Free, acc)
    && t.tmp in s.paths && s.paths[t.tmp] == x.inode && x.inode < |s.inodes| && s.inodes[x.inode] == acc
  }

  lemma KnownIs(s: State, t: Target, acc: Bytes, r: Request)
    requires InProgress(s, t, acc) && r.target == t && r.offset == |acc| && Admissible(r)
    ensures After(s, r) == Finish(AfterWrite(s, s.table[t.id], r, |r.data|), s.table[t.id], Fine(r.data))
  {
    HandledIs(s, r, Fine(r.data));
    assert Begun(s, r) == s;
  }

  lemma MiddleIs(s: State, t: Target, acc: Bytes, r: Request)
    requires InProgress(s, t, acc) && r.target == t && r.offset == |acc| && Admissible(r) && !r.final
    ensures After(s, r) == Safety.Written(s, s.table[t.id], r.data)
  {
    var k := s.table[t.id];
    KnownIs(s, t, acc, r);
    Safety.FullWrite(s, k, r);
    FinishDropped(Safety.Written(s, k, r.data), k, Fine(r.data));
  }

  lemma WrittenOn(s: State, t: Target, acc: Bytes, data: Bytes)
    requires InProgress(s, t, acc)
    ensures InProgress(Safety.Written(s, s.table[t.id], data), t, acc + data)
  {
    Contents.AppendAtEnd(acc, data);
  }

  lemma SendMiddle(s: State, t: Target, acc: Bytes, r: Request)
    requires InProgress(s, t, acc) && r.target == t && r.offset == |acc| && Admissible(r) && !r.final
    ensures InProgress(After(s, r), t, acc + r.data)
    ensures After(s, r).paths == s.paths && After(s, r).committed == s.committed
  {
    MiddleIs(s, t, acc, r);
    WrittenOn(s, t, acc, r.data);
  }

  lemma SendLast(s: State, t: Target, acc: Bytes, r: Request)
    requires InProgress(s, t, acc) && r.target == t && r.offset == |acc| && Admissible(r)
    requires r.final && r.total == |acc| + |r.data| && Matches(r, acc + r.data) && (t.overwrite || t.dest !in s.paths)
    ensures After(s, r) == Taken(Safety.Written(s, s.table[t.id], r.data), s.table[t.id], r)
    ensures var s' := After(s, r);
      t.id !in s'.table && t.dest in s'.paths && s'.paths[t.dest] == s.paths[t.tmp] &&
          s'.inodes[s'.paths[t.dest]] == acc + r.data
  {
    var k := s.table[t.id];
    KnownIs(s, t, acc, r);
    Safety.FullWrite(s, k, r);
    Contents.AppendAtEnd(acc, r.data);
    FinishSplits(Safety.Written(s, k, r.data), k, r, Fine(r.data));
  }

  lemma BegunIs(s: State, r: Request)
    requires Sane(s) && Idle(s) && r.target.id !in s.table
    ensures InProgress(Begun(s, r), r.target, []) &&
            Begun(s, r).paths == s.paths[r.target.tmp := TempInode(s, r.target)]
  {
  }

  /** The first chunk, as if its session had been open already. */
  lemma FirstChunk(s: State, r: Request)
    requires Sane(s) && Idle(s) && r.target.id !in s.table && Admissible(r)
    ensures After(s, r) == After(Begun(s, r), r)
  {
    HandledIs(s, r, Fine(r.data));
    HandledIs(Begun(s, r), r, Fine(r.data));
    assert Begun(Begun(s, r), r) == Begun(s, r);
  }

  lemma FirstSent(s: State, t: Target, r: Request)
    requires Sane(s) && Idle(s) && t.id !in s.table && r.target == t && r.offset == 0 && !r.final && Admissible(r)
    ensures InProgress(After(s, r), t, r.data) && After(s, r).paths == s.paths[t.tmp := TempInode(s, t)]
    ensures After(s, r).committed == s.committed
  {
    FirstChunk(s, r);
    BegunIs(s, r);
    SendMiddle(Begun(s, r), t, [], r);
    assert [] + r.data == r.data;
  }

  lemma NextSent(s: State, s': State, t: Target, chunks: seq<Bytes>, checksum: Option<Bytes -> bool>, i: nat)
    requires i + 1 < |chunks| && |Concat(chunks)| <= MAX_TOTAL && |chunks[i]| <= MAX_CHUNK
    requires InProgress(s, t, Concat(chunks[..i])) && s' == After(s, Nth(t, chunks, i, checksum))
    ensures InProgress(s', t, Concat(chunks[..i + 1])) && s'.paths == s.paths && s'.committed == s.committed
  {
    ConcatNext(chunks, i);
    SendMiddle(s, t, Concat(chunks[..i]), Nth(t, chunks, i, checksum));
  }

  lemma BeginSent(s: State, s': State, t: Target, chunks: seq<Bytes>, checksum: Option<Bytes -> bool>)
    requires 1 < |chunks| && |Concat(chunks)| <= MAX_TOTAL && |chunks[0]| <= MAX_CHUNK
    requires Sane(s) && Idle(s) && t.id !in s.table && s' == After(s, Nth(t, chunks, 0, checksum))
    ensures InProgress(s', t, Concat(chunks[..1])) && s'.paths == s.paths[t.tmp := TempInode(s, t)]
    ensures s'.committed == s.committed
  {
    ConcatNext(chunks, 0);
    assert Concat(chunks[..0]) == [] && [] + chunks[0] == chunks[0];
    FirstSent(s, t, Nth(t, chunks, 0, checksum));
  }

  /** The first i chunks have arrived, and only the temporary file is new. */
  predicate Underway(s0: State, s: State, t: Target, chunks: seq<Bytes>, i: nat)
    requires Sane(s0) && i <= |chunks|
  {
    && InProgress(s, t, Concat(chunks[..i]))
    && s.paths == s0.paths[t.tmp := TempInode(s0, t)] && s.committed == s0.committed
  }

  lemma SentAt(states: seq<State>, t: Target, chunks: seq<Bytes>, checksum: Option<Bytes -> bool>, i: nat, j: nat)
    requires Sent(states, t, chunks, checksum) && j == i + 1 <= |chunks|
    ensures Sane(states[i]) && Idle(states[i]) && states[j] == After(states[i], Nth(t, chunks, i, checksum))
  {
  }

  lemma UnderwayNext(s0: State, s: State, s': State, t: Target, chunks: seq<Bytes>, checksum: Option<Bytes -> bool>,
                     i: nat)
    requires Sane(s0) && i + 1 < |chunks| && |Concat(chunks)| <= MAX_TOTAL && |chunks[i]| <= MAX_CHUNK
    requires Underway(s0, s, t, chunks, i) && s' == After(s, Nth(t, chunks, i, checksum))
    ensures Underway(s0, s', t, chunks, i + 1)
  {
    NextSent(s, s', t, chunks, checksum, i);
  }

  lemma {:induction false} SentPrefix(states: seq<State>, t: Target, chunks: seq<Bytes>,
                                      checksum: Option<Bytes -> bool>, i: nat)
    requires Sent(states, t, chunks, checksum) && t.id !in states[0].table && |Concat(chunks)| <= MAX_TOTAL
    requires 0 < i < |chunks| && forall j :: 0 <= j < i ==> |chunks[j]| <= MAX_CHUNK
    ensures Underway(states[0], states[i], t, chunks, i)
  {
    if i == 1 {
      SentAt(states, t, chunks, checksum, 0, 1);
      BeginSent(states[0], states[1], t, chunks, checksum);
    } else {
      SentPrefix(states, t, chunks, checksum, i - 1);
      SentAt(states, t, chunks, checksum, i - 1, i);
      UnderwayNext(states[0], states[i - 1], states[i], t, chunks, checksum, i - 1);
    }
  }

  /** Delivery from the state before the last chunk. */
  lemma LastSent(s0: State, s: State, s': State, t: Target, chunks: seq<Bytes>, checksum: Option<Bytes -> bool>)
    requires chunks != [] && Within(chunks) && (checksum.Some? ==> checksum.value(Concat(chunks)))
    requires Sane(s0) && Safety.Injective(s0.paths) && t.dest != t.tmp && (t.overwrite || t.dest !in s0.paths)
    requires InProgress(s, t, Concat(chunks[..|chunks| - 1])) && s.paths == s0.paths[t.tmp := TempInode(s0, t)]
    requires s' == After(s, Nth(t, chunks, |chunks| - 1, checksum))
    ensures Delivered(s0, s', t, Concat(chunks))
  {
    WholeLast(chunks);
    SendLast(s, t, Concat(chunks[..|chunks| - 1]), Nth(t, chunks, |chunks| - 1, checksum));
  }

  lemma LandsWithin(states: seq<State>, t: Target, chunks: seq<Bytes>, checksum: Option<Bytes -> bool>)
    requires Sent(states, t, chunks, checksum) && t.id !in states[0].table && t.dest != t.tmp &&
             Safety.Injective(states[0].paths)
    requires chunks != [] && (checksum.Some? ==> checksum.value(Concat(chunks)))
    requires (t.overwrite || t.dest !in states[0].paths) && Within(chunks)
    ensures Delivered(states[0], states[|chunks|], t, Concat(chunks))
  {
    var n := |chunks| - 1;
    var r := Nth(t, chunks, n, checksum);
    if n == 0 {
      WholeLast(chunks);
      FirstChunk(states[0], r);
      BegunIs(states[0], r);
      LastSent(states[0], Begun(states[0], r), states[1], t, chunks, checksum);
    } else {
      SentPrefix(states, t, chunks, checksum, n);
      LastSent(states[0], states[n], states[n + 1], t, chunks, checksum);
    }
  }

  // ---------------------------------------------------------------- over the limits

  /** Nothing was committed, and no directory entry but the temporary one differs. */
  ghost predicate Uncommitted(s: State, s': State, tmp: string)
  {
    && s'.committed == s.committed
    && (forall p :: p != tmp ==>
          (p in s'.paths <==> p in s.paths) && (p in s'.paths && p in s.paths ==> s'.paths[p] == s.paths[p]))
  }

  /** The upload's session, if there is one, is behind offset off, and so is a new one. */
  predicate Lagging(s: State, t: Target, off: nat)
  {
    && Sane(s) && Idle(s)
    && if t.id in s.table then
         && s.table[t.id] < |s.sessions| && s.sessions[s.table[t.id]].target == t
         && s.sessions[s.table[t.id]].open && s.sessions[s.table[t.id]].written < off
       else 0 < off
  }

  lemma MismatchIs(s: State, t: Target, off: nat, r: Request)
    requires Lagging(s, t, off) && r.target == t && r.offset == off && Admissible(r)
    ensures var k := SessionOf(s, t.id); After(s, r) == ApplyDrop(Abort(Begun(s, r), k), k)
  {
    HandledIs(s, r, Fine(r.data));
    LaggingBegun(s, t, off, r);
  }

  lemma LaggingBegun(s: State, t: Target, off: nat, r: Request)
    requires Lagging(s, t, off) && r.target == t && r.offset == off
    ensures var k, b := SessionOf(s, t.id), Begun(s, r);
      k < |b.sessions| && b.sessions[k].open && b.sessions[k].written != r.offset
  {
  }

  lemma MismatchDrops(s: State, t: Target, off: nat, r: Request)
    requires Lagging(s, t, off) && r.target == t
    ensures var k, b := SessionOf(s, t.id), Begun(s, r);
      var s' := ApplyDrop(Abort(b, k), k);
      t.id !in s'.table && Uncommitted(s, s', t.tmp)
  {
  }

  lemma LagStep(s: State, t: Target, off: nat, r: Request, off': nat)
    requires Lagging(s, t, off) && r.target == t && r.offset == off <= off'
    ensures Lagging(After(s, r), t, off') && Uncommitted(s, After(s, r), t.tmp)
  {
    if Admissible(r) {
      MismatchIs(s, t, off, r);
      MismatchDrops(s, t, off, r);
    }
  }

  /** From the first chunk that is too large on, nothing of the upload is committed. */
  lemma {:induction false} SentBehind(states: seq<State>, t: Target, chunks: seq<Bytes>,
                                      checksum: Option<Bytes -> bool>, j: nat, i: nat)
    requires Sent(states, t, chunks, checksum) && t.id !in states[0].table && |Concat(chunks)| <= MAX_TOTAL
    requires j < i <= |chunks| && |chunks[j]| > MAX_CHUNK && forall k :: 0 <= k < j ==> |chunks[k]| <= MAX_CHUNK
    ensures Lagging(states[i], t, |Concat(chunks[..i])|) && Uncommitted(states[0], states[i], t.tmp)
    decreases i
  {
    ConcatNext(chunks, i - 1);
    if i == j + 1 {
      TooLarge(states, t, chunks, checksum, j);
    } else {
      SentBehind(states, t, chunks, checksum, j, i - 1);
      LagStep(states[i - 1], t, |Concat(chunks[..i - 1])|, Nth(t, chunks, i - 1, checksum), |Concat(chunks[..i])|);
    }
  }

  lemma TooLarge(states: seq<State>, t: Target, chunks: seq<Bytes>, checksum: Option<Bytes -> bool>, j: nat)
    requires Sent(states, t, chunks, checksum) && t.id !in states[0].table && |Concat(chunks)| <= MAX_TOTAL
    requires j < |chunks| && |chunks[j]| > MAX_CHUNK && forall k :: 0 <= k < j ==> |chunks[k]| <= MAX_CHUNK
    ensures Lagging(states[j + 1], t, |Concat(chunks[..j + 1])|) && Uncommitted(states[0], states[j + 1], t.tmp)
  {
    assert !Admissible(Nth(t, chunks, j, checksum));
    assert states[j + 1] == states[j];
    ConcatNext(chunks, j);
    if j > 0 {
      SentPrefix(states, t, chunks, checksum, j);
    }
  }

  lemma {:induction false} AllRefused(states: seq<State>, t: Target, chunks: seq<Bytes>,
                                      checksum: Option<Bytes -> bool>, i: nat)
    requires Sent(states, t, chunks, checksum) && |Concat(chunks)| > MAX_TOTAL && i <= |chunks|
    ensures states[i] == states[0]
  {
    if i > 0 {
      AllRefused(states, t, chunks, checksum, i - 1);
      assert !Admissible(Nth(t, chunks, i - 1, checksum));
    }
  }

  lemma RefusedBeyond(states: seq<State>, t: Target, chunks: seq<Bytes>, checksum: Option<Bytes -> bool>)
    requires Sent(states, t, chunks, checksum) && t.id !in states[0].table && !Within(chunks)
    ensures Uncommitted(states[0], states[|chunks|], t.tmp)
  {
    if |Concat(chunks)| > MAX_TOTAL {
      AllRefused(states, t, chunks, checksum, |chunks|);
    } else {
      var j := FirstLarge(chunks);
      SentBehind(states, t, chunks, checksum, j, |chunks|);
    }
  }

  lemma FirstLarge(chunks: seq<Bytes>) returns (j: nat)
    requires exists i :: 0 <= i < |chunks| && |chunks[i]| > MAX_CHUNK
    ensures j < |chunks| && |chunks[j]| > MAX_CHUNK && forall k :: 0 <= k < j ==> |chunks[k]| <= MAX_CHUNK
  {
    j := 0;
    while |chunks[j]| <= MAX_CHUNK
      invariant j < |chunks| && forall k :: 0 <= k < j ==> |chunks[k]| <= MAX_CHUNK
      decreases |chunks| - j
    {
      j := j + 1;
    }
  }

  /** A fresh upload cut into any chunks and sent in order puts exactly its bytes at the
      destination, as a new file, if and only if its chunks and its total are within the
      limits. Beyond them nothing is committed and no other directory entry changes. */
  lemma UploadLandsExactly(states: seq<State>, t: Target, chunks: seq<Bytes>, checksum: Option<Bytes -> bool>)
    requires Sent(states, t, chunks, checksum) && t.id !in states[0].table && t.dest != t.tmp
    requires Safety.Injective(states[0].paths) && (t.overwrite || t.dest !in states[0].paths)
    requires chunks != [] && (checksum.Some? ==> checksum.value(Concat(chunks)))
    ensures Delivered(states[0], states[|chunks|], t, Concat(chunks)) <==> Within(chunks)
    ensures !Within(chunks) ==> Uncommitted(states[0], states[|chunks|], t.tmp)
  {
    if Within(chunks) {
      LandsWithin(states, t, chunks, checksum);
    } else {
      RefusedBeyond(states, t, chunks, checksum);
    }
  }
}
