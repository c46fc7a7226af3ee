/** Terminal output across dropped streams (common/agent/terminal.go): the pump numbers each
    chunk, records it in a byte-bounded ring and emits it; Attach replays the ring behind the
    sequence number the server already holds. */
module TerminalReplay {
  import opened Text

  const READ_CHUNK := 32 * 1024      // termReadChunk
  const REPLAY_LIMIT := 256 * 1024   // termReplayLimit

  datatype Entry = Entry(no: nat, data: Bytes)

  function SizeOf(es: seq<Entry>): nat
  {
    if es == [] then 0 else |es[0].data| + SizeOf(es[1..])
  }

  /** Eviction: drop from the front until the rest fits. */
  function Fit(es: seq<Entry>, limit: nat): seq<Entry>
  {
    if SizeOf(es) > limit then Fit(es[1..], limit) else es
  }

  /** The entries strictly after a sequence number. */
  function After(es: seq<Entry>, no: nat): seq<Entry>
  {
    if es == [] then [] else (if es[0].no > no then [es[0]] else []) + After(es[1..], no)
  }

  /** replay's verdict; the increment is a uint64 increment. */
  function Truncated(es: seq<Entry>, afterSeq: nat): bool
  {
    es != [] && Wrapped(afterSeq + 1) < es[0].no
  }

  // ---------------------------------------------------------------- the ring object

  class TerminalBuffer {
    var entries: seq<Entry>
    var limit: nat
    var size: nat

    ghost predicate Valid()
      reads this
    {
      size == SizeOf(entries)
    }

    constructor (limit: nat)
      ensures Valid() && entries == [] && this.limit == limit
    {
      entries, this.limit, size := [], limit, 0;
    }

    method Append(no: nat, data: Bytes)
      requires Valid()
      modifies this
      ensures Valid() && limit == old(limit)
      ensures entries == Fit(old(entries) + [Entry(no, data)], limit)
      ensures size <= limit
    {
      SizeAppend(entries, [Entry(no, data)]);
      entries := entries + [Entry(no, data)];
      size := size + |data|;
      while size > limit && |entries| > 0
        invariant Valid() && limit == old(limit)
        invariant Fit(entries, limit) == Fit(old(entries) + [Entry(no, data)], limit)
        decreases |entries|
      {
        size := size - |entries[0].data|;
        entries := entries[1..];
      }
    }

    method Replay(afterSeq: nat) returns (es: seq<Entry>, truncated: bool)
      requires Valid()
      ensures es == After(entries, afterSeq) && truncated == Truncated(entries, afterSeq)
    {
      es, truncated := [], false;
      if |entries| == 0 {
        return;
      }
      truncated := Wrapped(afterSeq + 1) < entries[0].no;
      var i := 0;
      while i < |entries|
        invariant 0 <= i <= |entries|
        invariant es + After(entries[i..], afterSeq) == After(entries, afterSeq)
      {
        assert entries[i..][1..] == entries[i + 1..];
        if entries[i].no > afterSeq {
          es := es + [entries[i]];
        }
        i := i + 1;
      }
    }
  }

  // ---------------------------------------------------------------- what the ring retains

  lemma {:induction false} SizeAppend(a: seq<Entry>, b: seq<Entry>)
    ensures SizeOf(a + b) == SizeOf(a) + SizeOf(b)
  {
    if a == [] {
      assert a + b == b;
    } else {
      SizeAppend(a[1..], b);
      assert (a + b)[1..] == a[1..] + b;
    }
  }

  /** Fit keeps the longest suffix that fits: it fits, and every longer suffix does not. */
  lemma {:induction false} FitIsLongest(es: seq<Entry>, limit: nat)
    ensures var r := Fit(es, limit); |r| <= |es| && r == es[|es| - |r|..] && SizeOf(r) <= limit
    ensures forall k :: 0 <= k < |es| - |Fit(es, limit)| ==> SizeOf(es[k..]) > limit
    decreases |es|
  {
    if SizeOf(es) > limit {
      FitIsLongest(es[1..], limit);
      forall k | 0 <= k < |es| - |Fit(es, limit)| ensures SizeOf(es[k..]) > limit {
        if k == 0 {
          assert es[0..] == es;
        } else {
          assert es[k..] == es[1..][k - 1..];
        }
      }
    }
  }

  /** Evicting as chunks arrive retains what evicting once from the whole history would. */
  lemma {:induction false} FitIncremental(es: seq<Entry>, e: Entry, limit: nat)
    ensures Fit(Fit(es, limit) + [e], limit) == Fit(es + [e], limit)
    decreases |es|
  {
    if SizeOf(es) > limit {
      SizeAppend(es, [e]);
      assert (es + [e])[1..] == es[1..] + [e];
      FitIncremental(es[1..], e, limit);
    }
  }

  /** Chunks numbered from 1. */
  function Numbered(history: seq<Bytes>): (es: seq<Entry>)
    ensures |es| == |history|
    ensures forall i :: 0 <= i < |es| ==> es[i] == Entry(i + 1, history[i])
  {
    seq(|history|, i requires 0 <= i < |history| => Entry(i + 1, history[i]))
  }

  function Ring(history: seq<Bytes>, limit: nat): seq<Entry>
  {
    Fit(Numbered(history), limit)
  }

  /** The chunks from index k on do not fit. */
  predicate Overflows(history: seq<Bytes>, k: nat, limit: nat)
    requires k <= |history|
  {
    SizeOf(Numbered(history)[k..]) > limit
  }

  lemma RingAppend(history: seq<Bytes>, data: Bytes, limit: nat)
    ensures Fit(Ring(history, limit) + [Entry(|history| + 1, data)], limit) == Ring(history + [data], limit)
  {
    assert Numbered(history + [data]) == Numbered(history) + [Entry(|history| + 1, data)];
    FitIncremental(Numbered(history), Entry(|history| + 1, data), limit);
  }

  /** A ring whose newest chunk fits by itself still holds that chunk. */
  lemma RingKeepsNewest(history: seq<Bytes>, limit: nat)
    requires history != [] && |history[|history| - 1]| <= limit
    ensures Ring(history, limit) != []
  {
    var es := Numbered(history);
    FitIsLongest(es, limit);
    assert es[|es| - 1..] == [es[|es| - 1]];
    assert SizeOf(es[|es| - 1..]) == |history[|history| - 1]| + SizeOf([]);
  }

  lemma {:induction false} AfterConsecutive(es: seq<Entry>, first: nat, no: nat)
    requires forall i :: 0 <= i < |es| ==> es[i].no == first + i
    ensures After(es, no) == if no < first then es else if no - first + 1 <= |es| then es[no - first + 1..] else []
    decreases |es|
  {
    if es != [] {
      AfterConsecutive(es[1..], first + 1, no);
      if no < first {
        assert es == [es[0]] + es[1..];
      } else if no - first + 1 <= |es| {
        assert es[no - first + 1..] == es[1..][no - first..];
      }
    }
  }

  /** Replay of a suffix of consecutively numbered entries. */
  lemma ReplaySuffix(all: seq<Entry>, k: nat, from: nat)
    requires forall i :: 0 <= i < |all| ==> all[i].no == i + 1
    requires k <= |all| && (all != [] ==> k < |all|) && from <= |all| && |all| + 1 < WRAP
    ensures var es := After(all[k..], from);
      && |es| == (if from < k then |all| - k else |all| - from) && es == all[|all| - |es|..]
      && (Truncated(all[k..], from) <==> from < k)
  {
    var ring := all[k..];
    AfterConsecutive(ring, k + 1, from);
    if from > k {
      assert ring[from - k..] == all[from..];
    }
  }

  /** What a replay behind `from` yields, for a server that holds 1..from: the missing chunks
      in order up to the newest, or a first frame flagged truncated exactly when chunks in
      between are gone. */
  lemma ReplayExact(history: seq<Bytes>, limit: nat, from: nat)
    requires from <= |history| && |history| + 1 < WRAP
    requires history != [] ==> |history[|history| - 1]| <= limit
    ensures var ring := Ring(history, limit); var es := After(ring, from);
      && |es| <= |history|
      && es == Numbered(history)[|history| - |es|..]
      && (Truncated(ring, from) <==> |es| < |history| - from)
      && (Truncated(ring, from) ==> es != [])
  {
    var all, ring := Numbered(history), Ring(history, limit);
    FitIsLongest(all, limit);
    if history != [] {
      RingKeepsNewest(history, limit);
    }
    var k := |all| - |ring|;
    assert ring == all[k..];
    ReplaySuffix(all, k, from);
  }

  // ---------------------------------------------------------------- runs

  /** The pump goroutine: between a chunk's number, its buffering and its emit. */
  datatype Pump = Reading | Numbering | Emitting

  /** An Attach in progress. upTo: chunks in the ring when it was read. had: the server held
      all of 1..from at that time. lossless: every replay frame so far got through. warned:
      a frame with replayTruncated got through. */
  datatype Attach = Attach(from: nat, upTo: nat, todo: seq<Entry>, flag: bool, had: bool, lossless: bool, warned: bool)

  datatype State = State(
    limit: nat,
    history: seq<Bytes>,
    pump: Pump,
    entries: seq<Entry>,
    held: set<nat>,         // sequence numbers the server has received
    attach: Option<Attach>)

  datatype Step =
    | Output(data: Bytes)          // PTY read and seq.Add
    | Record                       // buffer.append
    | EmitLive(ok: bool)
    | BeginAttach(from: nat)       // buffer.replay
    | EmitReplay(ok: bool)
    | EndAttach

  function Recorded(s: State): nat
    requires s.pump.Numbering? ==> s.history != []
  {
    if s.pump.Numbering? then |s.history| - 1 else |s.history|
  }

  predicate Sane(s: State)
  {
    s.pump != Reading ==> s.history != []
  }

  predicate Enabled(s: State, step: Step)
    requires Sane(s)
  {
    match step
    case Output(data) => s.pump.Reading? && data != [] && |s.history| + 2 < WRAP
    case Record => s.pump.Numbering?
    case EmitLive(_) => s.pump.Emitting?
    case BeginAttach(from) => s.attach.None? && from < WRAP
    case EmitReplay(_) => s.attach.Some? && s.attach.value.todo != []
    case EndAttach => s.attach.Some? && s.attach.value.todo == []
  }

  function Apply(s: State, step: Step): (s': State)
    requires Sane(s) && Enabled(s, step)
    ensures Sane(s')
  {
    match step
    case Output(data) => s.(history := s.history + [data], pump := Numbering)
    case Record =>
      var n := |s.history|;
      s.(entries := Fit(s.entries + [Entry(n, s.history[n - 1])], s.limit), pump := Emitting)
    case EmitLive(ok) => s.(held := if ok then s.held + {|s.history|} else s.held, pump := Reading)
    case BeginAttach(from) =>
      s.(attach := Some(Attach(from, Recorded(s), After(s.entries, from), Truncated(s.entries, from),
                               from <= Recorded(s) && (forall i :: 1 <= i <= from ==> i in s.held), true, false)))
    case EmitReplay(ok) =>
      var a := s.attach.value;
      s.(held := if ok then s.held + {a.todo[0].no} else s.held,
         attach := Some(a.(todo := a.todo[1..], flag := false, lossless := a.lossless && ok,
                           warned := a.warned || (ok && a.flag))))
    case EndAttach => s.(attach := None)
  }

  function Boot(limit: nat): State
  {
    State(limit, [], Reading, [], {}, None)
  }

  predicate ValidRun(s: State, steps: seq<Step>)
    requires Sane(s)
    decreases |steps|
  {
    steps == [] || (Enabled(s, steps[0]) && ValidRun(Apply(s, steps[0]), steps[1..]))
  }

  function Exec(s: State, steps: seq<Step>): (s': State)
    requires Sane(s) && ValidRun(s, steps)
    ensures Sane(s')
    decreases |steps|
  {
    if steps == [] then s else Exec(Apply(s, steps[0]), steps[1..])
  }

  ghost predicate ChunksWithin(steps: seq<Step>, maxChunk: nat)
  {
    forall i :: 0 <= i < |steps| && steps[i].Output? ==> |steps[i].data| <= maxChunk
  }

  ghost predicate Reachable(s: State, limit: nat, maxChunk: nat)
  {
    exists steps :: ValidRun(Boot(limit), steps) && ChunksWithin(steps, maxChunk) && Exec(Boot(limit), steps) == s
  }

  /** The ring is the longest recorded suffix that fits. */
  ghost predicate RingInv(s: State, maxChunk: nat)
  {
    && Sane(s) && |s.history| + 1 < WRAP
    && s.entries == Ring(s.history[..Recorded(s)], s.limit)
    && (forall i :: 0 <= i < |s.history| ==> |s.history[i]| <= maxChunk)
  }

  lemma RingInvStep(s: State, step: Step, maxChunk: nat)
    requires Sane(s) && RingInv(s, maxChunk) && Enabled(s, step)
    requires step.Output? ==> |step.data| <= maxChunk
    ensures RingInv(Apply(s, step), maxChunk)
  {
    match step
    case Output(data) => assert (s.history + [data])[..|s.history|] == s.history[..|s.history|];
    case Record =>
      var n := |s.history|;
      RingAppend(s.history[..n - 1], s.history[n - 1], s.limit);
      assert s.history[..n - 1] + [s.history[n - 1]] == s.history[..n];
    case _ =>
  }

  /** What an Attach promises: if nothing it sent was lost, the server holds every chunk
      recorded when it began, or was told that output is missing. */
  predicate Honest(s: State)
  {
    s.attach.Some? && s.attach.value.todo == [] && s.attach.value.had && s.attach.value.lossless
    ==> s.attach.value.warned || forall i :: 1 <= i <= s.attach.value.upTo ==> i in s.held
  }

  /** The same while replay frames are still to come. */
  ghost predicate AttachInv(s: State)
  {
    s.attach.Some? && s.attach.value.had && s.attach.value.lossless ==>
      var a := s.attach.value;
      || a.warned
      || (a.flag && a.todo != [])
      || (forall i :: 1 <= i <= a.upTo ==> i in s.held || exists k :: 0 <= k < |a.todo| && a.todo[k].no == i)
  }

  lemma AttachInvStep(s: State, step: Step, maxChunk: nat)
    requires Sane(s) && RingInv(s, maxChunk) && AttachInv(s) && Enabled(s, step) && maxChunk <= s.limit
    ensures AttachInv(Apply(s, step))
  {
    match step
    case BeginAttach(from) =>
      var a := Apply(s, step).attach.value;
      if a.had && !a.flag {
        var recorded := s.history[..Recorded(s)];
        ReplayExact(recorded, s.limit, from);
        forall i | 1 <= i <= a.upTo
          ensures i in s.held || exists k :: 0 <= k < |a.todo| && a.todo[k].no == i
        {
          if i > from {
            var k := i - 1 - (|recorded| - |a.todo|);
            assert a.todo[k] == Numbered(recorded)[i - 1];
          }
        }
      } else if a.had {
        ReplayExact(s.history[..Recorded(s)], s.limit, from);
      }
    case EmitReplay(ok) => EmitReplayKeeps(s, ok);
    case _ =>
  }

  lemma EmitReplayKeeps(s: State, ok: bool)
    requires Sane(s) && AttachInv(s) && Enabled(s, EmitReplay(ok))
    ensures AttachInv(Apply(s, EmitReplay(ok)))
  {
    var a, s' := s.attach.value, Apply(s, EmitReplay(ok));
    var a' := s'.attach.value;
    if a'.had && a'.lossless && !a'.warned {
      forall i | 1 <= i <= a'.upTo
        ensures i in s'.held || exists k :: 0 <= k < |a'.todo| && a'.todo[k].no == i
      {
        if i !in s'.held {
          var k :| 0 <= k < |a.todo| && a.todo[k].no == i;
          assert a'.todo[k - 1].no == i;
        }
      }
    }
  }

  lemma {:induction false} InvRun(s: State, steps: seq<Step>, maxChunk: nat)
    requires Sane(s) && ValidRun(s, steps) && ChunksWithin(steps, maxChunk)
    requires RingInv(s, maxChunk) && (maxChunk <= s.limit ==> AttachInv(s))
    ensures var s' := Exec(s, steps);
      s'.limit == s.limit && RingInv(s', maxChunk) && (maxChunk <= s.limit ==> AttachInv(s'))
    decreases |steps|
  {
    if steps != [] {
      RingInvStep(s, steps[0], maxChunk);
      if maxChunk <= s.limit {
        AttachInvStep(s, steps[0], maxChunk);
      }
      InvRun(Apply(s, steps[0]), steps[1..], maxChunk);
    }
  }

  /** In every run the ring holds the newest recorded chunks, numbered consecutively up to
      the latest, as many as fit in the limit and no fewer. */
  lemma RingRetainsLongestSuffix(s: State, limit: nat, maxChunk: nat)
    requires Reachable(s, limit, maxChunk)
    ensures Sane(s) && SizeOf(s.entries) <= limit && |s.entries| <= Recorded(s)
    ensures forall i :: 0 <= i < |s.entries| ==>
      s.entries[i] == Entry(Recorded(s) - |s.entries| + i + 1, s.history[Recorded(s) - |s.entries| + i])
    ensures forall k :: 0 <= k < Recorded(s) - |s.entries| ==> Overflows(s.history[..Recorded(s)], k, limit)
  {
    RingReached(s, limit, maxChunk);
    RingInvFacts(s, maxChunk);
  }

  lemma RingInvFacts(s: State, maxChunk: nat)
    requires RingInv(s, maxChunk)
    ensures SizeOf(s.entries) <= s.limit && |s.entries| <= Recorded(s)
    ensures forall i :: 0 <= i < |s.entries| ==>
      s.entries[i] == Entry(Recorded(s) - |s.entries| + i + 1, s.history[Recorded(s) - |s.entries| + i])
    ensures forall k :: 0 <= k < Recorded(s) - |s.entries| ==> Overflows(s.history[..Recorded(s)], k, s.limit)
  {
    RingFacts(s.history[..Recorded(s)], s.limit);
  }

  /** A ring is the newest chunks of its history, numbered consecutively, as many as fit. */
  lemma RingFacts(history: seq<Bytes>, limit: nat)
    ensures var r := Ring(history, limit);
      && |r| <= |history| && SizeOf(r) <= limit
      && (forall i :: 0 <= i < |r| ==> r[i] == Entry(|history| - |r| + i + 1, history[|history| - |r| + i]))
      && (forall k :: 0 <= k < |history| - |r| ==> Overflows(history, k, limit))
  {
    FitIsLongest(Numbered(history), limit);
    forall k | 0 <= k < |history| - |Ring(history, limit)|
      ensures Overflows(history, k, limit)
    {
    }
  }

  lemma RingReached(s: State, limit: nat, maxChunk: nat)
    requires Reachable(s, limit, maxChunk)
    ensures s.limit == limit && RingInv(s, maxChunk)
  {
    var steps :| ValidRun(Boot(limit), steps) && ChunksWithin(steps, maxChunk) && Exec(Boot(limit), steps) == s;
    assert Numbered([]) == [];
    InvRun(Boot(limit), steps, maxChunk);
  }

  /** Replay is honest in every run if and only if a single read always fits the ring. */
  lemma ReplayHonestExactly(limit: nat, maxChunk: nat)
    requires maxChunk >= 1
    ensures (forall s :: Reachable(s, limit, maxChunk) ==> Honest(s)) <==> maxChunk <= limit
  {
    if maxChunk <= limit {
      forall s | Reachable(s, limit, maxChunk) ensures Honest(s) {
        var steps :| ValidRun(Boot(limit), steps) && ChunksWithin(steps, maxChunk) && Exec(Boot(limit), steps) == s;
        assert Numbered([]) == [];
        InvRun(Boot(limit), steps, maxChunk);
      }
    } else {
      var s := OversizedChunkVanishes(limit, maxChunk);
    }
  }

  lemma {:induction false} ExecAppend(s: State, xs: seq<Step>, x: Step)
    requires Sane(s) && ValidRun(s, xs) && Enabled(Exec(s, xs), x)
    ensures ValidRun(s, xs + [x]) && Exec(s, xs + [x]) == Apply(Exec(s, xs), x)
    decreases |xs|
  {
    if xs == [] {
      assert (xs + [x])[1..] == [];
      assert Exec(s, xs + [x]) == Exec(Apply(s, x), []);
    } else {
      assert (xs + [x])[0] == xs[0] && (xs + [x])[1..] == xs[1..] + [x];
      ExecAppend(Apply(s, xs[0]), xs[1..], x);
    }
  }

  lemma ReachNext(s: State, step: Step, limit: nat, maxChunk: nat) returns (s': State)
    requires Sane(s) && Reachable(s, limit, maxChunk) && Enabled(s, step)
    requires step.Output? ==> |step.data| <= maxChunk
    ensures s' == Apply(s, step) && Reachable(s', limit, maxChunk)
  {
    var steps :| ValidRun(Boot(limit), steps) && ChunksWithin(steps, maxChunk) && Exec(Boot(limit), steps) == s;
    ExecAppend(Boot(limit), steps, step);
    assert ChunksWithin(steps + [step], maxChunk);
    s' := Apply(s, step);
  }

  /** A chunk larger than the ring evicts itself, and the next replay reports no loss. */
  lemma OversizedChunkVanishes(limit: nat, maxChunk: nat) returns (s: State)
    requires maxChunk > limit
    ensures Reachable(s, limit, maxChunk) && !Honest(s)
  {
    var data: Bytes := seq(maxChunk, i => 0);
    s := Boot(limit);
    assert ValidRun(s, []) && ChunksWithin([], maxChunk) && Exec(s, []) == s;
    s := ReachNext(s, Output(data), limit, maxChunk);
    s := ReachNext(s, Record, limit, maxChunk);
    assert s.entries == [] by {
      var e := Entry(1, data);
      assert [] + [e] == [e] && [e][1..] == [];
      assert SizeOf([e]) == |data| + SizeOf([]);
      assert Fit([e], limit) == Fit([], limit) == [];
    }
    s := ReachNext(s, EmitLive(false), limit, maxChunk);
    s := ReachNext(s, BeginAttach(0), limit, maxChunk);
    assert 1 !in s.held && 1 <= s.attach.value.upTo;
  }

  /** The shipped constants satisfy the condition. */
  lemma ShippedReplayHonest(s: State)
    requires Reachable(s, REPLAY_LIMIT, READ_CHUNK)
    ensures Honest(s)
  {
    ReplayHonestExactly(REPLAY_LIMIT, READ_CHUNK);
  }
}
