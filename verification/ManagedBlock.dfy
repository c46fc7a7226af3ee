/** The managed block in codex's config.toml (execution/editorconfig.go): replacing,
    extracting and clearing the text between two marker lines, and its survival when the
    rest of the file is rewritten. */
module ManagedBlock {
  import opened Text

  const START := "# agent-compose managed mcp start"
  const END := "# agent-compose managed mcp end"

  // ---------------------------------------------------------------- first occurrences

  predicate Occurs(s: string, sub: string, i: int)
  {
    0 <= i && i + |sub| <= |s| && s[i..i + |sub|] == sub
  }

  function IndexFrom(s: string, sub: string, i: nat): (r: int)
    requires i <= |s|
    ensures r == -1 || (i <= r && Occurs(s, sub, r))
    ensures forall p :: i <= p && (r == -1 || p < r) ==> !Occurs(s, sub, p)
    decreases |s| - i
  {
    if i + |sub| > |s| then -1
    else if s[i..i + |sub|] == sub then i
    else if i == |s| then -1
    else IndexFrom(s, sub, i + 1)
  }

  /** strings.Index: the first occurrence, or -1. */
  function Index(s: string, sub: string): (r: int)
    ensures r == -1 || (0 <= r && Occurs(s, sub, r))
    ensures forall p :: 0 <= p && (r == -1 || p < r) ==> !Occurs(s, sub, p)
  {
    IndexFrom(s, sub, 0)
  }

  lemma IndexIs(s: string, sub: string, i: nat)
    requires Occurs(s, sub, i) && forall p :: 0 <= p < i ==> !Occurs(s, sub, p)
    ensures Index(s, sub) == i
  {
  }

  // ---------------------------------------------------------------- the text operations

  function Replace(existing: string, block: string): string
  {
    var s, e := Index(existing, START), Index(existing, END);
    if s >= 0 && e > s then
      var before, after := existing[..s], existing[e + |END|..];
      if block == "" then TrimRight(before, IsNewline) + TrimLeft(after, IsNewline)
      else before + block + after
    else if block == "" then existing
    else if TrimSpace(existing) == "" then block
    else TrimRight(existing, IsNewline) + "\n\n" + block + "\n"
  }

  function Extract(existing: string): string
  {
    var s, e := Index(existing, START), Index(existing, END);
    if s >= 0 && e > s then existing[s..e + |END|] else ""
  }

  /** buildCodexManagedMCPBlock, for the rendered server tables. */
  function BuildBlock(tables: string): string
  {
    START + "\n" + tables + END
  }

  /** writeCodexRuntimeConfig: a new head, then the block found on disk. */
  function RewriteHead(existing: string, head: string): string
  {
    var managed := Extract(existing);
    if managed != "" then head + "\n" + managed + "\n" else head
  }

  // ---------------------------------------------------------------- markers do not straddle

  /** '#' opens a marker and occurs nowhere else in it; a marker is one line. */
  predicate Marker(m: string)
  {
    m != [] && m[0] == '#' && forall i :: 0 < i < |m| ==> m[i] != '#' && m[i] != '\n'
  }

  lemma MarkersAreMarkers()
    ensures Marker(START) && Marker(END) && |START| == 33 && |END| == 31
    ensures START[28] != END[28]
  {
  }

  /** Cutting a text in front of a '#' or a newline cuts no marker in two. */
  lemma OccursConcat(a: string, b: string, m: string, p: nat)
    requires Marker(m) && (b == [] || b[0] == '#' || b[0] == '\n')
    ensures Occurs(a + b, m, p) <==> Occurs(a, m, p) || (p >= |a| && Occurs(b, m, p - |a|))
  {
    if Occurs(a, m, p) {
      assert (a + b)[p..p + |m|] == a[p..p + |m|];
    }
    if p >= |a| && p + |m| <= |a + b| {
      assert (a + b)[p..p + |m|] == b[p - |a|..p - |a| + |m|];
    }
    if p < |a| < p + |m| <= |a + b| {
      assert (a + b)[p..p + |m|][|a| - p] == b[0];
    }
  }

  lemma IndexConcat(a: string, b: string, m: string)
    requires Marker(m) && (b == [] || b[0] == '#' || b[0] == '\n')
    ensures Index(a + b, m) ==
      if Index(a, m) >= 0 then Index(a, m) else if Index(b, m) >= 0 then |a| + Index(b, m) else -1
  {
    forall p: nat ensures Occurs(a + b, m, p) <==> Occurs(a, m, p) || (p >= |a| && Occurs(b, m, p - |a|)) {
      OccursConcat(a, b, m, p);
    }
    var ia, ib, r := Index(a, m), Index(b, m), Index(a + b, m);
    if ia >= 0 {
      assert Occurs(a + b, m, ia);
    } else if ib >= 0 {
      assert Occurs(a + b, m, |a| + ib);
    }
  }

  /** What follows an occurrence does not move it. */
  lemma IndexPrefix(a: string, b: string, m: string)
    requires Index(a, m) >= 0
    ensures Index(a + b, m) == Index(a, m)
  {
    var i := Index(a, m);
    assert (a + b)[i..i + |m|] == a[i..i + |m|];
    forall p | 0 <= p < i ensures Occurs(a + b, m, p) <==> Occurs(a, m, p) {
      assert (a + b)[p..p + |m|] == a[p..p + |m|];
    }
    IndexIs(a + b, m, i);
  }

  lemma NoIndexInPrefix(s: string, m: string, n: nat)
    requires n <= |s| && m != [] && (Index(s, m) == -1 || n <= Index(s, m))
    ensures Index(s[..n], m) == -1
  {
    forall p | 0 <= p && p + |m| <= n ensures Occurs(s[..n], m, p) <==> Occurs(s, m, p) {
      assert s[p..p + |m|] == s[..n][p..p + |m|];
    }
  }

  lemma NoMarkerInNewlines(s: string, m: string)
    requires Marker(m) && forall i :: 0 <= i < |s| ==> s[i] == '\n'
    ensures Index(s, m) == -1
  {
    forall p | 0 <= p && p + |m| <= |s| ensures !Occurs(s, m, p) {
      assert s[p..p + |m|][0] == s[p];
    }
  }

  /** Trimming trailing newlines leaves every marker where it is. */
  lemma IndexTrimRight(x: string, m: string)
    requires Marker(m)
    ensures Index(TrimRight(x, IsNewline), m) == Index(x, m)
  {
    var t := TrimRight(x, IsNewline);
    var tail := x[|t|..];
    assert x == t + tail;
    IndexConcat(t, tail, m);
    NoMarkerInNewlines(tail, m);
  }

  // ---------------------------------------------------------------- well-placed blocks

  /** The file has no marker at all, or its first start marker precedes its first end marker. */
  predicate WellPlaced(x: string)
  {
    var s, e := Index(x, START), Index(x, END);
    (s == -1 && e == -1) || 0 <= s < e
  }

  /** A block runs from its start marker to its only end marker. */
  predicate WellFormed(b: string)
  {
    Index(b, START) == 0 && Index(b, END) == |b| - |END| && |b| > |END|
  }

  /** A built block is well-formed exactly when no end marker occurs in its tables. */
  lemma BuiltBlockWellFormed(tables: string)
    ensures WellFormed(BuildBlock(tables)) <==> Index(tables, END) == -1
  {
    MarkersAreMarkers();
    var b := BuildBlock(tables);
    var head := START + "\n";
    assert b == head + tables + END && b == START + ("\n" + tables + END);
    assert Occurs(START, START, 0);
    IndexIs(START, START, 0);
    IndexPrefix(START, "\n" + tables + END, START);
    // The tables start after a newline, so cut there and before the end marker.
    var lined := "\n" + tables;
    assert b == START + lined + END;
    IndexConcat(START + lined, END, END);
    IndexIs(END, END, 0);
    IndexConcat(START, lined, END);
    NoEndInStart();
    TableIndex(tables);
  }

  lemma NoEndInStart()
    ensures Index(START, END) == -1
  {
    MarkersAreMarkers();
    forall p | 0 <= p && p + |END| <= |START| ensures !Occurs(START, END, p) {
      assert START[p..p + |END|][0] == START[p];
      assert START[0..|END|][28] == START[28];
    }
  }

  lemma TableIndex(tables: string)
    ensures Index("\n" + tables, END) == if Index(tables, END) >= 0 then 1 + Index(tables, END) else -1
  {
    MarkersAreMarkers();
    var lined := "\n" + tables;
    forall p: nat ensures Occurs(lined, END, p) <==> p >= 1 && Occurs(tables, END, p - 1) {
      if p >= 1 && p + |END| <= |lined| {
        assert lined[p..p + |END|] == tables[p - 1..p - 1 + |END|];
      }
      if p == 0 && |END| <= |lined| {
        assert lined[0..|END|][0] == '\n';
      }
    }
    if Index(tables, END) >= 0 {
      assert Occurs(lined, END, 1 + Index(tables, END));
    }
  }

  // ---------------------------------------------------------------- replacing

  /** Writing a well-formed block b between texts that cannot hide or extend its markers. */
  lemma BlockFound(before: string, b: string, after: string)
    requires WellFormed(b) && Index(before, START) == -1 && Index(before, END) == -1
    ensures var r := before + b + after;
      && Index(r, START) == |before| && Index(r, END) == |before| + |b| - |END|
      && Extract(r) == b && r[..|before|] == before && r[|before| + |b|..] == after
  {
    MarkersAreMarkers();
    var r := before + b + after;
    BlockStartsWithHash(b);
    assert r == before + (b + after);
    IndexConcat(before, b + after, START);
    IndexConcat(before, b + after, END);
    IndexPrefix(b, after, START);
    IndexPrefix(b, after, END);
    assert r[|before|..|before| + |b|] == b;
  }

  /** The text in front of a present block has no marker. */
  lemma NoMarkerBefore(x: string)
    requires 0 <= Index(x, START) < Index(x, END)
    ensures var before := x[..Index(x, START)]; Index(before, START) == -1 && Index(before, END) == -1
  {
    MarkersAreMarkers();
    NoIndexInPrefix(x, START, Index(x, START));
    NoIndexInPrefix(x, END, Index(x, START));
  }

  /** How Replace splits the file it leaves behind: what stands before and after the block. */
  function Before(x: string): string
  {
    var s, e := Index(x, START), Index(x, END);
    if 0 <= s < e then x[..s]
    else if TrimSpace(x) == "" then "" else TrimRight(x, IsNewline) + "\n\n"
  }

  function Behind(x: string): string
  {
    var s, e := Index(x, START), Index(x, END);
    if 0 <= s < e then x[e + |END|..]
    else if TrimSpace(x) == "" then "" else "\n"
  }

  lemma ReplaceShape(x: string, b: string)
    requires b != ""
    ensures Replace(x, b) == Before(x) + b + Behind(x)
  {
  }

  lemma AppendedPrefix(x: string, m: string)
    requires Marker(m)
    ensures Index(TrimRight(x, IsNewline) + "\n\n", m) == Index(x, m)
  {
    IndexConcat(TrimRight(x, IsNewline), "\n\n", m);
    NoMarkerInNewlines("\n\n", m);
    IndexTrimRight(x, m);
  }

  lemma BeforeUnmarked(x: string)
    requires WellPlaced(x)
    ensures Index(Before(x), START) == -1 && Index(Before(x), END) == -1
  {
    MarkersAreMarkers();
    if 0 <= Index(x, START) < Index(x, END) {
      NoMarkerBefore(x);
    } else {
      AppendedPrefix(x, START);
      AppendedPrefix(x, END);
      NoMarkerInNewlines("", START);
      NoMarkerInNewlines("", END);
    }
  }

  lemma ReplaceThenExtract(x: string, b: string)
    requires WellPlaced(x) && WellFormed(b)
    ensures Extract(Replace(x, b)) == b
  {
    BeforeUnmarked(x);
    ReplaceShape(x, b);
    BlockFound(Before(x), b, Behind(x));
  }

  lemma ReplaceTwice(x: string, b1: string, b2: string)
    requires WellPlaced(x) && WellFormed(b1) && b2 != ""
    ensures Replace(Replace(x, b1), b2) == Replace(x, b2)
  {
    BeforeUnmarked(x);
    ReplaceShape(x, b1);
    ReplaceShape(x, b2);
    BlockFound(Before(x), b1, Behind(x));
  }

  /** Writing and clearing a block leave the text around it as it is; a clear also takes the
      newlines next to it. */
  lemma ReplaceAround(p: string, b1: string, q: string, b2: string)
    requires Index(p, START) == -1 && Index(p, END) == -1 && WellFormed(b1)
    ensures b2 != "" ==> Replace(p + b1 + q, b2) == p + b2 + q
    ensures Replace(p + b1 + q, "") == TrimRight(p, IsNewline) + TrimLeft(q, IsNewline)
    ensures Extract(p + b1 + q) == b1
  {
    BlockFound(p, b1, q);
  }

  /** On a file without a block: one is put behind the text, and clearing changes nothing. */
  lemma ReplaceUnmarked(x: string, b: string)
    requires Index(x, START) == -1 && Index(x, END) == -1
    ensures Replace(x, "") == x && Extract(x) == ""
    ensures b != "" ==> Replace(x, b) == if TrimSpace(x) == "" then b else TrimRight(x, IsNewline) + "\n\n" + b + "\n"
  {
  }

  /** A new head replaces everything but the block. */
  lemma RewriteAround(p: string, b: string, q: string, head: string)
    requires Index(p, START) == -1 && Index(p, END) == -1 && WellFormed(b)
    ensures RewriteHead(p + b + q, head) == head + "\n" + b + "\n"
    ensures RewriteHead(p, head) == head
  {
    ReplaceAround(p, b, q, b);
    ReplaceUnmarked(p, b);
  }

  // ---------------------------------------------------------------- and nowhere else

  lemma MarkedIsNotBlank(x: string, m: string)
    requires Marker(m) && Index(x, m) >= 0
    ensures TrimSpace(x) != ""
  {
    var i := Index(x, m);
    assert x[i..i + |m|][0] == x[i] == '#';
    var l := TrimLeft(x, IsSpace);
    assert i >= |x| - |l|;
    assert l[i - (|x| - |l|)] == '#';
  }

  /** On an ill-placed file the block is appended behind a stray marker. */
  lemma IllPlacedReplace(x: string, b: string)
    requires !WellPlaced(x) && WellFormed(b)
    ensures var t := TrimRight(x, IsNewline); var r := Replace(x, b); var s, e := Index(x, START), Index(x, END);
      && r == t + "\n\n" + b + "\n"
      && Index(r, START) == (if s >= 0 then s else |t| + 2)
      && Index(r, END) == (if e >= 0 then e else |t| + 2 + |b| - |END|)
      && s < |t| && e < |t|
  {
    MarkersAreMarkers();
    if Index(x, START) >= 0 {
      MarkedIsNotBlank(x, START);
    } else {
      MarkedIsNotBlank(x, END);
    }
    BlockStartsWithHash(b);
    AppendedIndex(x, b, START);
    AppendedIndex(x, b, END);
    IndexTrimRight(x, START);
    IndexTrimRight(x, END);
  }

  lemma BlockStartsWithHash(b: string)
    requires WellFormed(b)
    ensures b[0] == '#'
  {
    MarkersAreMarkers();
    assert b[0..|START|][0] == b[0];
  }

  /** Markers of a file with a block appended: the file's own first, else the block's. */
  lemma AppendedIndex(x: string, b: string, m: string)
    requires Marker(m) && b != [] && b[0] == '#' && Index(b, m) >= 0
    ensures var t := TrimRight(x, IsNewline);
      Index(t + "\n\n" + b + "\n", m) == if Index(x, m) >= 0 then Index(x, m) else |t| + 2 + Index(b, m)
  {
    var front := TrimRight(x, IsNewline) + "\n\n";
    AppendedPrefix(x, m);
    assert front + b + "\n" == front + (b + "\n");
    IndexConcat(front, b + "\n", m);
    IndexPrefix(b, "\n", m);
  }

  /** A block written can be read back if and only if the file was well placed. */
  lemma ExtractAfterReplaceExactly(x: string, b: string)
    requires WellFormed(b)
    ensures Extract(Replace(x, b)) == b <==> WellPlaced(x)
  {
    if WellPlaced(x) {
      ReplaceThenExtract(x, b);
    } else {
      MarkersAreMarkers();
      IllPlacedReplace(x, b);
    }
  }

  /** A second write replaces the first if and only if the file was well placed. */
  lemma ReplaceTwiceExactly(x: string, b1: string, b2: string)
    requires WellFormed(b1) && WellFormed(b2)
    ensures Replace(Replace(x, b1), b2) == Replace(x, b2) <==> WellPlaced(x)
  {
    if WellPlaced(x) {
      ReplaceTwice(x, b1, b2);
    } else {
      IllPlacedTwice(x, b1, b2);
    }
  }

  lemma IllPlacedTwice(x: string, b1: string, b2: string)
    requires !WellPlaced(x) && WellFormed(b1) && WellFormed(b2)
    ensures |Replace(Replace(x, b1), b2)| != |Replace(x, b2)|
  {
    var r := Replace(x, b1);
    if WellPlaced(r) {
      IllThenWell(x, b1, b2);
    } else {
      IllThenIll(x, b1, b2);
    }
  }

  lemma IllThenWell(x: string, b1: string, b2: string)
    requires !WellPlaced(x) && WellFormed(b1) && WellFormed(b2) && WellPlaced(Replace(x, b1))
    ensures |Replace(Replace(x, b1), b2)| != |Replace(x, b2)|
  {
    MarkersAreMarkers();
    IllPlacedReplace(x, b1);
    IllPlacedReplace(x, b2);
    ReplaceShape(Replace(x, b1), b2);
  }

  lemma IllThenIll(x: string, b1: string, b2: string)
    requires !WellPlaced(x) && WellFormed(b1) && WellFormed(b2) && !WellPlaced(Replace(x, b1))
    ensures |Replace(Replace(x, b1), b2)| > |Replace(x, b2)|
  {
    var t, r := TrimRight(x, IsNewline), Replace(x, b1);
    var front := t + "\n\n";
    assert r == front + b1 + "\n" by {
      IllPlacedReplace(x, b1);
    }
    assert |Replace(x, b2)| == |front| + |b2| + 1 by {
      IllPlacedReplace(x, b2);
    }
    assert |Replace(r, b2)| == |TrimRight(r, IsNewline)| + |b2| + 3 by {
      IllPlacedReplace(r, b2);
    }
    OneNewlineLeft(front, b1);
  }

  /** A block does not end in a newline, so a file ending in one loses at most that newline. */
  lemma OneNewlineLeft(front: string, b: string)
    requires WellFormed(b)
    ensures |TrimRight(front + b + "\n", IsNewline)| >= |front| + |b|
  {
    MarkersAreMarkers();
    var r := front + b + "\n";
    assert b[|b| - |END|..][|END| - 1] == b[|b| - 1] == END[|END| - 1];
    assert r[|r| - 2] == b[|b| - 1];
  }

  // ---------------------------------------------------------------- clearing and head rewrites

  lemma ClearAppendedBlank(x: string, b: string)
    requires Index(x, START) == -1 && Index(x, END) == -1 && WellFormed(b) && TrimSpace(x) == ""
    ensures Replace(Replace(x, b), "") == ""
  {
    ReplaceShape(x, b);
    assert Replace(x, b) == "" + b + "" by {
      assert Before(x) == "" && Behind(x) == "";
    }
    NoMarkerInEmpty();
    ClearFound("", b, "");
  }

  lemma NoMarkerInEmpty()
    ensures Index("", START) == -1 && Index("", END) == -1
  {
    MarkersAreMarkers();
    NoMarkerInNewlines("", START);
    NoMarkerInNewlines("", END);
  }

  lemma ReplacedText(x: string, b: string)
    requires !(0 <= Index(x, START) < Index(x, END)) && b != "" && TrimSpace(x) != ""
    ensures Replace(x, b) == TrimRight(x, IsNewline) + "\n\n" + b + "\n"
  {
    ReplaceShape(x, b);
  }

  /** Clearing a block whose surroundings trim to left and right. */
  lemma ClearTo(before: string, b: string, after: string, left: string, right: string)
    requires WellFormed(b) && Index(before, START) == -1 && Index(before, END) == -1
    requires TrimRight(before, IsNewline) == left && TrimLeft(after, IsNewline) == right
    ensures Replace(before + b + after, "") == left + right
  {
    ClearFound(before, b, after);
  }

  lemma ClearAppendedText(x: string, b: string)
    requires Index(x, START) == -1 && Index(x, END) == -1 && WellFormed(b) && TrimSpace(x) != ""
    ensures Replace(Replace(x, b), "") == TrimRight(x, IsNewline)
  {
    var t := TrimRight(x, IsNewline);
    FrontUnmarked(x);
    ReplacedText(x, b);
    TrimAppended(t);
    ClearTo(t + "\n\n", b, "\n", t, "");
  }

  lemma FrontUnmarked(x: string)
    requires Index(x, START) == -1 && Index(x, END) == -1
    ensures var front := TrimRight(x, IsNewline) + "\n\n"; Index(front, START) == -1 && Index(front, END) == -1
  {
    MarkersAreMarkers();
    AppendedPrefix(x, START);
    AppendedPrefix(x, END);
  }

  /** Appending a block to an unmarked file and clearing it again gives the file without its
      trailing newlines, or the empty file when it was blank. */
  lemma AppendThenClear(x: string, b: string)
    requires Index(x, START) == -1 && Index(x, END) == -1 && WellFormed(b)
    ensures Replace(Replace(x, b), "") == if TrimSpace(x) == "" then "" else TrimRight(x, IsNewline)
  {
    if TrimSpace(x) == "" {
      ClearAppendedBlank(x, b);
    } else {
      ClearAppendedText(x, b);
    }
  }

  lemma ClearFound(before: string, b: string, after: string)
    requires WellFormed(b) && Index(before, START) == -1 && Index(before, END) == -1
    ensures Replace(before + b + after, "") == TrimRight(before, IsNewline) + TrimLeft(after, IsNewline)
  {
    BlockFound(before, b, after);
  }

  lemma TrimAppended(t: string)
    requires t != [] ==> !IsNewline(t[|t| - 1])
    ensures TrimRight(t + "\n\n", IsNewline) == t
    ensures TrimLeft("\n", IsNewline) == ""
  {
    var r := TrimRight(t + "\n\n", IsNewline);
    assert forall i :: 0 <= i < |t| ==> (t + "\n\n")[i] == t[i];
    assert r == (t + "\n\n")[..|t|];
    assert "\n"[1..] == "";
  }

  /** Rewriting the head keeps the block if and only if the head has no marker of its own,
      or happens to carry that very block. */
  lemma HeadRewriteExactly(existing: string, head: string)
    requires Extract(existing) != "" && WellFormed(Extract(existing))
    ensures Extract(RewriteHead(existing, head)) == Extract(existing)
       <==> (Index(head, START) == -1 && Index(head, END) == -1) || Extract(head) == Extract(existing)
  {
    HeadKeeps(head, Extract(existing));
  }

  lemma HeadKeeps(head: string, m: string)
    requires WellFormed(m)
    ensures Extract(head + "\n" + m + "\n") == m
       <==> (Index(head, START) == -1 && Index(head, END) == -1) || Extract(head) == m
  {
    MarkersAreMarkers();
    if Index(head, START) == -1 && Index(head, END) == -1 {
      AppendNewline(head);
      BlockFound(head + "\n", m, "\n");
    } else {
      MarkedHead(head, m);
    }
  }

  lemma AppendNewline(head: string)
    ensures Index(head + "\n", START) == Index(head, START) && Index(head + "\n", END) == Index(head, END)
  {
    MarkersAreMarkers();
    IndexConcat(head, "\n", START);
    IndexConcat(head, "\n", END);
    NoMarkerInNewlines("\n", START);
    NoMarkerInNewlines("\n", END);
  }

  /** A head with a marker decides by itself what is extracted, and a lone start marker
      swallows the text up to the block's end. */
  lemma MarkedHead(head: string, m: string)
    requires WellFormed(m) && !(Index(head, START) == -1 && Index(head, END) == -1)
    ensures var r := head + "\n" + m + "\n";
      if Index(head, START) >= 0 && Index(head, END) == -1 then |Extract(r)| > |m| && Extract(head) == ""
      else Extract(r) == Extract(head)
  {
    if Index(head, START) >= 0 && Index(head, END) == -1 {
      HeadIndexes(head, m);
      LoneStart(head, m);
    } else {
      EndedHead(head, m);
    }
  }

  lemma HeadIndexes(head: string, m: string)
    requires WellFormed(m)
    ensures var r := head + "\n" + m + "\n";
      && Index(r, START) == (if Index(head, START) >= 0 then Index(head, START) else |head| + 1 + Index(m, START))
      && Index(r, END) == (if Index(head, END) >= 0 then Index(head, END) else |head| + 1 + Index(m, END))
      && Index(m, START) >= 0 && Index(m, END) >= 0
  {
    MarkersAreMarkers();
    BlockStartsWithHash(m);
    HeadIndex(head, m, START);
    HeadIndex(head, m, END);
  }

  lemma EndedHead(head: string, m: string)
    requires WellFormed(m) && Index(head, END) >= 0
    ensures Extract(head + "\n" + m + "\n") == Extract(head)
  {
    HeadIndexes(head, m);
    var r, tail := head + "\n" + m + "\n", "\n" + m + "\n";
    Regrouped(head, m);
    assert Index(r, END) == Index(head + tail, END) && Index(r, START) == Index(head + tail, START);
    OwnMarkers(head, tail);
  }

  lemma Regrouped(head: string, m: string)
    ensures head + "\n" + m + "\n" == head + ("\n" + m + "\n")
  {
  }

  lemma LoneStart(head: string, m: string)
    requires WellFormed(m) && Index(head, START) >= 0 && Index(head, END) == -1
    requires var r := head + "\n" + m + "\n";
      Index(r, START) == Index(head, START) && Index(r, END) == |head| + 1 + Index(m, END)
    ensures |Extract(head + "\n" + m + "\n")| > |m| && Extract(head) == ""
  {
    MarkersAreMarkers();
  }

  /** With its end marker in the head, what follows the head does not matter. */
  lemma OwnMarkers(head: string, tail: string)
    requires Index(head, END) >= 0 && Index(head + tail, END) == Index(head, END)
    requires Index(head, START) >= 0 ==> Index(head + tail, START) == Index(head, START)
    requires Index(head, START) < 0 ==> Index(head + tail, START) >= |head|
    ensures Extract(head + tail) == Extract(head)
  {
    MarkersAreMarkers();
    var s, e := Index(head, START), Index(head, END);
    if 0 <= s < e {
      assert (head + tail)[s..e + |END|] == head[s..e + |END|];
    }
  }

  lemma HeadIndex(head: string, b: string, m: string)
    requires Marker(m) && b != [] && b[0] == '#' && Index(b, m) >= 0
    ensures Index(head + "\n" + b + "\n", m) == if Index(head, m) >= 0 then Index(head, m) else |head| + 1 + Index(b, m)
  {
    var tail := "\n" + (b + "\n");
    assert head + "\n" + b + "\n" == head + tail;
    IndexConcat(head, tail, m);
    IndexConcat("\n", b + "\n", m);
    NoMarkerInNewlines("\n", m);
    IndexPrefix(b, "\n", m);
  }

  // ---------------------------------------------------------------- any sequence of writes

  /** What the node does to config.toml: write the MCP block, drop it, rewrite the head. */
  datatype Op = SetBlock(block: string) | ClearBlock | SetHead(head: string)

  function Apply(x: string, op: Op): string
  {
    match op
    case SetBlock(b) => Replace(x, b)
    case ClearBlock => Replace(x, "")
    case SetHead(head) => RewriteHead(x, head)
  }

  function Run(x: string, ops: seq<Op>): string
  {
    if ops == [] then x else Apply(Run(x, ops[..|ops| - 1]), ops[|ops| - 1])
  }

  /** The block last written and not cleared since. */
  function LastBlock(ops: seq<Op>): string
  {
    if ops == [] then ""
    else match ops[|ops| - 1]
      case SetBlock(b) => b
      case ClearBlock => ""
      case SetHead(_) => LastBlock(ops[..|ops| - 1])
  }

  predicate Sound(op: Op)
  {
    match op
    case SetBlock(b) => WellFormed(b)
    case ClearBlock => true
    case SetHead(head) => Index(head, START) == -1 && Index(head, END) == -1
  }

  predicate Unmarked(x: string)
  {
    Index(x, START) == -1 && Index(x, END) == -1
  }

  /** The file is unmarked text, or unmarked text followed by the block and newlines. */
  predicate Holds(x: string, block: string)
  {
    if block == "" then Unmarked(x)
    else
      && WellFormed(block) && 0 <= Index(x, START) < Index(x, END) && Extract(x) == block
      && forall i :: Index(x, END) + |END| <= i < |x| ==> x[i] == '\n'
  }

  lemma HoldsBlock(before: string, block: string, after: string)
    requires Unmarked(before) && WellFormed(block) && forall i :: 0 <= i < |after| ==> after[i] == '\n'
    ensures Holds(before + block + after, block)
  {
    MarkersAreMarkers();
    BlockFound(before, block, after);
    var x := before + block + after;
    forall i | Index(x, END) + |END| <= i < |x| ensures x[i] == '\n' {
      assert x[i] == after[i - |before| - |block|];
    }
  }

  lemma HeldAround(x: string, last: string)
    requires Holds(x, last)
    ensures Unmarked(Before(x)) && forall i :: 0 <= i < |Behind(x)| ==> Behind(x)[i] == '\n'
  {
    BeforeUnmarked(x);
  }

  lemma SetBlockHolds(x: string, last: string, b: string)
    requires Holds(x, last) && WellFormed(b)
    ensures Holds(Replace(x, b), b)
  {
    HeldAround(x, last);
    HoldsBlock(Before(x), b, Behind(x));
    assert Replace(x, b) == Before(x) + b + Behind(x) by {
      ReplaceShape(x, b);
    }
  }

  lemma TrimLeftNewlines(s: string)
    requires forall i :: 0 <= i < |s| ==> s[i] == '\n'
    ensures TrimLeft(s, IsNewline) == ""
  {
  }

  lemma ClearHolds(x: string, last: string)
    requires Holds(x, last)
    ensures Holds(Replace(x, ""), "")
  {
    if last != "" {
      MarkersAreMarkers();
      var s, e := Index(x, START), Index(x, END);
      var before := x[..s];
      NoMarkerBefore(x);
      IndexTrimRight(before, START);
      IndexTrimRight(before, END);
      TrimLeftNewlines(x[e + |END|..]);
      assert Replace(x, "") == TrimRight(before, IsNewline) + "" == TrimRight(before, IsNewline);
    }
  }

  lemma SetHeadHolds(x: string, last: string, head: string)
    requires Holds(x, last) && Unmarked(head)
    ensures Holds(RewriteHead(x, head), last)
  {
    if last != "" {
      AppendNewline(head);
      HoldsBlock(head + "\n", last, "\n");
    }
  }

  /** From any unmarked file, after any sequence of block writes, clears and head rewrites
      with unmarked heads, the block in the file is the one last written. */
  lemma {:induction false} LastBlockSurvives(x: string, ops: seq<Op>)
    requires Unmarked(x) && forall i :: 0 <= i < |ops| ==> Sound(ops[i])
    ensures Holds(Run(x, ops), LastBlock(ops)) && Extract(Run(x, ops)) == LastBlock(ops)
    decreases |ops|
  {
    if ops != [] {
      var sofar, op := ops[..|ops| - 1], ops[|ops| - 1];
      LastBlockSurvives(x, sofar);
      match op
      case SetBlock(b) => SetBlockHolds(Run(x, sofar), LastBlock(sofar), b);
      case ClearBlock => ClearHolds(Run(x, sofar), LastBlock(sofar));
      case SetHead(head) => SetHeadHolds(Run(x, sofar), LastBlock(sofar), head);
    }
  }
}
