/** RFC 6238 codes with a replay cache (common/auth/totp/totp.go). Times are nanoseconds
    since the Unix epoch; HMAC-SHA1 is an abstract function to 20-byte digests. */
module Totp {
  import opened Text

  const TIME_STEP := 30
  const CODE_DIGITS := 6
  const STEP_WINDOW := 2
  /** NewReplayCache: the widest acceptance window plus a 30 second margin. */
  const REPLAY_TTL := ((STEP_WINDOW * 2 + 1) * TIME_STEP + 30) * SECOND

  // ---------------------------------------------------------------- code generation

  function Counter(t: nat): nat
  {
    t / SECOND / TIME_STEP
  }

  /** binary.BigEndian.PutUint64. */
  function BigEndian(n: nat, width: nat): (bs: Bytes)
    ensures |bs| == width
  {
    if width == 0 then [] else BigEndian(n / 256, width - 1) + [(n % 256) as byte]
  }

  function FromBigEndian(bs: Bytes): nat
  {
    if bs == [] then 0 else FromBigEndian(bs[..|bs| - 1]) * 256 + bs[|bs| - 1] as nat
  }

  function Pow(base: nat, e: nat): nat
  {
    if e == 0 then 1 else base * Pow(base, e - 1)
  }

  /** The MAC input determines the counter: different steps below 2^64 never share it. */
  lemma {:induction false} BigEndianRoundTrip(n: nat, width: nat)
    requires n < Pow(256, width)
    ensures FromBigEndian(BigEndian(n, width)) == n
  {
    if width > 0 {
      assert n / 256 < Pow(256, width - 1);
      BigEndianRoundTrip(n / 256, width - 1);
      assert BigEndian(n, width)[..width - 1] == BigEndian(n / 256, width - 1);
    }
  }

  /** The dynamic truncation of a 20-byte digest: 31 bits from the offset in its last nibble. */
  function Binary(sum: Bytes): nat
    requires |sum| == 20
  {
    var offset := sum[19] as nat % 16;
    FromBigEndian(sum[offset..offset + 4]) % 0x8000_0000
  }

  function PadLeft(s: string, width: nat): string
    decreases width - |s|
  {
    if |s| >= width then s else PadLeft("0" + s, width)
  }

  /** generateAtCounter on the digest of the counter. */
  function CodeOf(sum: Bytes): string
    requires |sum| == 20
  {
    PadLeft(Decimal(Binary(sum) % 1_000_000), CODE_DIGITS)
  }

  lemma {:induction false} PadKeeps(s: string, width: nat)
    requires forall c :: c in s ==> IsDigit(c)
    ensures var r := PadLeft(s, width);
      && (forall c :: c in r ==> IsDigit(c)) && NumberOf(r) == NumberOf(s)
      && |r| == if |s| >= width then |s| else width
    decreases width - |s|
  {
    if |s| < width {
      LeadingZero(s);
      PadKeeps("0" + s, width);
    }
  }

  lemma {:induction false} LeadingZero(s: string)
    requires forall c :: c in s ==> IsDigit(c)
    ensures (forall c :: c in "0" + s ==> IsDigit(c)) && NumberOf("0" + s) == NumberOf(s)
  {
    if s == [] {
      assert ("0" + s)[..0] == [];
    } else {
      LeadingZero(s[..|s| - 1]);
      assert ("0" + s)[..|"0" + s| - 1] == "0" + s[..|s| - 1];
    }
  }

  lemma {:induction false} DecimalWidth(n: nat, width: nat)
    requires width >= 1 && n < Pow(10, width)
    ensures |Decimal(n)| <= width
  {
    if n >= 10 {
      assert width >= 2;
      DecimalWidth(n / 10, width - 1);
    }
  }

  lemma FourBytes(a: byte, b: byte, c: byte, d: byte)
    ensures FromBigEndian([a, b, c, d]) ==
            a as nat * 0x100_0000 + b as nat * 0x1_0000 + c as nat * 0x100 + d as nat
  {
    var s := [a, b, c, d];
    assert s[..3] == [a, b, c] && [a, b, c][..2] == [a, b] && [a, b][..1] == [a] && [a][..0] == [];
    assert FromBigEndian([a]) == a as nat;
    assert FromBigEndian([a, b]) == a as nat * 0x100 + b as nat;
    assert FromBigEndian([a, b, c]) == (a as nat * 0x100 + b as nat) * 0x100 + c as nat;
  }

  lemma TopBitMasked(a: nat, rest: nat)
    requires a < 256 && rest < 0x100_0000
    ensures (a * 0x100_0000 + rest) % 0x8000_0000 == (a % 128) * 0x100_0000 + rest
  {
    assert a == a / 128 * 128 + a % 128;
    assert a * 0x100_0000 + rest == (a / 128) * 0x8000_0000 + ((a % 128) * 0x100_0000 + rest);
  }

  /** Section 5.3 of RFC 4226: the low nibble of the last byte picks four bytes, and the top
      bit of the first of them is dropped. */
  function Truncation(sum: Bytes): nat
    requires |sum| == 20
  {
    var o := sum[19] as nat % 16;
    (sum[o] as nat % 128) * 0x100_0000 + sum[o + 1] as nat * 0x1_0000 + sum[o + 2] as nat * 0x100 + sum[o + 3] as nat
  }

  lemma BinaryIsTruncation(sum: Bytes)
    requires |sum| == 20
    ensures Binary(sum) == Truncation(sum)
  {
    var o := sum[19] as nat % 16;
    assert sum[o..o + 4] == [sum[o], sum[o + 1], sum[o + 2], sum[o + 3]];
    FourBytes(sum[o], sum[o + 1], sum[o + 2], sum[o + 3]);
    TopBitMasked(sum[o] as nat, sum[o + 1] as nat * 0x1_0000 + sum[o + 2] as nat * 0x100 + sum[o + 3] as nat);
  }

  /** Every code is exactly six decimal digits standing for the truncated digest modulo 10^6. */
  lemma CodeShape(sum: Bytes)
    requires |sum| == 20
    ensures var code := CodeOf(sum);
      && |code| == CODE_DIGITS && (forall c :: c in code ==> IsDigit(c))
      && NumberOf(code) == Truncation(sum) % 1_000_000
  {
    BinaryIsTruncation(sum);
    var n := Binary(sum) % 1_000_000;
    assert Pow(10, 6) == 10 * Pow(10, 5) == 100 * Pow(10, 4) == 1000 * Pow(10, 3) == 1_000_000;
    DecimalWidth(n, 6);
    PadKeeps(Decimal(n), CODE_DIGITS);
    DecimalRoundTrip(n);
  }

  // ---------------------------------------------------------------- validation

  type Digest = sum: Bytes | |sum| == 20 witness seq(20, _ => 0)

  /** HMAC-SHA1 of a message under the secret of each node. */
  type Mac = (string, Bytes) -> Digest

  /** generateAtCounter. */
  function CodeAt(mac: Mac, node: string, step: nat): string
  {
    CodeOf(mac(node, BigEndian(step, 8)))
  }

  /** Generate. */
  function Generate(mac: Mac, node: string, t: nat): string
  {
    CodeAt(mac, node, Counter(t))
  }

  /** Two steps that fit the counter are authenticated as different messages, and each gives
      a six-digit code. */
  lemma CodeOfStep(mac: Mac, node: string, step: nat, other: nat)
    requires step < Pow(256, 8) && other < Pow(256, 8)
    ensures BigEndian(step, 8) == BigEndian(other, 8) ==> step == other
    ensures |CodeAt(mac, node, step)| == CODE_DIGITS && forall c :: c in CodeAt(mac, node, step) ==> IsDigit(c)
  {
    BigEndianRoundTrip(step, 8);
    BigEndianRoundTrip(other, 8);
    CodeShape(mac(node, BigEndian(step, 8)));
  }

  predicate InWindow(step: nat, now: nat)
  {
    Counter(now) - STEP_WINDOW <= step <= Counter(now) + STEP_WINDOW
  }

  /** A validation request, its code already trimmed. */
  datatype Call = Call(node: string, code: string, now: nat)

  /** The call can be accepted on the strength of this step. */
  predicate AcceptedFor(mac: Mac, c: Call, step: nat)
  {
    InWindow(step, c.now) && CodeAt(mac, c.node, step) == c.code
  }

  /** Some step in the window has this code. */
  predicate Matches(mac: Mac, node: string, code: string, now: nat)
  {
    exists step: nat :: step <= Counter(now) + STEP_WINDOW && AcceptedFor(mac, Call(node, code, now), step)
  }

  function CacheKey(node: string, code: string): string
  {
    node + "|" + code
  }

  /** Six-character codes make the cache key injective, whatever the node id contains. */
  lemma CacheKeyInjective(n1: string, c1: string, n2: string, c2: string)
    requires |c1| == |c2| == CODE_DIGITS && CacheKey(n1, c1) == CacheKey(n2, c2)
    ensures n1 == n2 && c1 == c2
  {
    var k := CacheKey(n1, c1);
    assert |n1| == |k| - 7 == |n2|;
    assert n1 == k[..|n1|] && n2 == k[..|n2|];
    assert c1 == k[|n1| + 1..] && c2 == k[|n2| + 1..];
  }

  /** pruneLocked: the entries that outlive the TTL are gone. */
  function Pruned(seen: map<string, nat>, now: nat, ttl: nat): map<string, nat>
  {
    map k | k in seen && now - seen[k] <= ttl :: seen[k]
  }

  class ReplayCache {
    var ttl: nat
    var seen: map<string, nat>

    constructor ()
      ensures ttl == REPLAY_TTL && seen == map[]
    {
      ttl, seen := REPLAY_TTL, map[];
    }

    method Prune(now: nat)
      modifies this`seen
      ensures seen == Pruned(old(seen), now, ttl)
    {
      var todo := seen.Keys;
      while todo != {}
        invariant todo <= old(seen).Keys
        invariant forall k :: k in seen <==> k in old(seen) && (k in todo || now - old(seen)[k] <= ttl)
        invariant forall k :: k in seen ==> seen[k] == old(seen)[k]
        decreases |todo|
      {
        var k :| k in todo;
        if now - seen[k] > ttl {
          seen := seen - {k};
        }
        todo := todo - {k};
      }
    }

    method Claim(node: string, code: string, now: nat) returns (ok: bool)
      modifies this`seen
      ensures var live := Pruned(old(seen), now, ttl);
        ok == (CacheKey(node, code) !in live)
        && seen == if ok then live[CacheKey(node, code) := now] else live
    {
      Prune(now);
      var key := CacheKey(node, code);
      if key in seen {
        return false;
      }
      seen := seen[key := now];
      return true;
    }
  }

  /** Validate for one node. A nil cache disables
      replay protection. */
  method Validate(mac: Mac, rawCode: string, now: nat, used: ReplayCache?, node: string) returns (ok: bool)
    modifies used
    ensures used != null ==> used.ttl == old(used.ttl)
    ensures var code := TrimSpace(rawCode); var hit := |code| == CODE_DIGITS && Matches(mac, node, code, now);
      && (used == null ==> ok == hit)
      && (used != null && !hit ==> !ok && used.seen == old(used.seen))
      && (used != null && hit ==>
            var live := Pruned(old(used.seen), now, used.ttl);
            ok == (CacheKey(node, code) !in live)
            && used.seen == if ok then live[CacheKey(node, code) := now] else live)
  {
    var code := TrimSpace(rawCode);
    if |code| != CODE_DIGITS {
      return false;
    }
    var base := Counter(now);
    var delta := -STEP_WINDOW;
    while delta <= STEP_WINDOW
      invariant -STEP_WINDOW <= delta <= STEP_WINDOW + 1
      invariant forall step: nat :: step < base + delta ==> !AcceptedFor(mac, Call(node, code, now), step)
      invariant used != null ==> used.seen == old(used.seen) && used.ttl == old(used.ttl)
    {
      var step := base + delta;
      if step >= 0 {
        if CodeAt(mac, node, step) == code {
          assert AcceptedFor(mac, Call(node, code, now), step);
          if used != null {
            ok := used.Claim(node, code, now);
            return ok;
          }
          return true;
        }
      }
      delta := delta + 1;
    }
    return false;
  }

  // ---------------------------------------------------------------- sequences of calls

  datatype State = State(seen: map<string, nat>, accepted: seq<Call>)

  /** What Validate does to the cache and to the list of accepted calls. */
  function Apply(mac: Mac, ttl: nat, s: State, c: Call): State
  {
    if |c.code| != CODE_DIGITS || !Matches(mac, c.node, c.code, c.now) then s
    else
      var live := Pruned(s.seen, c.now, ttl);
      var key := CacheKey(c.node, c.code);
      if key in live then s.(seen := live)
      else State(live[key := c.now], s.accepted + [c])
  }

  function Run(mac: Mac, ttl: nat, calls: seq<Call>): State
  {
    if calls == [] then State(map[], [])
    else Apply(mac, ttl, Run(mac, ttl, calls[..|calls| - 1]), calls[|calls| - 1])
  }

  predicate InTimeOrder(calls: seq<Call>)
  {
    forall i, j :: 0 <= i < j < |calls| ==> calls[i].now <= calls[j].now
  }

  function KeyOf(c: Call): string
  {
    CacheKey(c.node, c.code)
  }

  ghost predicate LogUpTo(accepted: seq<Call>, t: nat)
  {
    forall i :: 0 <= i < |accepted| ==> accepted[i].now <= t && |accepted[i].code| == CODE_DIGITS
  }

  /** Every acceptance younger than the TTL is in the cache. */
  ghost predicate Remembered(s: State, ttl: nat, t: nat)
  {
    forall i :: 0 <= i < |s.accepted| && t - s.accepted[i].now <= ttl ==>
      KeyOf(s.accepted[i]) in s.seen && s.seen[KeyOf(s.accepted[i])] >= s.accepted[i].now
  }

  /** Every cache entry is an acceptance. */
  ghost predicate Backed(s: State)
  {
    forall k :: k in s.seen ==>
      exists i :: 0 <= i < |s.accepted| && KeyOf(s.accepted[i]) == k && s.accepted[i].now == s.seen[k]
  }

  /** Acceptances of one key lie more than the TTL apart. */
  ghost predicate Spaced(accepted: seq<Call>, ttl: nat)
  {
    forall i, j :: 0 <= i < j < |accepted| && KeyOf(accepted[i]) == KeyOf(accepted[j]) ==>
      accepted[j].now - accepted[i].now > ttl
  }

  /** Cache and acceptance log agree as of time t. */
  ghost predicate Agree(s: State, ttl: nat, t: nat)
  {
    LogUpTo(s.accepted, t) && Remembered(s, ttl, t) && Backed(s) && Spaced(s.accepted, ttl)
  }

  lemma PruneAgrees(s: State, ttl: nat, t: nat, now: nat)
    requires Agree(s, ttl, t) && t <= now
    ensures Agree(s, ttl, now) && Agree(s.(seen := Pruned(s.seen, now, ttl)), ttl, now)
  {
  }

  lemma AcceptAgrees(s: State, ttl: nat, c: Call)
    requires Agree(s, ttl, c.now) && |c.code| == CODE_DIGITS && KeyOf(c) !in s.seen
    ensures Agree(State(s.seen[KeyOf(c) := c.now], s.accepted + [c]), ttl, c.now)
  {
    var s' := State(s.seen[KeyOf(c) := c.now], s.accepted + [c]);
    assert Backed(s') by {
      forall k | k in s'.seen
        ensures exists i :: 0 <= i < |s'.accepted| && KeyOf(s'.accepted[i]) == k && s'.accepted[i].now == s'.seen[k]
      {
        if k == KeyOf(c) {
          assert s'.accepted[|s.accepted|] == c;
        } else {
          var i :| 0 <= i < |s.accepted| && KeyOf(s.accepted[i]) == k && s.accepted[i].now == s.seen[k];
          assert s'.accepted[i] == s.accepted[i];
        }
      }
    }
  }

  lemma AgreeStep(mac: Mac, ttl: nat, s: State, t: nat, c: Call)
    requires Agree(s, ttl, t) && t <= c.now
    ensures Agree(Apply(mac, ttl, s, c), ttl, c.now)
  {
    PruneAgrees(s, ttl, t, c.now);
    if |c.code| == CODE_DIGITS && KeyOf(c) !in Pruned(s.seen, c.now, ttl) {
      AcceptAgrees(s.(seen := Pruned(s.seen, c.now, ttl)), ttl, c);
    }
  }

  lemma {:induction false} AgreeRun(mac: Mac, ttl: nat, calls: seq<Call>)
    requires InTimeOrder(calls)
    ensures Agree(Run(mac, ttl, calls), ttl, if calls == [] then 0 else calls[|calls| - 1].now)
    decreases |calls|
  {
    if calls != [] {
      AgreeRun(mac, ttl, calls[..|calls| - 1]);
      var t := if |calls| == 1 then 0 else calls[|calls| - 2].now;
      AgreeStep(mac, ttl, Run(mac, ttl, calls[..|calls| - 1]), t, calls[|calls| - 1]);
    }
  }

  /** No node has one step's code accepted twice. */
  ghost predicate OneUse(mac: Mac, s: State)
  {
    forall i, j, step: nat :: 0 <= i < j < |s.accepted| && s.accepted[i].node == s.accepted[j].node ==>
      !(AcceptedFor(mac, s.accepted[i], step) && AcceptedFor(mac, s.accepted[j], step))
  }

  /** The instants at which one step is acceptable span less than five steps. */
  lemma WindowSpan(step: nat, t1: nat, t2: nat)
    requires InWindow(step, t1) && InWindow(step, t2)
    ensures t2 - t1 < (STEP_WINDOW * 2 + 1) * TIME_STEP * SECOND
  {
    assert t1 >= Counter(t1) * TIME_STEP * SECOND;
    assert t2 < (Counter(t2) + 1) * TIME_STEP * SECOND;
  }

  ghost predicate OneUseForAll(ttl: nat)
  {
    forall mac: Mac, calls ::
      InTimeOrder(calls) ==> OneUse(mac, Run(mac, ttl, calls))
  }

  lemma OneUseHolds(mac: Mac, ttl: nat, calls: seq<Call>)
    requires InTimeOrder(calls) && ttl + 1 >= (STEP_WINDOW * 2 + 1) * TIME_STEP * SECOND
    ensures OneUse(mac, Run(mac, ttl, calls))
  {
    var s := Run(mac, ttl, calls);
    AgreeRun(mac, ttl, calls);
    forall i, j, step: nat | 0 <= i < j < |s.accepted| && s.accepted[i].node == s.accepted[j].node
      ensures !(AcceptedFor(mac, s.accepted[i], step) && AcceptedFor(mac, s.accepted[j], step))
    {
      if AcceptedFor(mac, s.accepted[i], step) && AcceptedFor(mac, s.accepted[j], step) {
        WindowSpan(step, s.accepted[i].now, s.accepted[j].now);
      }
    }
  }

  /** The first and the last instant at which step 2 is acceptable. */
  lemma EdgesOfWindow()
    ensures InWindow(2, 0) && InWindow(2, 150 * SECOND - 1)
  {
    assert Counter(0) == 0 && Counter(150 * SECOND - 1) == 4;
  }

  lemma AcceptedAtBothEdges(mac: Mac, ttl: nat, c1: Call, c2: Call)
    requires ttl < c2.now && c1 == c2.(now := 0) && |c1.code| == CODE_DIGITS
    requires AcceptedFor(mac, c1, 2) && AcceptedFor(mac, c2, 2)
    ensures Run(mac, ttl, [c1, c2]).accepted == [c1, c2]
  {
    assert [c1, c2][..1] == [c1] && [c1][..0] == [];
    assert Matches(mac, c1.node, c1.code, c1.now) && Matches(mac, c2.node, c2.code, c2.now);
    var s1 := Run(mac, ttl, [c1]);
    assert s1 == State(map[KeyOf(c1) := 0], [c1]) by {
      assert Run(mac, ttl, []) == State(map[], []);
      assert s1 == Apply(mac, ttl, State(map[], []), c1);
    }
    assert Run(mac, ttl, [c1, c2]) == Apply(mac, ttl, s1, c2);
    assert KeyOf(c2) !in Pruned(s1.seen, c2.now, ttl);
  }

  /** A shorter TTL lets a code of step 2 in at the first and at the last instant of its
      window. */
  lemma ShortTtlReplays(ttl: nat)
    requires ttl + 1 < (STEP_WINDOW * 2 + 1) * TIME_STEP * SECOND
    ensures !OneUseForAll(ttl)
  {
    var sum: Digest := seq(20, _ => 0);
    var mac: Mac := (node: string, message: Bytes) => sum;
    CodeShape(sum);
    var c1 := Call("n", CodeAt(mac, "n", 2), 0);
    var c2 := c1.(now := 150 * SECOND - 1);
    EdgesOfWindow();
    AcceptedAtBothEdges(mac, ttl, c1, c2);
    var s := Run(mac, ttl, [c1, c2]);
    assert AcceptedFor(mac, s.accepted[0], 2) && AcceptedFor(mac, s.accepted[1], 2);
    assert InTimeOrder([c1, c2]);
  }

  /** RFC 6238 section 5.2, exactly: over all calls in time order no code is accepted twice
      for a step if and only if the TTL covers the 150 second acceptance span. */
  lemma OneUseExactly(ttl: nat)
    ensures OneUseForAll(ttl) <==> ttl + 1 >= (STEP_WINDOW * 2 + 1) * TIME_STEP * SECOND
  {
    if ttl + 1 >= (STEP_WINDOW * 2 + 1) * TIME_STEP * SECOND {
      forall mac: Mac, calls | InTimeOrder(calls)
        ensures OneUse(mac, Run(mac, ttl, calls))
      {
        OneUseHolds(mac, ttl, calls);
      }
    } else {
      ShortTtlReplays(ttl);
    }
  }

  /** The shipped TTL does. */
  lemma ShippedTtlSuffices()
    ensures OneUseForAll(REPLAY_TTL)
  {
    OneUseExactly(REPLAY_TTL);
  }

  /** When a call is accepted after any history: exactly when its code matches a step in the
      window and this node has not had this code accepted within the TTL. Other nodes'
      entries never get in the way. */
  lemma AcceptedExactly(mac: Mac, ttl: nat, calls: seq<Call>, c: Call)
    requires InTimeOrder(calls + [c])
    ensures var s := Run(mac, ttl, calls);
      Run(mac, ttl, calls + [c]).accepted == s.accepted + [c]
      <==> |c.code| == CODE_DIGITS && Matches(mac, c.node, c.code, c.now)
           && forall i :: 0 <= i < |s.accepted| && s.accepted[i].node == c.node && s.accepted[i].code == c.code
                ==> c.now - s.accepted[i].now > ttl
  {
    var s := Run(mac, ttl, calls);
    assert (calls + [c])[..|calls|] == calls;
    forall i, j | 0 <= i < j < |calls| ensures calls[i].now <= calls[j].now {
      assert (calls + [c])[i].now <= (calls + [c])[j].now;
    }
    AgreeRun(mac, ttl, calls);
    if calls != [] {
      assert (calls + [c])[|calls| - 1].now <= (calls + [c])[|calls|].now;
    }
    var key := KeyOf(c);
    if |c.code| == CODE_DIGITS && key in Pruned(s.seen, c.now, ttl) {
      var i :| 0 <= i < |s.accepted| && KeyOf(s.accepted[i]) == key && s.accepted[i].now == s.seen[key];
      CacheKeyInjective(s.accepted[i].node, s.accepted[i].code, c.node, c.code);
    }
    assert s.accepted != s.accepted + [c];
  }

  /** A code generated at most 60 seconds before now lies in the window. */
  lemma FreshCodeMatches(mac: Mac, node: string, t: nat, now: nat)
    requires t <= now <= t + STEP_WINDOW * TIME_STEP * SECOND
    ensures Matches(mac, node, Generate(mac, node, t), now)
  {
    assert now / SECOND <= t / SECOND + STEP_WINDOW * TIME_STEP;
    assert Counter(now) <= Counter(t) + STEP_WINDOW;
    assert AcceptedFor(mac, Call(node, CodeAt(mac, node, Counter(t)), now), Counter(t));
  }

  /** So after any history such a code is accepted, unless this node had it accepted within
      the TTL. */
  lemma FreshCodeAccepted(mac: Mac, ttl: nat, calls: seq<Call>, c: Call, t: nat)
    requires InTimeOrder(calls + [c]) && t <= c.now <= t + STEP_WINDOW * TIME_STEP * SECOND
    requires c.code == Generate(mac, c.node, t)
    requires forall i :: 0 <= i < |Run(mac, ttl, calls).accepted|
               && Run(mac, ttl, calls).accepted[i].node == c.node && Run(mac, ttl, calls).accepted[i].code == c.code
               ==> c.now - Run(mac, ttl, calls).accepted[i].now > ttl
    ensures Run(mac, ttl, calls + [c]).accepted == Run(mac, ttl, calls).accepted + [c]
  {
    FreshCodeMatches(mac, c.node, t, c.now);
    CodeShape(mac(c.node, BigEndian(Counter(t), 8)));
    AcceptedExactly(mac, ttl, calls, c);
  }
}
