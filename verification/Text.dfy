/** Shared by the models: bytes and units, the Option type, Go's TrimSpace and
    TrimLeft/TrimRight, and decimal rendering. */
module Text {

  datatype Option<+T> = None | Some(value: T)

  newtype byte = b: int | 0 <= b < 256
  type Bytes = seq<byte>

  type uint32 = n: int | 0 <= n < 0x1_0000_0000

  const WRAP := 0x1_0000_0000_0000_0000

  /** A uint64 counter that has counted n. */
  function Wrapped(n: nat): (r: nat)
    ensures r < WRAP
    ensures n < WRAP ==> r == n
  {
    if n < WRAP then n else Wrapped(n - WRAP)
  }

  lemma {:induction false} WrappedAdds(a: nat, b: nat)
    ensures Wrapped(Wrapped(a) + b) == Wrapped(a + b)
    decreases a
  {
    if a >= WRAP {
      WrappedAdds(a - WRAP, b);
    }
  }

  /** time.Second in nanoseconds. */
  const SECOND := 1_000_000_000

  /** unicode.IsSpace: the White_Space code points. */
  predicate IsSpace(c: char)
  {
    || c == '\t' || c == '\n' || c == '\U{000B}' || c == '\U{000C}' || c == '\r' || c == ' '
    || c == '\U{0085}' || c == '\U{00A0}' || c == '\U{1680}'
    || '\U{2000}' <= c <= '\U{200A}'
    || c == '\U{2028}' || c == '\U{2029}' || c == '\U{202F}' || c == '\U{205F}' || c == '\U{3000}'
  }

  predicate IsNewline(c: char)
  {
    c == '\n'
  }

  /** Drops the longest prefix whose characters all satisfy cut. */
  function TrimLeft(s: string, cut: char -> bool): (r: string)
    ensures |r| <= |s| && r == s[|s| - |r|..]
    ensures forall i :: 0 <= i < |s| - |r| ==> cut(s[i])
    ensures r != [] ==> !cut(r[0])
  {
    if s != [] && cut(s[0]) then TrimLeft(s[1..], cut) else s
  }

  /** Drops the longest suffix whose characters all satisfy cut. */
  function TrimRight(s: string, cut: char -> bool): (r: string)
    ensures |r| <= |s| && r == s[..|r|]
    ensures forall i :: |r| <= i < |s| ==> cut(s[i])
    ensures r != [] ==> !cut(r[|r| - 1])
  {
    if s != [] && cut(s[|s| - 1]) then TrimRight(s[..|s| - 1], cut) else s
  }

  function TrimSpace(s: string): string
  {
    TrimRight(TrimLeft(s, IsSpace), IsSpace)
  }

  /** r is what is left of s between its first and its last character that is kept. */
  predicate Core(s: string, r: string, at: nat, cut: char -> bool)
  {
    && at + |r| <= |s| && r == s[at..at + |r|]
    && (forall i :: 0 <= i < |s| && !(at <= i < at + |r|) ==> cut(s[i]))
    && (r != "" ==> !cut(r[0]) && !cut(r[|r| - 1]))
  }

  lemma CoreOfTails(s: string, t: string, r: string, cut: char -> bool)
    requires |t| <= |s| && t == s[|s| - |t|..] && forall i :: 0 <= i < |s| - |t| ==> cut(s[i])
    requires |r| <= |t| && r == t[..|r|] && forall i :: |r| <= i < |t| ==> cut(t[i])
    requires (t != [] ==> !cut(t[0])) && (r != [] ==> !cut(r[|r| - 1]))
    ensures Core(s, r, |s| - |t|, cut)
  {
    var at := |s| - |t|;
    assert forall i :: at <= i < |s| ==> s[i] == t[i - at];
  }

  /** strings.Trim keeps a text that has nothing to cut at either end. */
  lemma TrimKeeps(s: string, cut: char -> bool)
    requires s != [] && !cut(s[0]) && !cut(s[|s| - 1])
    ensures TrimRight(TrimLeft(s, cut), cut) == s
  {
  }

  lemma TrimCore(s: string, cut: char -> bool) returns (at: nat)
    ensures Core(s, TrimRight(TrimLeft(s, cut), cut), at, cut)
  {
    var t := TrimLeft(s, cut);
    at := |s| - |t|;
    CoreOfTails(s, t, TrimRight(t, cut), cut);
  }

  /** strings.TrimSpace: what is left has no space at either end, and only spaces are lost. */
  lemma TrimSpaceMeans(s: string) returns (at: nat)
    ensures Core(s, TrimSpace(s), at, IsSpace)
  {
    at := TrimCore(s, IsSpace);
  }

  const DIGITS := "0123456789"

  predicate IsDigit(c: char)
  {
    '0' <= c <= '9'
  }

  /** fmt's %d for a natural number. */
  function Decimal(n: nat): (s: string)
    ensures s != [] && forall c :: c in s ==> IsDigit(c)
  {
    if n < 10 then [DIGITS[n]] else Decimal(n / 10) + [DIGITS[n % 10]]
  }

  function DigitValue(c: char): (d: nat)
    requires IsDigit(c)
    ensures d < 10 && DIGITS[d] == c
  {
    c as int - '0' as int
  }

  /** The number a string of decimal digits stands for. */
  function NumberOf(s: string): nat
    requires forall c :: c in s ==> IsDigit(c)
  {
    if s == [] then 0 else NumberOf(s[..|s| - 1]) * 10 + DigitValue(s[|s| - 1])
  }

  /** Reading back what Decimal wrote gives the number again, so Decimal is injective. */
  lemma {:induction false} DecimalRoundTrip(n: nat)
    ensures NumberOf(Decimal(n)) == n
  {
    if n < 10 {
      assert Decimal(n)[..0] == [];
    } else {
      DecimalRoundTrip(n / 10);
      assert Decimal(n)[..|Decimal(n)| - 1] == Decimal(n / 10);
    }
  }
}
