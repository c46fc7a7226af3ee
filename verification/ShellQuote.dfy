/** shellJoin (execution/docker_executor.go) against a shell word splitter written from
    sections 2.2.1 to 2.2.3 of the POSIX.1-2017 Shell Command Language. */
module ShellQuote {
  import opened Text

  // ---------------------------------------------------------------- quoting

  /** strings.ReplaceAll(a, "'", `'"'"'`). */
  function EscapeQuotes(a: string): string
  {
    if a == [] then [] else (if a[0] == '\'' then "'\"'\"'" else [a[0]]) + EscapeQuotes(a[1..])
  }

  function Quote(a: string): string
  {
    "'" + EscapeQuotes(a) + "'"
  }

  function Join(words: seq<string>, sep: string): string
  {
    if words == [] then "" else if |words| == 1 then words[0] else words[0] + sep + Join(words[1..], sep)
  }

  function Quoted(args: seq<string>): (qs: seq<string>)
    ensures |qs| == |args|
    ensures forall i :: 0 <= i < |args| ==> qs[i] == Quote(args[i])
  {
    seq(|args|, i requires 0 <= i < |args| => Quote(args[i]))
  }

  // ---------------------------------------------------------------- splitting

  /** Outside quotes, inside '...' and inside "...". */
  datatype Mode = Plain | Single | Double

  /** Unquoted characters that end a word, start an expansion or are an operator. */
  predicate Special(c: char)
  {
    c in {'|', '&', ';', '<', '>', '(', ')', '$', '`', '\n', '*', '?', '[', '#', '~'}
  }

  function Grow(word: Option<string>, c: char): Option<string>
  {
    Some((if word.Some? then word.value else "") + [c])
  }

  function Open(word: Option<string>): Option<string>
  {
    Some(if word.Some? then word.value else "")
  }

  function Flush(word: Option<string>, words: seq<string>): seq<string>
  {
    if word.Some? then words + [word.value] else words
  }

  /** The words of a command line, or None where it is more than a list of literal words: an
      unterminated quote, an operator or an expansion. word is the word being built. */
  function Split(s: string, mode: Mode, word: Option<string>, words: seq<string>): Option<seq<string>>
    decreases |s|
  {
    if s == [] then if mode.Plain? then Some(Flush(word, words)) else None
    else
      var c, rest := s[0], s[1..];
      match mode
      case Plain =>
        if c == ' ' || c == '\t' then Split(rest, Plain, None, Flush(word, words))
        else if c == '\'' then Split(rest, Single, Open(word), words)
        else if c == '"' then Split(rest, Double, Open(word), words)
        else if c == '\\' then
          if rest == [] then None
          else if rest[0] == '\n' then Split(rest[1..], Plain, word, words)
          else Split(rest[1..], Plain, Grow(word, rest[0]), words)
        else if Special(c) then None
        else Split(rest, Plain, Grow(word, c), words)
      case Single =>
        if c == '\'' then Split(rest, Plain, word, words) else Split(rest, Single, Grow(word, c), words)
      case Double =>
        if c == '"' then Split(rest, Plain, word, words)
        else if c == '$' || c == '`' then None
        else if c == '\\' && rest != [] && rest[0] in {'"', '\\', '$', '`'} then
          Split(rest[1..], Double, Grow(word, rest[0]), words)
        else if c == '\\' && rest != [] && rest[0] == '\n' then Split(rest[1..], Double, word, words)
        else Split(rest, Double, Grow(word, c), words)
  }

  function ShellWords(s: string): Option<seq<string>>
  {
    Split(s, Plain, None, [])
  }

  // ---------------------------------------------------------------- round trip

  /** An escaped single quote leaves single quotes, double-quotes one quote and goes back. */
  lemma EscapedQuote(rest: string, w: string, words: seq<string>)
    ensures Split("'\"'\"'" + rest, Single, Some(w), words) == Split(rest, Single, Some(w + "'"), words)
  {
    var s := "'\"'\"'" + rest;
    assert s[1..] == "\"'\"'" + rest;
    assert s[1..][1..] == "'\"'" + rest;
    assert s[1..][1..][1..] == "\"'" + rest;
    assert s[1..][1..][1..][1..] == "'" + rest;
    assert s[1..][1..][1..][1..][1..] == rest;
    assert Split(s, Single, Some(w), words) == Split(s[1..], Plain, Some(w), words);
    assert Split(s[1..], Plain, Some(w), words) == Split(s[1..][1..], Double, Some(w), words);
    assert Split(s[1..][1..], Double, Some(w), words) == Split(s[1..][1..][1..], Double, Some(w + "'"), words);
    assert Split(s[1..][1..][1..], Double, Some(w + "'"), words) ==
        Split(s[1..][1..][1..][1..], Plain, Some(w + "'"), words);
    assert Split(s[1..][1..][1..][1..], Plain, Some(w + "'"), words) == Split(rest, Single, Some(w + "'"), words);
  }

  lemma {:induction false} InsideQuotes(a: string, rest: string, w: string, words: seq<string>)
    ensures Split(EscapeQuotes(a) + rest, Single, Some(w), words) == Split(rest, Single, Some(w + a), words)
    decreases a
  {
    if a == [] {
      assert EscapeQuotes(a) + rest == rest && w + a == w;
    } else {
      var tail := EscapeQuotes(a[1..]) + rest;
      assert w + a == w + [a[0]] + a[1..];
      if a[0] == '\'' {
        assert EscapeQuotes(a) + rest == "'\"'\"'" + tail;
        EscapedQuote(tail, w, words);
        assert w + "'" == w + [a[0]];
      } else {
        assert EscapeQuotes(a) + rest == [a[0]] + tail;
        assert ([a[0]] + tail)[1..] == tail;
      }
      InsideQuotes(a[1..], rest, w + [a[0]], words);
    }
  }

  lemma QuotedWord(a: string, rest: string, words: seq<string>)
    ensures Split(Quote(a) + rest, Plain, None, words) == Split(rest, Plain, Some(a), words)
  {
    var body := EscapeQuotes(a) + ("'" + rest);
    assert Quote(a) + rest == "'" + body && ("'" + body)[1..] == body;
    InsideQuotes(a, "'" + rest, "", words);
    assert "" + a == a;
    assert ("'" + rest)[1..] == rest;
  }

  lemma {:induction false} JoinedWords(args: seq<string>, words: seq<string>)
    requires args != []
    ensures Split(Join(Quoted(args), " "), Plain, None, words) == Some(words + args)
    decreases |args|
  {
    if |args| == 1 {
      assert Quote(args[0]) + "" == Quote(args[0]);
      QuotedWord(args[0], "", words);
      assert args == [args[0]];
    } else {
      var more := Join(Quoted(args[1..]), " ");
      assert Quoted(args)[1..] == Quoted(args[1..]);
      assert Join(Quoted(args), " ") == Quote(args[0]) + (" " + more);
      QuotedWord(args[0], " " + more, words);
      assert (" " + more)[1..] == more;
      JoinedWords(args[1..], words + [args[0]]);
      assert words + [args[0]] + args[1..] == words + args;
    }
  }

  /** Splitting what shellJoin builds gives back exactly the arguments, for every list of
      strings: empty ones, ones full of quotes, blanks, newlines, dollars and backslashes. */
  lemma ShellJoinRoundTrip(args: seq<string>)
    ensures ShellWords(Join(Quoted(args), " ")) == Some(args)
  {
    if args == [] {
      assert Quoted(args) == [];
    } else {
      JoinedWords(args, []);
      assert [] + args == args;
    }
  }

  /** shellJoin: the loop that fills the slice of quoted arguments, then the join. */
  method ShellJoin(args: seq<string>) returns (line: string)
    ensures ShellWords(line) == Some(args)
  {
    var quoted: seq<string> := [];
    var i := 0;
    while i < |args|
      invariant 0 <= i <= |args| && |quoted| == i
      invariant forall k :: 0 <= k < i ==> quoted[k] == Quote(args[k])
    {
      quoted := quoted + [Quote(args[i])];
      i := i + 1;
    }
    assert quoted == Quoted(args);
    line := Join(quoted, " ");
    ShellJoinRoundTrip(args);
  }
}
