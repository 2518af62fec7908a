/**
 * Text helpers with the meaning of the Python string methods the application
 * relies on: `strip`, `split`, `join`, `upper`, `lower`, `isdigit`, `in`,
 * `startswith`, `str(int)` and the single-character `replace` used to escape
 * quotes for SQL literals.
 */
module Strings {
  import opened Wrappers

  /** The characters for which Python's `str.isspace()` holds. */
  const Whitespace: set<char> := {
    '\t', '\n', '\U{000B}', '\U{000C}', '\r', '\U{001C}', '\U{001D}', '\U{001E}', '\U{001F}', ' ',
    '\U{0085}', '\U{00A0}', '\U{1680}', '\U{2000}', '\U{2001}', '\U{2002}', '\U{2003}', '\U{2004}',
    '\U{2005}', '\U{2006}', '\U{2007}', '\U{2008}', '\U{2009}', '\U{200A}', '\U{2028}', '\U{2029}',
    '\U{202F}', '\U{205F}', '\U{3000}'
  }

  // ---------------------------------------------------------------------
  // Concatenation

  /** Concatenation is associative. */
  lemma ConcatAssoc<T>(a: seq<T>, b: seq<T>, c: seq<T>)
    ensures (a + b) + c == a + (b + c)
  {
  }

  /** A sequence ends with its last part. */
  lemma SuffixOfConcat<T>(a: seq<T>, b: seq<T>)
    ensures (a + b)[|a + b| - |b|..] == b
  {
  }

  // ---------------------------------------------------------------------
  // strip

  /** `s.lstrip(chars)`: drops the longest prefix made of characters in `cs`. */
  function TrimLeft(s: string, cs: set<char>): (r: string)
    ensures |r| <= |s| && r == s[|s| - |r|..]
    ensures |r| > 0 ==> r[0] !in cs
    ensures forall i :: 0 <= i < |s| - |r| ==> s[i] in cs
    decreases |s|
  {
    if |s| > 0 && s[0] in cs then
      var r := TrimLeft(s[1..], cs);
      assert s[1..][|s| - 1 - |r|..] == s[|s| - |r|..];
      assert forall i :: 1 <= i < |s| - |r| ==> s[i] == s[1..][i - 1];
      r
    else s
  }

  /** `s.rstrip(chars)`: drops the longest suffix made of characters in `cs`. */
  function TrimRight(s: string, cs: set<char>): (r: string)
    ensures |r| <= |s| && r == s[..|r|]
    ensures |r| > 0 ==> r[|r| - 1] !in cs
    ensures forall i :: |r| <= i < |s| ==> s[i] in cs
    decreases |s|
  {
    if |s| > 0 && s[|s| - 1] in cs then
      var r := TrimRight(s[..|s| - 1], cs);
      assert s[..|s| - 1][..|r|] == s[..|r|];
      assert forall i :: |r| <= i < |s| - 1 ==> s[i] == s[..|s| - 1][i];
      r
    else s
  }

  /** `s.strip(chars)`. */
  function StripChars(s: string, cs: set<char>): string {
    TrimRight(TrimLeft(s, cs), cs)
  }

  /** `s.strip()`. */
  function Strip(s: string): string {
    StripChars(s, Whitespace)
  }

  /** `s.strip()` is empty: the text is blank. */
  predicate Blank(s: string) {
    Strip(s) == ""
  }

  /** Stripping from the left stops at the first character not stripped. */
  lemma TrimLeftStops(s: string, cs: set<char>)
    requires s != [] && s[0] !in cs
    ensures TrimLeft(s, cs) == s
  {
  }

  /** A stripped character at the front goes. */
  lemma TrimLeftSkips(c: char, s: string, cs: set<char>)
    requires c in cs
    ensures TrimLeft([c] + s, cs) == TrimLeft(s, cs)
  {
    assert ([c] + s)[1..] == s;
  }

  /** Stripping from the right stops at the last character not stripped. */
  lemma TrimRightStops(s: string, cs: set<char>)
    requires s != [] && s[|s| - 1] !in cs
    ensures TrimRight(s, cs) == s
  {
  }

  /** A stripped character at the back goes. */
  lemma TrimRightSkips(s: string, c: char, cs: set<char>)
    requires c in cs
    ensures TrimRight(s + [c], cs) == TrimRight(s, cs)
  {
    assert (s + [c])[..|s|] == s;
  }

  /** Stripping characters that are at neither end changes nothing. */
  lemma StripNothing(s: string, cs: set<char>)
    requires s != [] ==> s[0] !in cs && s[|s| - 1] !in cs
    ensures StripChars(s, cs) == s
  {
    if s != [] {
      TrimLeftStops(s, cs);
      TrimRightStops(s, cs);
    }
  }

  /** Stripping a text wrapped in two stripped characters, whose own ends are not stripped, unwraps it. */
  lemma StripWrapped(a: char, s: string, b: char, cs: set<char>)
    requires a in cs && b in cs && (s != [] ==> s[0] !in cs && s[|s| - 1] !in cs)
    ensures StripChars([a] + s + [b], cs) == s
  {
    assert [a] + s + [b] == [a] + (s + [b]);
    TrimLeftSkips(a, s + [b], cs);
    if s == [] {
      assert s + [b] == [b] + [];
      TrimLeftSkips(b, [], cs);
    } else {
      assert (s + [b])[0] == s[0];
      TrimLeftStops(s + [b], cs);
      TrimRightSkips(s, b, cs);
      TrimRightStops(s, cs);
    }
  }

  /** Stripping adds no character. */
  lemma StripCharsKeepsOut(s: string, cs: set<char>, c: char)
    requires c !in s
    ensures c !in StripChars(s, cs)
  {
    StripCharsIsInfix(s, cs);
    var k := |s| - |TrimLeft(s, cs)|;
    var t := StripChars(s, cs);
    forall j | 0 <= j < |t| ensures t[j] != c {
      assert t[j] == s[k + j];
    }
  }

  /** Stripping keeps a contiguous piece of the text. */
  lemma StripCharsIsInfix(s: string, cs: set<char>)
    ensures var i := |s| - |TrimLeft(s, cs)|;
      i + |StripChars(s, cs)| <= |s| && StripChars(s, cs) == s[i..i + |StripChars(s, cs)|]
  {
    var l := TrimLeft(s, cs);
    var r := TrimRight(l, cs);
    PrefixOfSuffix(s, l, r);
  }

  /** The ends of a stripped text are not stripped characters. */
  lemma StripCharsEnds(s: string, cs: set<char>)
    ensures |StripChars(s, cs)| > 0 ==> StripChars(s, cs)[0] !in cs && StripChars(s, cs)[|StripChars(s, cs)| - 1] !in cs
  {
    var l := TrimLeft(s, cs);
    var r := TrimRight(l, cs);
    if |r| > 0 {
      assert r == l[..|r|];
      assert r[0] == l[0];
    }
  }

  /** A prefix of a suffix is a slice. */
  lemma PrefixOfSuffix(s: string, l: string, r: string)
    requires |l| <= |s| && l == s[|s| - |l|..] && |r| <= |l| && r == l[..|r|]
    ensures var i := |s| - |l|; i + |r| <= |s| && r == s[i..i + |r|]
    ensures |r| > 0 ==> r[0] == l[0]
  {
  }

  /** Stripping twice is stripping once. */
  lemma StripCharsIdempotent(s: string, cs: set<char>)
    ensures StripChars(StripChars(s, cs), cs) == StripChars(s, cs)
  {
    var r := StripChars(s, cs);
    StripCharsEnds(s, cs);
    if |r| > 0 {
      TrimLeftStops(r, cs);
      TrimRightStops(r, cs);
    }
  }

  /** A text strips to nothing exactly when all of its characters are stripped ones. */
  lemma BlankIff(s: string, cs: set<char>)
    ensures StripChars(s, cs) == "" <==> forall i :: 0 <= i < |s| ==> s[i] in cs
  {
    var l := TrimLeft(s, cs);
    if exists k :: 0 <= k < |s| && s[k] !in cs {
      var k :| 0 <= k < |s| && s[k] !in cs;
      assert l[k - (|s| - |l|)] == s[k];
      var r := TrimRight(l, cs);
      assert |r| > k - (|s| - |l|);
    }
  }

  // ---------------------------------------------------------------------
  // Doubling a quote character (`s.replace("'", "''")`) and reading it back

  /** Number of occurrences of `c` in `s`. */
  function Count(s: string, c: char): nat {
    if s == [] then 0 else (if s[0] == c then 1 else 0) + Count(s[1..], c)
  }

  /** `s.replace(q, q + q)`: every occurrence of `q` is written twice. */
  function Double(s: string, q: char): (r: string)
    ensures |r| == |s| + Count(s, q)
  {
    if s == [] then [] else (if s[0] == q then [q, q] else [s[0]]) + Double(s[1..], q)
  }

  /**
   * Reads the body of a literal quoted with `q` whose opening quote has already
   * been consumed, the way an SQL engine reads `'...'`: a doubled `q` stands for
   * one `q`, a single `q` closes the literal. Gives the body and what follows
   * the closing quote, or `None` when the literal is never closed.
   */
  function ReadQuoted(s: string, q: char): Option<(string, string)>
    decreases |s|
  {
    if s == [] then None
    else if s[0] != q then
      match ReadQuoted(s[1..], q)
      case Some(p) => Some(([s[0]] + p.0, p.1))
      case None => None
    else if |s| >= 2 && s[1] == q then
      match ReadQuoted(s[2..], q)
      case Some(p) => Some(([q] + p.0, p.1))
      case None => None
    else Some(([], s[1..]))
  }

  /**
   * A doubled text followed by a closing quote is read back as the original
   * text, and the literal ends exactly there: an escaped value cannot close
   * its literal early, whatever it contains.
   */
  lemma ReadQuotedDouble(s: string, q: char, rest: string)
    requires rest == [] || rest[0] != q
    ensures ReadQuoted(Double(s, q) + [q] + rest, q) == Some((s, rest))
  {
    assert Double(s, q) + [q] + rest == Double(s, q) + ([q] + rest);
    ReadQuotedDoubleTail(s, q, [q] + rest);
    assert ([q] + rest)[1..] == rest;
  }

  /** The induction behind `ReadQuotedDouble`, over what follows the doubled text. */
  lemma {:induction false} ReadQuotedDoubleTail(s: string, q: char, tail: string)
    requires tail != [] && tail[0] == q && (|tail| == 1 || tail[1] != q)
    ensures ReadQuoted(Double(s, q) + tail, q) == Some((s, tail[1..]))
  {
    if s == [] {
      assert Double(s, q) + tail == tail;
    } else {
      ReadQuotedDoubleTail(s[1..], q, tail);
      var t2 := Double(s[1..], q) + tail;
      DoubleAppend(s, q, tail);
      if s[0] == q {
        ReadQuotedEscaped(s, q, t2, tail[1..]);
      } else {
        ReadQuotedPlain(s, q, t2, tail[1..]);
      }
    }
  }

  /** Doubling a non-empty text followed by `tail`, one character at a time. */
  lemma DoubleAppend(s: string, q: char, tail: string)
    requires s != []
    ensures Double(s, q) + tail == (if s[0] == q then [q, q] else [s[0]]) + (Double(s[1..], q) + tail)
  {
  }

  /** A doubled quote inside a literal reads as one quote. */
  lemma ReadQuotedEscaped(s: string, q: char, t2: string, rest: string)
    requires s != [] && s[0] == q && ReadQuoted(t2, q) == Some((s[1..], rest))
    ensures ReadQuoted([q, q] + t2, q) == Some((s, rest))
  {
    var w := [q, q] + t2;
    assert w[0] == q && w[1] == q && w[2..] == t2;
    assert [q] + s[1..] == s;
  }

  /** Any other character inside a literal reads as itself. */
  lemma ReadQuotedPlain(s: string, q: char, t2: string, rest: string)
    requires s != [] && s[0] != q && ReadQuoted(t2, q) == Some((s[1..], rest))
    ensures ReadQuoted([s[0]] + t2, q) == Some((s, rest))
  {
    var w := [s[0]] + t2;
    assert w[0] == s[0] && w[1..] == t2;
    assert [s[0]] + s[1..] == s;
  }

  // ---------------------------------------------------------------------
  // split / join

  /** `s.split(sep)` for a one-character separator. */
  function Split(s: string, sep: char): (r: seq<string>)
    ensures |r| == Count(s, sep) + 1
    ensures forall i :: 0 <= i < |r| ==> sep !in r[i]
  {
    if s == [] then [""]
    else if s[0] == sep then [""] + Split(s[1..], sep)
    else
      var rest := Split(s[1..], sep);
      [[s[0]] + rest[0]] + rest[1..]
  }

  /** `sep.join(parts)`. */
  function Join(parts: seq<string>, sep: string): string {
    if |parts| == 0 then ""
    else if |parts| == 1 then parts[0]
    else parts[0] + sep + Join(parts[1..], sep)
  }

  /** A join of at least two pieces ends with the separator and the last piece. */
  lemma {:induction false} JoinLast(parts: seq<string>, sep: string)
    requires |parts| >= 2
    ensures Join(parts, sep) == Join(parts[..|parts| - 1], sep) + sep + parts[|parts| - 1]
  {
    if |parts| > 2 {
      JoinLast(parts[1..], sep);
      assert parts[1..][..|parts| - 2] == parts[..|parts| - 1][1..];
    }
  }

  /** Joining the pieces of a split with the separator gives back the text. */
  lemma {:induction false} JoinSplit(s: string, sep: char)
    ensures Join(Split(s, sep), [sep]) == s
  {
    if s == [] {
    } else if s[0] == sep {
      JoinSplit(s[1..], sep);
      assert Split(s, sep) == [""] + Split(s[1..], sep);
    } else {
      JoinSplit(s[1..], sep);
      var rest := Split(s[1..], sep);
      assert Split(s, sep) == [[s[0]] + rest[0]] + rest[1..];
      if |rest| == 1 {
        assert Join(rest, [sep]) == rest[0];
      } else {
        assert Join(rest, [sep]) == rest[0] + [sep] + Join(rest[1..], [sep]);
        assert ([[s[0]] + rest[0]] + rest[1..])[1..] == rest[1..];
      }
    }
  }

  /** Splitting a text that starts with a piece free of the separator keeps that piece at the front. */
  lemma {:induction false} SplitPrefix(a: string, rest: string, sep: char)
    requires sep !in a
    ensures Split(a + rest, sep) == [a + Split(rest, sep)[0]] + Split(rest, sep)[1..]
  {
    if a != [] {
      SplitPrefix(a[1..], rest, sep);
      var t := Split(rest, sep);
      var r := Split(a[1..] + rest, sep);
      assert (a + rest)[1..] == a[1..] + rest;
      assert (a + rest)[0] == a[0] != sep;
      assert Split(a + rest, sep) == [[a[0]] + r[0]] + r[1..];
      assert r[0] == a[1..] + t[0] && r[1..] == t[1..];
      assert [a[0]] + (a[1..] + t[0]) == a + t[0];
    } else {
      var t := Split(rest, sep);
      assert a + rest == rest;
      assert t == [t[0]] + t[1..];
      assert a + t[0] == t[0];
    }
  }

  /** A text without the separator splits into itself alone. */
  lemma SplitNoSeparator(a: string, sep: char)
    requires sep !in a
    ensures Split(a, sep) == [a]
  {
    SplitPrefix(a, [], sep);
    assert a + [] == a;
  }

  /** Splitting at the first separator. */
  lemma SplitAtSeparator(a: string, b: string, sep: char)
    requires sep !in a
    ensures Split(a + [sep] + b, sep) == [a] + Split(b, sep)
  {
    SplitPrefix(a, [sep] + b, sep);
    assert a + [sep] + b == a + ([sep] + b);
    assert ([sep] + b)[1..] == b;
    assert Split([sep] + b, sep) == [""] + Split(b, sep);
    assert a + "" == a;
  }

  /** Splitting a join of separator-free pieces gives back the pieces. */
  lemma {:induction false} SplitJoin(parts: seq<string>, sep: char)
    requires |parts| > 0
    requires forall i :: 0 <= i < |parts| ==> sep !in parts[i]
    ensures Split(Join(parts, [sep]), sep) == parts
  {
    if |parts| == 1 {
      SplitNoSeparator(parts[0], sep);
    } else {
      SplitJoin(parts[1..], sep);
      SplitAtSeparator(parts[0], Join(parts[1..], [sep]), sep);
      assert parts == [parts[0]] + parts[1..];
    }
  }

  /** Doubling works character by character, so it distributes over concatenation. */
  lemma {:induction false} DoubleConcat(a: string, b: string, q: char)
    ensures Double(a + b, q) == Double(a, q) + Double(b, q)
  {
    if a == [] {
      assert a + b == b;
    } else {
      var t := a[1..];
      var h := if a[0] == q then [q, q] else [a[0]];
      DoubleConcat(t, b, q);
      DoubleHead(a, q);
      DoubleHead(a + b, q);
      assert (a + b)[0] == a[0] && (a + b)[1..] == t + b;
      ConcatAssoc(h, Double(t, q), Double(b, q));
    }
  }

  /** Doubling a non-empty text: its first character, then the rest. */
  lemma DoubleHead(s: string, q: char)
    requires s != []
    ensures Double(s, q) == (if s[0] == q then [q, q] else [s[0]]) + Double(s[1..], q)
  {
  }

  // ---------------------------------------------------------------------
  // splitlines

  /** The characters at which Python's `str.splitlines()` ends a line. */
  const LineBreaks: set<char> := {
    '\n', '\r', '\U{000B}', '\U{000C}', '\U{001C}', '\U{001D}', '\U{001E}', '\U{0085}', '\U{2028}', '\U{2029}'
  }

  /** The length of the first line: the position of the first break, or the whole text. */
  function LineEnd(s: string, breaks: set<char>): (n: nat)
    ensures n <= |s|
    ensures forall k :: 0 <= k < n ==> s[k] !in breaks
    ensures n < |s| ==> s[n] in breaks
  {
    if s == [] || s[0] in breaks then 0 else 1 + LineEnd(s[1..], breaks)
  }

  /**
   * The lines of a text ended at the given breaks, `\r\n` counting as one
   * break; a final break does not start another line, and the empty text
   * has no lines.
   */
  function LinesAt(s: string, breaks: set<char>): seq<string>
    decreases |s|
  {
    if s == [] then []
    else
      var n := LineEnd(s, breaks);
      if n == |s| then [s]
      else
        var skip := if s[n] == '\r' && n + 1 < |s| && s[n + 1] == '\n' then 2 else 1;
        [s[..n]] + LinesAt(s[n + skip..], breaks)
  }

  /** `s.splitlines()`. */
  function SplitLines(s: string): seq<string> {
    LinesAt(s, LineBreaks)
  }

  /** No line holds a break. */
  lemma {:induction false} LinesAtNoBreaks(s: string, breaks: set<char>)
    ensures forall i, k :: 0 <= i < |LinesAt(s, breaks)| && 0 <= k < |LinesAt(s, breaks)[i]| ==>
      LinesAt(s, breaks)[i][k] !in breaks
    decreases |s|
  {
    if s != [] {
      var n := LineEnd(s, breaks);
      if n < |s| {
        var skip := if s[n] == '\r' && n + 1 < |s| && s[n + 1] == '\n' then 2 else 1;
        var rest := LinesAt(s[n + skip..], breaks);
        LinesAtNoBreaks(s[n + skip..], breaks);
        var r := LinesAt(s, breaks);
        assert r == [s[..n]] + rest;
        forall i, k | 0 <= i < |r| && 0 <= k < |r[i]| ensures r[i][k] !in breaks {
          if i == 0 {
            assert r[0] == s[..n] && k < n;
            assert r[0][k] == s[k];
          } else {
            assert r[i] == rest[i - 1];
          }
        }
      }
    }
  }

  /** A line free of breaks followed by a break (or by nothing) ends where the line does. */
  lemma {:induction false} LineEndOf(line: string, rest: string, breaks: set<char>)
    requires forall k :: 0 <= k < |line| ==> line[k] !in breaks
    requires rest == [] || rest[0] in breaks
    ensures LineEnd(line + rest, breaks) == |line|
  {
    if line != [] {
      assert (line + rest)[1..] == line[1..] + rest;
      LineEndOf(line[1..], rest, breaks);
    } else {
      assert line + rest == rest;
    }
  }

  /** A text is its part before a position, the character there and its part after. */
  lemma SliceAround(t: string, n: nat)
    requires n < |t|
    ensures t == t[..n] + [t[n]] + t[n + 1..]
  {
  }

  /** A line ended by a lone `\n` is the first line, and the lines after it follow. */
  lemma LinesAtNewline(t: string, breaks: set<char>)
    requires LineEnd(t, breaks) < |t| && t[LineEnd(t, breaks)] == '\n'
    ensures LinesAt(t, breaks) == [t[..LineEnd(t, breaks)]] + LinesAt(t[LineEnd(t, breaks) + 1..], breaks)
  {
  }

  /** Non-empty lines free of breaks, joined by `\n`, split back into the same lines. */
  lemma {:induction false} LinesAtJoin(lines: seq<string>, breaks: set<char>)
    requires '\n' in breaks
    requires forall i :: 0 <= i < |lines| ==> |lines[i]| > 0
    requires forall i, k :: 0 <= i < |lines| && 0 <= k < |lines[i]| ==> lines[i][k] !in breaks
    ensures LinesAt(Join(lines, "\n"), breaks) == lines
  {
    if |lines| == 1 {
      LineEndOf(lines[0], [], breaks);
      assert lines[0] + [] == lines[0];
    } else if |lines| > 1 {
      var l := lines[0];
      var rest := Join(lines[1..], "\n");
      var s := Join(lines, "\n");
      assert s == l + ("\n" + rest);
      LineEndOf(l, "\n" + rest, breaks);
      assert s[|l|] == '\n';
      assert s[|l| + 1..] == rest;
      LinesAtNewline(s, breaks);
      LinesAtJoin(lines[1..], breaks);
      assert lines == [l] + lines[1..];
    }
  }

  /**
   * On a non-empty text whose only break is `\n` and that does not end with
   * one, the lines and `split("\n")` agree.
   */
  lemma {:induction false} LinesAtIsSplit(t: string, breaks: set<char>)
    requires '\n' in breaks && t != [] && t[|t| - 1] != '\n'
    requires forall k :: 0 <= k < |t| && t[k] in breaks ==> t[k] == '\n'
    ensures LinesAt(t, breaks) == Split(t, '\n')
    decreases |t|
  {
    var n := LineEnd(t, breaks);
    if n == |t| {
      assert '\n' !in t by {
        forall k | 0 <= k < |t| ensures t[k] != '\n' {
          assert t[k] !in breaks;
        }
      }
      SplitNoSeparator(t, '\n');
    } else {
      var a := t[..n];
      var b := t[n + 1..];
      assert LinesAt(t, breaks) == [a] + LinesAt(b, breaks) by {
        LinesAtNewline(t, breaks);
      }
      assert Split(t, '\n') == [a] + Split(b, '\n') by {
        assert '\n' !in a by {
          forall k | 0 <= k < |a| ensures a[k] != '\n' {
            assert a[k] == t[k];
          }
        }
        SliceAround(t, n);
        SplitAtSeparator(a, b, '\n');
      }
      assert b != [] && b[|b| - 1] != '\n' && forall k :: 0 <= k < |b| && b[k] in breaks ==> b[k] == '\n' by {
        assert forall k :: 0 <= k < |b| ==> b[k] == t[n + 1 + k];
      }
      LinesAtIsSplit(b, breaks);
    }
  }

  // ---------------------------------------------------------------------
  // Searching

  /** `p` occurs in `s` at position `j`. */
  predicate OccursAt(s: string, p: string, j: int) {
    0 <= j && j + |p| <= |s| && s[j..j + |p|] == p
  }

  /** `s.startswith(p)`. */
  predicate StartsWith(s: string, p: string) {
    OccursAt(s, p, 0)
  }

  /** The first position at or after `k` where `p` occurs in `s` (`s.find(p, k)`). */
  function FindFrom(s: string, p: string, k: nat): (r: Option<nat>)
    ensures r.Some? ==> k <= r.value && OccursAt(s, p, r.value)
    ensures r.Some? ==> forall j :: k <= j < r.value ==> !OccursAt(s, p, j)
    ensures r.None? ==> forall j :: k <= j ==> !OccursAt(s, p, j)
    decreases |s| - k
  {
    if k + |p| > |s| then None
    else if s[k..k + |p|] == p then Some(k)
    else FindFrom(s, p, k + 1)
  }

  /** `s.find(p)`, with `None` for -1. */
  function Find(s: string, p: string): Option<nat> {
    FindFrom(s, p, 0)
  }

  /** `p in s` for two strings. */
  predicate Contains(s: string, p: string) {
    Find(s, p).Some?
  }

  /** `p in s` holds exactly when `p` occurs somewhere in `s`. */
  lemma ContainsIff(s: string, p: string)
    ensures Contains(s, p) <==> exists j :: OccursAt(s, p, j)
  {
    if Find(s, p).Some? {
      assert OccursAt(s, p, Find(s, p).value);
    }
  }

  /** A text contains every piece of itself. */
  lemma ContainsInfix(a: string, p: string, b: string)
    ensures Contains(a + p + b, p)
  {
    assert (a + p + b)[|a|..|a| + |p|] == p;
    assert OccursAt(a + p + b, p, |a|);
  }

  /** `s.split(sep, 1)`: the pieces around the first occurrence of `sep`, if any. */
  function SplitOnce(s: string, sep: string): (r: seq<string>)
    requires |sep| > 0
    ensures |r| == 1 || |r| == 2
    ensures |r| == 1 <==> !Contains(s, sep)
    ensures |r| == 1 ==> r[0] == s
    ensures |r| == 2 ==> s == r[0] + sep + r[1] && !Contains(r[0] + sep[..|sep| - 1], sep)
  {
    match Find(s, sep)
    case None => [s]
    case Some(i) =>
      var r := [s[..i], s[i + |sep|..]];
      assert s == r[0] + sep + r[1] by { assert s[i..i + |sep|] == sep; }
      NoEarlierOccurrence(s, sep, i);
      r
  }

  /** Before the first occurrence of `sep`, even with all but its last character appended, `sep` does not occur. */
  lemma NoEarlierOccurrence(s: string, sep: string, i: nat)
    requires |sep| > 0 && Find(s, sep) == Some(i)
    ensures !Contains(s[..i] + sep[..|sep| - 1], sep)
  {
    var t := s[..i] + sep[..|sep| - 1];
    assert s[i..i + |sep|] == sep;
    assert forall k :: 0 <= k < |t| ==> t[k] == s[k];
    forall j | OccursAt(t, sep, j) ensures OccursAt(s, sep, j) && j < i {
      assert t[j..j + |sep|] == s[j..j + |sep|];
    }
    ContainsIff(t, sep);
  }

  // ---------------------------------------------------------------------
  // Case and digits (the ASCII part of Python's definitions)

  function UpperChar(c: char): char {
    if 'a' <= c <= 'z' then (c as int - 'a' as int + 'A' as int) as char else c
  }

  function LowerChar(c: char): char {
    if 'A' <= c <= 'Z' then (c as int - 'A' as int + 'a' as int) as char else c
  }

  /** `s.upper()`. */
  function Upper(s: string): (r: string)
    ensures |r| == |s| && forall i :: 0 <= i < |s| ==> r[i] == UpperChar(s[i])
  {
    seq(|s|, i requires 0 <= i < |s| => UpperChar(s[i]))
  }

  /** `s.lower()`. */
  function Lower(s: string): (r: string)
    ensures |r| == |s| && forall i :: 0 <= i < |s| ==> r[i] == LowerChar(s[i])
  {
    seq(|s|, i requires 0 <= i < |s| => LowerChar(s[i]))
  }

  /** Upper-casing an upper-cased text changes nothing. */
  lemma UpperIdempotent(s: string)
    ensures Upper(Upper(s)) == Upper(s)
  {
    forall i | 0 <= i < |s| ensures Upper(Upper(s))[i] == Upper(s)[i] {
      var c := s[i];
      assert 'a' <= UpperChar(c) <= 'z' ==> 'a' <= c <= 'z';
    }
  }

  predicate IsDigit(c: char) {
    '0' <= c <= '9'
  }

  /** `"".join(filter(str.isdigit, s))`. */
  function DigitsOf(s: string): (r: string)
    ensures |r| <= |s|
    ensures forall i :: 0 <= i < |r| ==> IsDigit(r[i])
  {
    if s == [] then "" else (if IsDigit(s[0]) then [s[0]] else "") + DigitsOf(s[1..])
  }

  /** Filtering digits out of an all-digit text changes nothing, and filtering distributes over concatenation. */
  lemma {:induction false} DigitsOfAppend(a: string, b: string)
    ensures DigitsOf(a + b) == DigitsOf(a) + DigitsOf(b)
  {
    if a == [] {
      assert a + b == b;
    } else {
      assert (a + b)[1..] == a[1..] + b;
      DigitsOfAppend(a[1..], b);
    }
  }

  lemma {:induction false} DigitsOfAllDigits(s: string)
    requires forall i :: 0 <= i < |s| ==> IsDigit(s[i])
    ensures DigitsOf(s) == s
  {
    if s != [] {
      DigitsOfAllDigits(s[1..]);
    }
  }

  function DigitChar(d: nat): char
    requires d < 10
  {
    ('0' as int + d) as char
  }

  function DigitValue(c: char): nat
    requires IsDigit(c)
  {
    c as int - '0' as int
  }

  /** `str(n)` for a natural number. */
  function NatToString(n: nat): (r: string)
    ensures |r| >= 1 && forall i :: 0 <= i < |r| ==> IsDigit(r[i])
  {
    if n < 10 then [DigitChar(n)] else NatToString(n / 10) + [DigitChar(n % 10)]
  }

  /** The number an all-digit text denotes (Python's `int(s)`). */
  function ParseNat(s: string): nat
    requires forall i :: 0 <= i < |s| ==> IsDigit(s[i])
  {
    if s == [] then 0 else 10 * ParseNat(s[..|s| - 1]) + DigitValue(s[|s| - 1])
  }

  /** Reading back a printed number gives the number. */
  lemma {:induction false} ParseNatToString(n: nat)
    ensures ParseNat(NatToString(n)) == n
  {
    if n >= 10 {
      var s := NatToString(n);
      assert s[..|s| - 1] == NatToString(n / 10);
      ParseNatToString(n / 10);
    }
  }

  /** `str(i)` for an integer. */
  function IntToString(i: int): (r: string)
    ensures |r| >= 1
    ensures (r[0] == '-') <==> i < 0
  {
    if i < 0 then "-" + NatToString(-i) else NatToString(i)
  }
}
