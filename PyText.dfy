/**
 * The few Python `str` operations the ledger code relies on, written out
 * for strings of Unicode characters: `split` with a one-character
 * separator, `replace` of one character, `upper`, `strip`, the text
 * grammar accepted by `float(...)`, and the way iterating over a text file
 * cuts its contents into lines.
 */
module PyText {

  // ---------------------------------------------------------------------
  // Counting and concatenation
  // ---------------------------------------------------------------------

  /** Number of occurrences of `c` in `s`. */
  function Count(s: string, c: char): nat
  {
    if s == [] then 0 else (if s[0] == c then 1 else 0) + Count(s[1..], c)
  }

  lemma {:induction false} CountAppend(a: string, b: string, c: char)
    ensures Count(a + b, c) == Count(a, c) + Count(b, c)
  {
    if a == [] {
      assert a + b == b;
    } else {
      assert (a + b)[1..] == a[1..] + b;
      CountAppend(a[1..], b, c);
    }
  }

  lemma {:induction false} CountZero(s: string, c: char)
    ensures Count(s, c) == 0 <==> c !in s
  {
    if s != [] {
      CountZero(s[1..], c);
      assert s == [s[0]] + s[1..];
    }
  }

  /** Concatenation of a list of strings, as `"".join(parts)`. */
  function Concat(parts: seq<string>): string
  {
    if parts == [] then [] else parts[0] + Concat(parts[1..])
  }

  /** `sep.join(parts)` for a one-character separator. */
  function Join(parts: seq<string>, sep: char): string
  {
    if parts == [] then []
    else if |parts| == 1 then parts[0]
    else parts[0] + [sep] + Join(parts[1..], sep)
  }

  // ---------------------------------------------------------------------
  // str.split with a one-character separator
  // ---------------------------------------------------------------------

  /**
   * `s.split(sep)` where `sep` is a single character: the pieces between
   * consecutive separators, always at least one piece (`"".split(",")` is
   * `[""]`).
   */
  function Split(s: string, sep: char): (parts: seq<string>)
    ensures |parts| == Count(s, sep) + 1
    ensures forall i :: 0 <= i < |parts| ==> sep !in parts[i]
    ensures Join(parts, sep) == s
  {
    if s == [] then [[]]
    else
      var rest := Split(s[1..], sep);
      if s[0] == sep then
        assert [s[0]] + s[1..] == s;
        [[]] + rest
      else
        assert [s[0]] + rest[0] + Join(rest, sep)[|rest[0]|..] == s by {
          JoinHead(rest, sep);
          assert s == [s[0]] + s[1..];
        }
        var parts := [[s[0]] + rest[0]] + rest[1..];
        JoinConsHead(rest, sep, s[0]);
        parts
  }

  lemma {:induction false} JoinHead(parts: seq<string>, sep: char)
    requires parts != []
    ensures |parts[0]| <= |Join(parts, sep)|
    ensures Join(parts, sep) == parts[0] + Join(parts, sep)[|parts[0]|..]
  {
  }

  lemma {:induction false} JoinConsHead(parts: seq<string>, sep: char, c: char)
    requires parts != []
    ensures Join([[c] + parts[0]] + parts[1..], sep) == [c] + Join(parts, sep)
  {
    var q := [[c] + parts[0]] + parts[1..];
    assert q[1..] == parts[1..];
    if |parts| == 1 {
    } else {
      assert Join(q, sep) == [c] + parts[0] + [sep] + Join(parts[1..], sep);
    }
  }

  /** A prefix without the separator becomes the first piece of the split. */
  lemma {:induction false} SplitAfterField(a: string, sep: char, t: string)
    requires sep !in a
    ensures Split(a + [sep] + t, sep) == [a] + Split(t, sep)
  {
    if a == [] {
      assert a + [sep] + t == [sep] + t;
      assert ([sep] + t)[1..] == t;
    } else {
      var s := a + [sep] + t;
      assert s[0] == a[0] && s[0] != sep;
      assert s[1..] == a[1..] + [sep] + t;
      SplitAfterField(a[1..], sep, t);
      assert [a[0]] + a[1..] == a;
    }
  }

  /** A string without the separator splits into itself. */
  lemma {:induction false} SplitNoSeparator(a: string, sep: char)
    requires sep !in a
    ensures Split(a, sep) == [a]
  {
    CountZero(a, sep);
    var parts := Split(a, sep);
    assert |parts| == 1;
    assert Join(parts, sep) == parts[0];
  }

  // ---------------------------------------------------------------------
  // str.replace with one-character arguments
  // ---------------------------------------------------------------------

  /** `s.replace(from, to)` for one-character `from` and `to`: every occurrence is replaced. */
  function ReplaceChar(s: string, from: char, to: char): (r: string)
    ensures |r| == |s|
    ensures forall i :: 0 <= i < |s| ==> r[i] == (if s[i] == from then to else s[i])
  {
    if s == [] then [] else [if s[0] == from then to else s[0]] + ReplaceChar(s[1..], from, to)
  }

  /** `s.replace(c, "")`: every occurrence of `c` is deleted. */
  function RemoveChar(s: string, c: char): (r: string)
    ensures c !in r
    ensures |r| == |s| - Count(s, c)
    ensures c !in s ==> r == s
  {
    if s == [] then [] else (if s[0] == c then [] else [s[0]]) + RemoveChar(s[1..], c)
  }

  /**
   * Deleting `c` works piece by piece: on a concatenation it is the
   * concatenation of the pieces with `c` deleted, so every other character
   * is kept, in order.
   */
  lemma {:induction false} RemoveCharAppend(a: string, b: string, c: char)
    ensures RemoveChar(a + b, c) == RemoveChar(a, c) + RemoveChar(b, c)
  {
    if a == [] {
      assert a + b == b;
    } else {
      assert (a + b)[1..] == a[1..] + b;
      RemoveCharAppend(a[1..], b, c);
    }
  }

  // ---------------------------------------------------------------------
  // str.upper
  // ---------------------------------------------------------------------

  /**
   * Upper-case mapping of one character as `str.upper` performs it for
   * ASCII and Latin-1 letters; `ß` becomes the two letters `SS`.
   */
  function UpperChar(c: char): (r: string)
    ensures 1 <= |r| <= 2
  {
    if 'a' <= c <= 'z' then [(c as int - 32) as char]
    else if c == '\U{00DF}' then "SS"
    else if ('\U{00E0}' <= c <= '\U{00F6}') || ('\U{00F8}' <= c <= '\U{00FE}') then [(c as int - 32) as char]
    else if c == '\U{00FF}' then ['\U{0178}']
    else if c == '\U{00B5}' then ['\U{039C}']
    else [c]
  }

  /** `s.upper()`. */
  function Upper(s: string): (r: string)
    ensures |s| <= |r| <= 2 * |s|
    ensures r == [] <==> s == []
  {
    if s == [] then [] else UpperChar(s[0]) + Upper(s[1..])
  }

  /** Whether `c` is an ASCII letter a-z or A-Z. */
  predicate IsAsciiLetter(c: char)
  {
    'a' <= c <= 'z' || 'A' <= c <= 'Z'
  }

  /** Lower-casing of ASCII letters only, as `float(...)` compares `inf` and `nan`. */
  function AsciiLower(s: string): (r: string)
    ensures |r| == |s|
  {
    if s == [] then []
    else [if 'A' <= s[0] <= 'Z' then (s[0] as int + 32) as char else s[0]] + AsciiLower(s[1..])
  }

  // ---------------------------------------------------------------------
  // Whitespace and strip
  // ---------------------------------------------------------------------

  /** The characters Python treats as whitespace (`str.isspace`). */
  predicate IsPySpace(c: char)
  {
    ('\U{0009}' <= c <= '\U{000D}') || ('\U{001C}' <= c <= '\U{001F}') || c == ' '
    || c == '\U{0085}' || c == '\U{00A0}' || c == '\U{1680}'
    || ('\U{2000}' <= c <= '\U{200A}') || c == '\U{2028}' || c == '\U{2029}'
    || c == '\U{202F}' || c == '\U{205F}' || c == '\U{3000}'
  }

  /** `s.lstrip()`: the suffix left once leading whitespace is removed. */
  function PyLStrip(s: string): (r: string)
    ensures |r| <= |s| && r == s[|s| - |r|..]
    ensures r == [] || !IsPySpace(r[0])
    ensures forall i :: 0 <= i < |s| - |r| ==> IsPySpace(s[i])
  {
    if s != [] && IsPySpace(s[0]) then PyLStrip(s[1..]) else s
  }

  /** `s.rstrip()`: the prefix left once trailing whitespace is removed. */
  function PyRStrip(s: string): (r: string)
    ensures |r| <= |s| && r == s[..|r|]
    ensures r == [] || !IsPySpace(r[|r| - 1])
    ensures forall i :: |r| <= i < |s| ==> IsPySpace(s[i])
  {
    if s != [] && IsPySpace(s[|s| - 1]) then PyRStrip(s[..|s| - 1]) else s
  }

  /** `s.strip()`. */
  function PyStrip(s: string): string
  {
    PyRStrip(PyLStrip(s))
  }

  // ---------------------------------------------------------------------
  // The text accepted by float(...)
  // ---------------------------------------------------------------------

  predicate IsAsciiDigit(c: char)
  {
    '0' <= c <= '9'
  }

  /**
   * Length of the longest prefix of `s` of the form
   * `digit (["_"] digit)*`, Python's `digitpart`; 0 when `s` does not start
   * with a digit.
   */
  function DigitPartLength(s: string): (n: nat)
    ensures n <= |s|
    ensures n > 0 ==> IsAsciiDigit(s[0]) && IsAsciiDigit(s[n - 1])
    ensures n == 0 <==> (s == [] || !IsAsciiDigit(s[0]))
  {
    if s != [] && IsAsciiDigit(s[0]) then 1 + DigitPartTail(s[1..]) else 0
  }

  function DigitPartTail(s: string): (n: nat)
    ensures n <= |s|
    ensures n > 0 ==> IsAsciiDigit(s[n - 1])
    decreases |s|
  {
    if s != [] && IsAsciiDigit(s[0]) then 1 + DigitPartTail(s[1..])
    else if |s| >= 2 && s[0] == '_' && IsAsciiDigit(s[1]) then 2 + DigitPartTail(s[2..])
    else 0
  }

  /** Whether all of `s` is an exponent: `("e" | "E") [sign] digitpart`. */
  predicate IsExponent(s: string)
  {
    |s| >= 2 && (s[0] == 'e' || s[0] == 'E')
    && var t := if s[1] == '+' || s[1] == '-' then s[2..] else s[1..];
       t != [] && DigitPartLength(t) == |t|
  }

  /**
   * Whether all of `s` is a `floatnumber`:
   * `([digitpart] "." digitpart | digitpart ["."]) [exponent]`.
   */
  predicate IsFloatNumber(s: string)
  {
    var a := DigitPartLength(s);
    var rest := s[a..];
    if rest != [] && rest[0] == '.' then
      var b := DigitPartLength(rest[1..]);
      (a > 0 || b > 0) && (rest[1 + b..] == [] || IsExponent(rest[1 + b..]))
    else
      a > 0 && (rest == [] || IsExponent(rest))
  }

  /** Whether `float(s)` returns instead of raising `ValueError` (ASCII digits only). */
  predicate IsPyFloat(s: string)
  {
    var t := PyStrip(s);
    var u := if t != [] && (t[0] == '+' || t[0] == '-') then t[1..] else t;
    var w := AsciiLower(u);
    w == "inf" || w == "infinity" || w == "nan" || IsFloatNumber(u)
  }

  // ---------------------------------------------------------------------
  // Iterating over a text file
  // ---------------------------------------------------------------------

  /** Length of the first line of non-empty `s`, its newline included. */
  function LineLength(s: string): (k: nat)
    requires s != []
    ensures 1 <= k <= |s|
    ensures '\n' !in s[..k - 1]
    ensures s[k - 1] == '\n' || k == |s|
  {
    if s[0] == '\n' || |s| == 1 then 1
    else
      var k := 1 + LineLength(s[1..]);
      assert s[..k - 1] == [s[0]] + s[1..][..k - 2];
      k
  }

  /** A line as file iteration yields it: ends in its only newline, or is the final unterminated line. */
  predicate IsLine(line: string)
  {
    line != [] && '\n' !in line[..|line| - 1]
  }

  /**
   * The lines `for line in f` yields for a file holding `s`: each keeps its
   * newline; the last one may have none.
   */
  function Lines(s: string): (ls: seq<string>)
    ensures |ls| <= |s|
    decreases |s|
  {
    if s == [] then []
    else
      var k := LineLength(s);
      [s[..k]] + Lines(s[k..])
  }

  /**
   * The lines put back together are the file, each is a line, and every
   * line but the last ends in its newline.
   */
  lemma {:induction false} LinesPartitionFile(s: string)
    ensures var ls := Lines(s);
            && Concat(ls) == s
            && forall i :: 0 <= i < |ls| ==> IsLine(ls[i]) && (i < |ls| - 1 ==> ls[i][|ls[i]| - 1] == '\n')
    decreases |s|
  {
    if s != [] {
      var k := LineLength(s);
      LinesPartitionFile(s[k..]);
      FirstLineIsLine(s);
      SplitAt(s, k);
      var ls := Lines(s);
      var rest := Lines(s[k..]);
      assert ls[1..] == rest;
      forall i | 0 <= i < |ls| ensures IsLine(ls[i]) && (i < |ls| - 1 ==> ls[i][|ls[i]| - 1] == '\n') {
        if i > 0 {
          assert ls[i] == rest[i - 1];
        }
      }
    }
  }

  lemma SplitAt(s: string, k: nat)
    requires k <= |s|
    ensures s[..k] + s[k..] == s
  {
  }

  /** The first line of non-empty contents is a line, ending in a newline unless it is all of them. */
  lemma FirstLineIsLine(s: string)
    requires s != []
    ensures var k := LineLength(s);
            && IsLine(s[..k])
            && (k < |s| ==> s[..k][k - 1] == '\n')
  {
    var k := LineLength(s);
    assert s[..k][..k - 1] == s[..k - 1];
    assert s[..k][k - 1] == s[k - 1];
  }

  lemma {:induction false} LineLengthExtend(s: string, t: string)
    requires s != [] && '\n' in s
    ensures LineLength(s + t) == LineLength(s)
  {
    if s[0] != '\n' {
      assert |s| > 1;
      assert (s + t)[1..] == s[1..] + t;
      assert '\n' in s[1..] by {
        var j :| 0 <= j < |s| && s[j] == '\n';
        assert s[1..][j - 1] == '\n';
      }
      LineLengthExtend(s[1..], t);
    }
  }

  /**
   * Appending one complete line to contents that are empty or end in a
   * newline adds exactly that line to what iteration yields.
   */
  lemma {:induction false} LinesAppendLine(s: string, line: string)
    requires s == [] || s[|s| - 1] == '\n'
    requires IsLine(line) && line[|line| - 1] == '\n'
    ensures Lines(s + line) == Lines(s) + [line]
    decreases |s|
  {
    if s == [] {
      assert s + line == line;
      LinesSingle(line);
    } else {
      var k := LineLength(s);
      var rest := s[k..];
      FirstLineOfAppend(s, line);
      LinesAppendLine(rest, line);
      calc {
        Lines(s + line);
        [s[..k]] + Lines(rest + line);
        [s[..k]] + (Lines(rest) + [line]);
        ([s[..k]] + Lines(rest)) + [line];
        Lines(s) + [line];
      }
    }
  }

  /**
   * Contents ending in a newline keep their first line when more is
   * appended, and what follows it still ends in a newline.
   */
  lemma FirstLineOfAppend(s: string, line: string)
    requires s != [] && s[|s| - 1] == '\n'
    ensures var k := LineLength(s);
            && LineLength(s + line) == k
            && (s + line)[..k] == s[..k]
            && (s + line)[k..] == s[k..] + line
            && (s[k..] == [] || s[k..][|s[k..]| - 1] == '\n')
  {
    LineLengthExtend(s, line);
  }

  lemma LinesSingle(line: string)
    requires IsLine(line) && line[|line| - 1] == '\n'
    ensures Lines(line) == [line]
  {
    LineLengthWhole(line);
    var k := LineLength(line);
    assert line[..k] == line;
    assert line[k..] == [];
  }

  lemma LineLengthWhole(line: string)
    requires IsLine(line) && line[|line| - 1] == '\n'
    ensures LineLength(line) == |line|
  {
  }
}
