/**
 * The JavaScript string operations the recharge form relies on
 * (static/js/script.js): `String.prototype.trim`, the card pattern
 * `/^\d{4,6}$/`, `replace(",", ".")` with a string pattern, and whether
 * `parseFloat(...)` yields a number greater than zero.
 */
module JsText {
  import opened PyText

  // ---------------------------------------------------------------------
  // trim()
  // ---------------------------------------------------------------------

  /**
   * The characters `trim()` removes: ECMAScript WhiteSpace (tab, vertical
   * tab, form feed, the byte order mark and the space separators) and
   * LineTerminator (line feed, carriage return, U+2028, U+2029).
   */
  predicate IsJsSpace(c: char)
  {
    c == '\U{0009}' || c == '\U{000A}' || c == '\U{000B}' || c == '\U{000C}' || c == '\U{000D}'
    || c == ' ' || c == '\U{00A0}' || c == '\U{1680}' || ('\U{2000}' <= c <= '\U{200A}')
    || c == '\U{2028}' || c == '\U{2029}' || c == '\U{202F}' || c == '\U{205F}'
    || c == '\U{3000}' || c == '\U{FEFF}'
  }

  /** `s.trimStart()`: the suffix left once leading white space is removed. */
  function TrimStart(s: string): (r: string)
    ensures |r| <= |s| && r == s[|s| - |r|..]
    ensures r == [] || !IsJsSpace(r[0])
    ensures forall i :: 0 <= i < |s| - |r| ==> IsJsSpace(s[i])
  {
    if s != [] && IsJsSpace(s[0]) then TrimStart(s[1..]) else s
  }

  /** `s.trimEnd()`: the prefix left once trailing white space is removed. */
  function TrimEnd(s: string): (r: string)
    ensures |r| <= |s| && r == s[..|r|]
    ensures r == [] || !IsJsSpace(r[|r| - 1])
    ensures forall i :: |r| <= i < |s| ==> IsJsSpace(s[i])
  {
    if s != [] && IsJsSpace(s[|s| - 1]) then TrimEnd(s[..|s| - 1]) else s
  }

  /**
   * `s.trim()`: the slice of `s` left once the white space before it and
   * after it is removed; it neither starts nor ends with white space, and
   * is empty exactly when `s` is all white space.
   */
  function Trim(s: string): (r: string)
    ensures |r| <= |s|
    ensures exists lead, trail :: s == lead + r + trail && AllJsSpace(lead) && AllJsSpace(trail)
    ensures r == [] || (!IsJsSpace(r[0]) && !IsJsSpace(r[|r| - 1]))
    ensures r == [] <==> forall i :: 0 <= i < |s| ==> IsJsSpace(s[i])
  {
    var t := TrimStart(s);
    BetweenSpaces(s, t, TrimEnd(t));
    assert t != [] ==> t[0] == s[|s| - |t|];
    TrimEnd(t)
  }

  /** Every character of `s` is white space. */
  predicate AllJsSpace(s: string)
  {
    forall k :: 0 <= k < |s| ==> IsJsSpace(s[k])
  }

  /**
   * A suffix `t` of `s` whose removed prefix is white space, then a prefix
   * `r` of `t` whose removed suffix is white space: `r` sits between two
   * runs of white space in `s`.
   */
  lemma BetweenSpaces(s: string, t: string, r: string)
    requires |t| <= |s| && t == s[|s| - |t|..] && forall i :: 0 <= i < |s| - |t| ==> IsJsSpace(s[i])
    requires |r| <= |t| && r == t[..|r|] && forall i :: |r| <= i < |t| ==> IsJsSpace(t[i])
    ensures exists lead, trail :: s == lead + r + trail && AllJsSpace(lead) && AllJsSpace(trail)
  {
    var lead := s[..|s| - |t|];
    var trail := t[|r|..];
    assert s == lead + r + trail by {
      PrefixSuffix(s, |s| - |t|);
      PrefixSuffix(t, |r|);
    }
    assert AllJsSpace(lead) by {
      assert forall k :: 0 <= k < |lead| ==> lead[k] == s[k];
    }
    assert AllJsSpace(trail) by {
      assert forall k :: 0 <= k < |trail| ==> trail[k] == t[|r| + k];
    }
  }

  lemma PrefixSuffix(s: string, n: nat)
    requires n <= |s|
    ensures s == s[..n] + s[n..]
  {
  }

  // ---------------------------------------------------------------------
  // /^\d{4,6}$/
  // ---------------------------------------------------------------------

  /** Number of leading ASCII digits of `s` (`\d` without the `u` flag). */
  function DigitRun(s: string): (n: nat)
    ensures n <= |s|
    ensures forall i :: 0 <= i < n ==> IsAsciiDigit(s[i])
    ensures n == |s| || !IsAsciiDigit(s[n])
  {
    if s != [] && IsAsciiDigit(s[0]) then
      var n := 1 + DigitRun(s[1..]);
      assert forall i :: 1 <= i < n ==> s[i] == s[1..][i - 1];
      n
    else 0
  }

  /**
   * `/^\d{4,6}$/.test(s)`: four to six ASCII digits and nothing else (without
   * the `m` flag `$` matches only at the very end, not before a newline).
   */
  function MatchesCardPattern(s: string): (b: bool)
    ensures b <==> 4 <= |s| <= 6 && forall i :: 0 <= i < |s| ==> IsAsciiDigit(s[i])
  {
    var n := DigitRun(s);
    n == |s| && 4 <= n <= 6
  }

  // ---------------------------------------------------------------------
  // replace(",", ".")
  // ---------------------------------------------------------------------

  /** Index of the first occurrence of `c` in `s`. */
  function IndexOf(s: string, c: char): (k: nat)
    requires c in s
    ensures k < |s| && s[k] == c && c !in s[..k]
  {
    if s[0] == c then 0
    else
      assert c in s[1..] by {
        var j :| 0 <= j < |s| && s[j] == c;
        assert s[1..][j - 1] == c;
      }
      var k := 1 + IndexOf(s[1..], c);
      assert s[..k] == [s[0]] + s[1..][..k - 1];
      k
  }

  /**
   * `s.replace(from, to)` with a one-character string pattern: only the
   * first occurrence is replaced.
   */
  function ReplaceFirst(s: string, from: char, to: char): (r: string)
    ensures from !in s ==> r == s
    ensures from in s ==> var k := IndexOf(s, from); r == s[..k] + [to] + s[k + 1..]
  {
    if s == [] then []
    else if s[0] == from then [to] + s[1..]
    else
      var rest := ReplaceFirst(s[1..], from, to);
      if from in s then
        assert from in s[1..] by {
          var j :| 0 <= j < |s| && s[j] == from;
          assert s[1..][j - 1] == from;
        }
        [s[0]] + rest
      else [s[0]] + rest
  }

  // ---------------------------------------------------------------------
  // parseFloat(s) > 0
  // ---------------------------------------------------------------------

  predicate AllZeros(s: string)
  {
    forall i :: 0 <= i < |s| ==> s[i] == '0'
  }

  /**
   * Whether `parseFloat(s) > 0`, reading the longest prefix of the
   * white-space-trimmed text that is a StrDecimalLiteral (section 21.1.2.12
   * of ECMA-262) as an exact decimal: `[sign] (Infinity | digits ["." digits]
   * | "." digits) [exponent]`. No such prefix gives NaN, which is not
   * positive; a `-` sign never gives a positive number; otherwise the number
   * is positive exactly when a digit of the mantissa is not zero (the
   * exponent only scales it).
   */
  predicate ReadsPositive(s: string)
  {
    var t := TrimStart(s);
    if t != [] && t[0] == '-' then false
    else UnsignedPositive(if t != [] && t[0] == '+' then t[1..] else t)
  }

  /** An unsigned StrDecimalLiteral prefix of `u` exists and is not zero. */
  predicate UnsignedPositive(u: string)
  {
    (|u| >= 8 && u[..8] == "Infinity") || MantissaPositive(u)
  }

  /** The digits before and after the first `.` of `u` hold a non-zero digit. */
  predicate MantissaPositive(u: string)
  {
    var a := DigitRun(u);
    var f := if a < |u| && u[a] == '.' then DigitRun(u[a + 1..]) else 0;
    !AllZeros(u[..a]) || (f > 0 && !AllZeros(u[a + 1..a + 1 + f]))
  }

  /** The empty text reads as NaN. */
  lemma EmptyNotPositive()
    ensures !ReadsPositive("")
  {
    assert TrimStart("") == "";
  }

  /** A minus sign in front of the number never reads as positive. */
  lemma NegativeNotPositive(s: string)
    ensures !ReadsPositive("-" + s)
  {
    assert TrimStart("-" + s) == "-" + s;
  }

  /**
   * Text that starts with a run of digits holding a non-zero digit, the
   * run ending the text or followed by a non-digit (`"10"`, `"10.50"`,
   * `"7abc"`), reads as positive.
   */
  lemma LeadingNonZeroDigitsArePositive(whole: string, rest: string)
    requires whole != [] && DigitRun(whole) == |whole| && !AllZeros(whole)
    requires rest == [] || !IsAsciiDigit(rest[0])
    ensures ReadsPositive(whole + rest)
  {
    var s := whole + rest;
    assert IsAsciiDigit(s[0]) by {
      assert s[0] == whole[0];
    }
    assert TrimStart(s) == s;
    assert MantissaPositive(s) by {
      if rest == [] {
        assert s == whole;
        assert s[..|s|] == s;
      } else {
        DigitRunPrefix(whole, rest);
        assert s[..|whole|] == whole;
      }
    }
  }

  /** The digit run of `a + b` stops at the end of `a` when `b` starts with a non-digit. */
  lemma {:induction false} DigitRunPrefix(a: string, b: string)
    requires DigitRun(a) == |a|
    requires b != [] && !IsAsciiDigit(b[0])
    ensures DigitRun(a + b) == |a|
    decreases |a|
  {
    if a != [] {
      assert (a + b)[1..] == a[1..] + b;
      assert DigitRun(a[1..]) == |a| - 1;
      DigitRunPrefix(a[1..], b);
    } else {
      assert a + b == b;
    }
  }
}
