/**
 * The string operations of the Kotlin standard library that the core relies on:
 * `trim`, `isBlank`, `Int.toString`, `joinToString`, `split(" ")` and
 * `contains(..., ignoreCase = true)`. Strings are sequences of characters.
 */
module Text {

  /** Characters Kotlin's `Char.isWhitespace` accepts, restricted to the first 256 code points. */
  predicate IsWhitespace(c: char)
  {
    c == ' ' || c == '\t' || c == '\n' || c == '\r' || c == '\U{B}' || c == '\U{C}'
    || ('\U{1C}' <= c <= '\U{1F}') || c == '\U{A0}'
  }

  /** `isBlank()`: every character is whitespace (the empty string is blank). */
  predicate IsBlank(s: string)
  {
    forall i :: 0 <= i < |s| ==> IsWhitespace(s[i])
  }

  /** Drops the leading whitespace: what remains is a suffix of `s` that does not start with whitespace. */
  function TrimStart(s: string): (r: string)
    ensures |r| <= |s| && r == s[|s| - |r|..]
    ensures r == [] || !IsWhitespace(r[0])
    ensures forall i :: 0 <= i < |s| - |r| ==> IsWhitespace(s[i])
  {
    if s != [] && IsWhitespace(s[0]) then TrimStart(s[1..]) else s
  }

  /** Drops the trailing whitespace: what remains is a prefix of `s` that does not end with whitespace. */
  function TrimEnd(s: string): (r: string)
    ensures |r| <= |s| && r == s[..|r|]
    ensures r == [] || !IsWhitespace(r[|r| - 1])
    ensures forall i :: |r| <= i < |s| ==> IsWhitespace(s[i])
  {
    if s != [] && IsWhitespace(s[|s| - 1]) then TrimEnd(s[..|s| - 1]) else s
  }

  /**
   * `trim()`: the result neither starts nor ends with whitespace, and it is
   * empty exactly when the input is blank.
   */
  function Trim(s: string): (r: string)
    ensures |r| <= |s|
    ensures r == [] || (!IsWhitespace(r[0]) && !IsWhitespace(r[|r| - 1]))
    ensures r == [] <==> IsBlank(s)
  {
    var t := TrimStart(s);
    var r := TrimEnd(t);
    r
  }

  /**
   * `trim()` removes a blank prefix and a blank suffix and nothing else: the
   * result is the slice of `s` between them.
   */
  lemma TrimIsSlice(s: string)
    ensures exists i, j :: 0 <= i <= j <= |s| && Trim(s) == s[i..j] && IsBlank(s[..i]) && IsBlank(s[j..])
  {
    var t := TrimStart(s);
    var r := Trim(s);
    var i := |s| - |t|;
    var j := i + |r|;
    assert r == TrimEnd(t) && t == s[i..] && r == t[..|r|];
    assert r == s[i..j];
    BlankSlices(s, i, j, t, |r|);
  }

  /** The blank ends of `trim()`, from the guarantees of `TrimStart` and `TrimEnd`. */
  lemma BlankSlices(s: string, i: nat, j: nat, t: string, n: nat)
    requires i <= j <= |s| && t == s[i..] && n == j - i && n <= |t|
    requires forall k :: 0 <= k < i ==> IsWhitespace(s[k])
    requires forall k :: n <= k < |t| ==> IsWhitespace(t[k])
    ensures IsBlank(s[..i]) && IsBlank(s[j..])
  {
    forall k | 0 <= k < |s| - j
      ensures IsWhitespace(s[j..][k])
    {
      assert s[j..][k] == t[n + k];
    }
  }

  /** The decimal digit `d` as a character. */
  function DigitChar(d: nat): (c: char)
    requires d < 10
    ensures '0' <= c <= '9' && c as int - '0' as int == d
  {
    ['0', '1', '2', '3', '4', '5', '6', '7', '8', '9'][d]
  }

  /** Kotlin's decimal rendering of a non-negative `Int` (string templates `"${n}"`). */
  function NatToString(n: nat): (s: string)
    ensures |s| >= 1
    ensures forall i :: 0 <= i < |s| ==> '0' <= s[i] <= '9'
  {
    if n < 10 then [DigitChar(n)] else NatToString(n / 10) + [DigitChar(n % 10)]
  }

  /** The value of a string of decimal digits read from the left. */
  function DigitsValue(s: string): nat
    requires forall i :: 0 <= i < |s| ==> '0' <= s[i] <= '9'
  {
    if s == [] then 0 else DigitsValue(s[..|s| - 1]) * 10 + (s[|s| - 1] as int - '0' as int)
  }

  /** Reading back a rendered number gives the number: the decimal rendering loses nothing. */
  lemma {:induction false} NatToStringRoundTrip(n: nat)
    ensures DigitsValue(NatToString(n)) == n
  {
    if n >= 10 {
      NatToStringRoundTrip(n / 10);
      var s := NatToString(n);
      assert s[..|s| - 1] == NatToString(n / 10);
    }
  }

  /** `joinToString(sep)`. */
  function Join(sep: string, parts: seq<string>): string
  {
    if parts == [] then ""
    else if |parts| == 1 then parts[0]
    else parts[0] + sep + Join(sep, parts[1..])
  }

  /** Kotlin's `split(" ")`: every space separates, so runs of spaces produce empty pieces. */
  function SplitOnSpace(s: string): (pieces: seq<string>)
    ensures |pieces| >= 1
    ensures forall k :: 0 <= k < |pieces| ==> ' ' !in pieces[k]
  {
    if s == [] then [""]
    else if s[0] == ' ' then [""] + SplitOnSpace(s[1..])
    else
      var rest := SplitOnSpace(s[1..]);
      [[s[0]] + rest[0]] + rest[1..]
  }

  /** Splitting on spaces and joining the pieces with single spaces gives back the text. */
  lemma {:induction false} SplitOnSpaceJoin(s: string)
    ensures Join(" ", SplitOnSpace(s)) == s
  {
    if s != [] {
      SplitOnSpaceJoin(s[1..]);
      var rest := SplitOnSpace(s[1..]);
      if s[0] == ' ' {
        assert s == [' '] + s[1..];
      } else if |rest| == 1 {
        assert s == [s[0]] + s[1..];
      } else {
        var pieces := SplitOnSpace(s);
        assert pieces[1..] == rest[1..];
        assert Join(" ", rest) == rest[0] + " " + Join(" ", rest[1..]);
        assert s == [s[0]] + s[1..];
      }
    }
  }

  /** A text without spaces is one piece. */
  lemma {:induction false} SplitOnSpaceWord(w: string)
    requires ' ' !in w
    ensures SplitOnSpace(w) == [w]
  {
    if w != [] {
      assert ' ' !in w[1..] by {
        forall k | 0 <= k < |w| - 1 ensures w[1..][k] != ' ' { assert w[1..][k] == w[k + 1]; }
      }
      SplitOnSpaceWord(w[1..]);
      assert w == [w[0]] + w[1..];
    }
  }

  /** Splitting `a + " " + b` splits `a` and `b` separately. */
  lemma {:induction false} SplitOnSpaceJoined(a: string, b: string)
    ensures SplitOnSpace(a + " " + b) == SplitOnSpace(a) + SplitOnSpace(b)
  {
    if a == [] {
      assert a + " " + b == [' '] + b;
      assert (a + " " + b)[1..] == b;
    } else {
      assert (a + " " + b)[1..] == a[1..] + " " + b;
      SplitOnSpaceJoined(a[1..], b);
      if a[0] == ' ' {
      } else {
        var rest := SplitOnSpace(a[1..]);
        assert (rest + SplitOnSpace(b))[0] == rest[0];
        assert (rest + SplitOnSpace(b))[1..] == rest[1..] + SplitOnSpace(b);
      }
    }
  }

  /**
   * Case folding used by `equals(..., ignoreCase = true)`, for ASCII and the
   * Latin-1 letters (which covers Portuguese accented letters).
   */
  function Fold(c: char): char
  {
    if 'A' <= c <= 'Z' || ('\U{C0}' <= c <= '\U{DE}' && c != '\U{D7}')
    then (c as int + 32) as char
    else c
  }

  /** `term` occurs in `s` at position `i`, ignoring case. */
  predicate MatchesAt(s: string, term: string, i: int)
  {
    0 <= i && i + |term| <= |s| && forall j :: 0 <= j < |term| ==> Fold(s[i + j]) == Fold(term[j])
  }

  /** `s.contains(term, ignoreCase = true)`. */
  predicate ContainsIgnoreCase(s: string, term: string)
  {
    exists i :: 0 <= i <= |s| - |term| && MatchesAt(s, term, i)
  }

  /**
   * A match survives any text added around the searched string: a name that
   * contains the term still contains it after a prefix or a suffix is added.
   */
  lemma ContainsIgnoreCaseExtend(p: string, s: string, q: string, t: string)
    requires ContainsIgnoreCase(s, t)
    ensures ContainsIgnoreCase(p + s + q, t)
  {
    var i :| 0 <= i <= |s| - |t| && MatchesAt(s, t, i);
    var u := p + s + q;
    forall j | 0 <= j < |t|
      ensures Fold(u[|p| + i + j]) == Fold(t[j])
    {
      assert u[|p| + i + j] == s[i + j];
    }
    assert MatchesAt(u, t, |p| + i);
  }

  /** Changing the case of the term does not change the outcome of the search. */
  lemma ContainsIgnoreCaseVariant(s: string, t: string, t': string)
    requires |t| == |t'| && forall j :: 0 <= j < |t| ==> Fold(t[j]) == Fold(t'[j])
    ensures ContainsIgnoreCase(s, t) <==> ContainsIgnoreCase(s, t')
  {
    if ContainsIgnoreCase(s, t) {
      var i :| 0 <= i <= |s| - |t| && MatchesAt(s, t, i);
      assert MatchesAt(s, t', i);
    }
    if ContainsIgnoreCase(s, t') {
      var i :| 0 <= i <= |s| - |t'| && MatchesAt(s, t', i);
      assert MatchesAt(s, t, i);
    }
  }
}
