/**
 * The string operations the message handler relies on: JavaScript's `trim()`,
 * `startsWith`, `endsWith` and `toLowerCase()`, on strings as sequences of
 * Unicode scalar values.
 */
module Text {

  /**
   * The characters `String.prototype.trim` removes: ECMAScript's WhiteSpace
   * (tab, vertical tab, form feed, space, no-break space, byte order mark and
   * the space separators) and LineTerminator (LF, CR, line and paragraph
   * separators).
   */
  predicate IsWhitespace(c: char) {
    c == '\t' || c == '\n' || c == '\U{B}' || c == '\U{C}' || c == '\r' || c == ' '
    || c == '\U{A0}' || c == '\U{1680}' || ('\U{2000}' <= c <= '\U{200A}')
    || c == '\U{2028}' || c == '\U{2029}' || c == '\U{202F}' || c == '\U{205F}'
    || c == '\U{3000}' || c == '\U{FEFF}'
  }

  predicate AllWhitespace(s: string) {
    forall i :: 0 <= i < |s| ==> IsWhitespace(s[i])
  }

  /** A string `trim()` leaves alone: empty, or neither end is whitespace. */
  predicate IsTrimmed(s: string) {
    s == [] || (!IsWhitespace(s[0]) && !IsWhitespace(s[|s| - 1]))
  }

  /** `s.startsWith(p)`. */
  predicate StartsWith(s: string, p: string) {
    p <= s
  }

  /** `s.endsWith(p)`. */
  predicate EndsWith(s: string, p: string) {
    |p| <= |s| && s[|s| - |p|..] == p
  }

  /** Drops leading whitespace: the suffix of `s` that starts at its first non-whitespace character. */
  function TrimStart(s: string): (r: string)
    ensures |r| <= |s|
    ensures r == [] || !IsWhitespace(r[0])
  {
    if s != [] && IsWhitespace(s[0]) then TrimStart(s[1..]) else s
  }

  /** Drops trailing whitespace: the prefix of `s` that ends at its last non-whitespace character. */
  function TrimEnd(s: string): (r: string)
    ensures |r| <= |s|
    ensures r == [] || !IsWhitespace(r[|r| - 1])
  {
    if s != [] && IsWhitespace(s[|s| - 1]) then TrimEnd(s[..|s| - 1]) else s
  }

  /** `s.trim()`: whitespace removed from both ends. */
  function Trim(s: string): (r: string)
    ensures |r| <= |s|
    ensures IsTrimmed(r)
  {
    var u := TrimStart(s);
    if u == [] then TrimEnd(u) else TrimEndKeepsHead(u); TrimEnd(u)
  }

  /** `toLowerCase()` of one character; only the ASCII letters are mapped. */
  function LowerChar(c: char): (r: char)
    ensures IsWhitespace(r) <==> IsWhitespace(c)
    ensures !('A' <= r <= 'Z')
    ensures r == c || ('A' <= c <= 'Z' && r as int == c as int + 32)
  {
    if 'A' <= c <= 'Z' then (c as int + 32) as char else c
  }

  /** `s.toLowerCase()`, character by character. */
  function Lower(s: string): (r: string)
    ensures |r| == |s|
    ensures forall i :: 0 <= i < |s| ==> r[i] == LowerChar(s[i])
  {
    if s == [] then [] else [LowerChar(s[0])] + Lower(s[1..])
  }

  /** Whitespace in front of a string that does not start with whitespace is all `TrimStart` removes. */
  lemma {:induction false} TrimStartOf(a: string, t: string)
    requires AllWhitespace(a)
    requires t == [] || !IsWhitespace(t[0])
    ensures TrimStart(a + t) == t
  {
    if a == [] {
      assert a + t == t;
    } else {
      assert (a + t)[1..] == a[1..] + t;
      TrimStartOf(a[1..], t);
    }
  }

  /** Whitespace behind a string that does not end with whitespace is all `TrimEnd` removes. */
  lemma {:induction false} TrimEndOf(t: string, b: string)
    requires AllWhitespace(b)
    requires t == [] || !IsWhitespace(t[|t| - 1])
    ensures TrimEnd(t + b) == t
  {
    if b == [] {
      assert t + b == t;
    } else {
      var n := |t + b|;
      assert (t + b)[..n - 1] == t + b[..|b| - 1];
      TrimEndOf(t, b[..|b| - 1]);
    }
  }

  /** `TrimStart` cuts `s` into the whitespace it removes and what it keeps. */
  lemma {:induction false} TrimStartSplit(s: string) returns (a: string)
    ensures AllWhitespace(a) && s == a + TrimStart(s)
  {
    if s != [] && IsWhitespace(s[0]) {
      var rest := TrimStartSplit(s[1..]);
      a := [s[0]] + rest;
      assert s == [s[0]] + s[1..];
    } else {
      a := [];
    }
  }

  /** `TrimEnd` cuts `s` into what it keeps and the whitespace it removes. */
  lemma {:induction false} TrimEndSplit(s: string) returns (b: string)
    ensures AllWhitespace(b) && s == TrimEnd(s) + b
  {
    if s != [] && IsWhitespace(s[|s| - 1]) {
      var rest := TrimEndSplit(s[..|s| - 1]);
      b := rest + [s[|s| - 1]];
      assert s == s[..|s| - 1] + [s[|s| - 1]];
    } else {
      b := [];
    }
  }

  /** Every string is its trimmed form with whitespace on either side. */
  lemma TrimSplit(s: string) returns (a: string, b: string)
    ensures AllWhitespace(a) && AllWhitespace(b)
    ensures s == a + Trim(s) + b
  {
    a := TrimStartSplit(s);
    b := TrimEndSplit(TrimStart(s));
    ConcatAssoc(a, Trim(s), b);
  }

  lemma ConcatAssoc(x: string, y: string, z: string)
    ensures x + (y + z) == x + y + z
  {
  }

  /**
   * The converse of `TrimSplit`: whitespace around a trimmed string is exactly
   * what `trim()` removes, so a trimmed result is unique.
   */
  lemma TrimOf(a: string, t: string, b: string)
    requires AllWhitespace(a) && AllWhitespace(b)
    requires IsTrimmed(t)
    ensures Trim(a + t + b) == t
  {
    if t == [] {
      assert a + t + b == a + b;
      assert AllWhitespace(a + b);
      TrimStartOf(a + b, []);
      assert a + b + [] == a + b;
      TrimEndOf([], []);
    } else {
      assert a + t + b == a + (t + b);
      TrimStartOf(a, t + b);
      TrimEndOf(t, b);
    }
  }

  /** A string that starts with a non-whitespace character keeps that character in front through `TrimEnd`. */
  lemma {:induction false} TrimEndKeepsHead(s: string)
    requires s != [] && !IsWhitespace(s[0])
    ensures TrimEnd(s) != [] && TrimEnd(s)[0] == s[0]
  {
    if IsWhitespace(s[|s| - 1]) {
      TrimEndKeepsHead(s[..|s| - 1]);
    }
  }

  /** A non-empty string that does not start with whitespace keeps its first character through `trim()`. */
  lemma TrimKeepsHead(s: string)
    requires s != [] && !IsWhitespace(s[0])
    ensures Trim(s) != [] && Trim(s)[0] == s[0]
  {
    assert TrimStart(s) == s;
    TrimEndKeepsHead(s);
  }

  /** `trim()` is idempotent. */
  lemma TrimIdempotent(s: string)
    ensures Trim(Trim(s)) == Trim(s)
  {
    var t := Trim(s);
    assert [] + t + [] == t;
    TrimOf([], t, []);
  }

  lemma {:induction false} LowerAppend(x: string, y: string)
    ensures Lower(x + y) == Lower(x) + Lower(y)
  {
    var l := Lower(x + y);
    var r := Lower(x) + Lower(y);
    assert |l| == |r|;
    forall i | 0 <= i < |l|
      ensures l[i] == r[i]
    {
      if i < |x| {
        assert (x + y)[i] == x[i];
      } else {
        assert (x + y)[i] == y[i - |x|];
      }
    }
  }

  /** Lower-casing and trimming commute, because lower-casing never makes or unmakes whitespace. */
  lemma LowerTrim(s: string)
    ensures Lower(Trim(s)) == Trim(Lower(s))
  {
    var a, b := TrimSplit(s);
    var t := Trim(s);
    var la, lt, lb := Lower(a), Lower(t), Lower(b);
    LowerAppend(a + t, b);
    LowerAppend(a, t);
    assert Lower(s) == la + lt + lb;
    assert AllWhitespace(la) by {
      forall i | 0 <= i < |la| ensures IsWhitespace(la[i]) {
        assert la[i] == LowerChar(a[i]);
      }
    }
    assert AllWhitespace(lb) by {
      forall i | 0 <= i < |lb| ensures IsWhitespace(lb[i]) {
        assert lb[i] == LowerChar(b[i]);
      }
    }
    assert IsTrimmed(lt) by {
      if lt != [] {
        assert lt[0] == LowerChar(t[0]);
        assert lt[|lt| - 1] == LowerChar(t[|t| - 1]);
      }
    }
    TrimOf(la, lt, lb);
  }

  /** A string without upper-case ASCII letters is its own lower-cased form. */
  lemma LowerOfLowerCase(s: string)
    requires forall i :: 0 <= i < |s| ==> !('A' <= s[i] <= 'Z')
    ensures Lower(s) == s
  {
  }

  /** Lower-casing a string twice is lower-casing it once. */
  lemma LowerIdempotent(s: string)
    ensures Lower(Lower(s)) == Lower(s)
  {
  }

  /** No ASCII letter: a string whose every case variant is itself. */
  predicate CaseFree(p: string) {
    forall i :: 0 <= i < |p| ==> !('A' <= p[i] <= 'Z') && !('a' <= p[i] <= 'z')
  }

  /** A prefix without letters is found in a string exactly when it is found in its lower-cased form. */
  lemma LowerStartsWith(s: string, p: string)
    requires CaseFree(p)
    ensures StartsWith(Lower(s), p) <==> StartsWith(s, p)
  {
    if StartsWith(Lower(s), p) && |p| <= |s| {
      forall i | 0 <= i < |p|
        ensures s[i] == p[i]
      {
        assert LowerChar(s[i]) == p[i];
      }
      assert s[..|p|] == p;
    }
    if StartsWith(s, p) {
      forall i | 0 <= i < |p|
        ensures Lower(s)[i] == p[i]
      {
        assert s[i] == p[i];
      }
    }
  }
}
