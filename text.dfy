/** The string primitives the command processor relies on:
    `toLowerCase`, `trim` and `includes`. */
module Text {

  /** ECMAScript WhiteSpace and LineTerminator code points, the set `trim` removes. */
  predicate IsWhitespace(c: char)
  {
    || c == '\t' || c == '\n' || c == '\U{000B}' || c == '\U{000C}' || c == '\r'
    || c == ' ' || c == '\U{00A0}' || c == '\U{1680}'
    || ('\U{2000}' <= c <= '\U{200A}')
    || c == '\U{2028}' || c == '\U{2029}' || c == '\U{202F}' || c == '\U{205F}'
    || c == '\U{3000}' || c == '\U{FEFF}'
  }

  predicate AllWhitespace(s: string)
  {
    forall i :: 0 <= i < |s| ==> IsWhitespace(s[i])
  }

  /** Lower-casing of one character: A-Z, and KELVIN SIGN, whose lower case is 'k'. */
  function LowerChar(c: char): char
  {
    if 'A' <= c <= 'Z' then (c - 'A' + 'a') as char
    else if c == '\U{212A}' then 'k'
    else c
  }

  /** Lower-casing never makes or removes whitespace. */
  lemma LowerCharWhitespace(c: char)
    ensures IsWhitespace(LowerChar(c)) <==> IsWhitespace(c)
  {
  }

  /** `s.toLowerCase()`: each character lower-cased in place. */
  function Lower(s: string): string
  {
    seq(|s|, i requires 0 <= i < |s| => LowerChar(s[i]))
  }

  /** Leading whitespace removed. */
  function TrimStart(s: string): (r: string)
    ensures |r| <= |s| && r == s[|s| - |r|..]
    ensures AllWhitespace(s[..|s| - |r|])
    ensures r == [] || !IsWhitespace(r[0])
  {
    if |s| > 0 && IsWhitespace(s[0]) then
      var r := TrimStart(s[1..]);
      assert s[..|s| - |r|] == [s[0]] + s[1..][..|s| - 1 - |r|];
      r
    else s
  }

  /** Trailing whitespace removed. */
  function TrimEnd(s: string): (r: string)
    ensures |r| <= |s| && r == s[..|r|]
    ensures AllWhitespace(s[|r|..])
    ensures r == [] || !IsWhitespace(r[|r| - 1])
  {
    if |s| > 0 && IsWhitespace(s[|s| - 1]) then
      var r := TrimEnd(s[..|s| - 1]);
      assert s[|r|..] == s[..|s| - 1][|r|..] + [s[|s| - 1]];
      r
    else s
  }

  /** `s.trim()`. */
  function Trim(s: string): string
  {
    TrimEnd(TrimStart(s))
  }

  /** The normalisation `processCommand` applies: `input.toLowerCase().trim()`. */
  function Normalize(s: string): string
  {
    Trim(Lower(s))
  }

  /** `s.includes(t)`: t occurs in s as a contiguous substring. */
  predicate Includes(s: string, t: string)
  {
    exists i | 0 <= i <= |s| - |t| :: OccursAt(s, t, i)
  }

  /** t occurs in s starting at index i. */
  predicate OccursAt(s: string, t: string, i: int)
  {
    0 <= i <= |s| - |t| && s[i..i + |t|] == t
  }

  /** An occurrence of an occurrence is an occurrence. */
  lemma IncludesTransitive(s: string, t: string, u: string)
    requires Includes(s, t) && Includes(t, u)
    ensures Includes(s, u)
  {
    var i :| 0 <= i <= |s| - |t| && OccursAt(s, t, i);
    var j :| 0 <= j <= |t| - |u| && OccursAt(t, u, j);
    forall k | 0 <= k < |u| ensures s[i + j + k] == u[k] {
      assert u[k] == t[j + k] == s[i + j + k];
    }
    assert s[i + j..i + j + |u|] == u;
    assert OccursAt(s, u, i + j);
  }

  /** Lower-casing twice is lower-casing once. */
  lemma LowerIdempotent(s: string)
    ensures Lower(Lower(s)) == Lower(s)
  {
    assert forall i :: 0 <= i < |s| ==> Lower(Lower(s))[i] == Lower(s)[i];
  }

  /** Lower-casing commutes with dropping the first or the last character. */
  lemma LowerDrop(s: string)
    requires |s| > 0
    ensures Lower(s[1..]) == Lower(s)[1..]
    ensures Lower(s[..|s| - 1]) == Lower(s)[..|s| - 1]
  {
    var tail, init := s[1..], s[..|s| - 1];
    assert forall k :: 0 <= k < |tail| ==> Lower(tail)[k] == Lower(s)[k + 1];
    assert forall k :: 0 <= k < |init| ==> Lower(init)[k] == Lower(s)[k];
  }

  /** Trimming commutes with lower-casing: lower-casing never makes or removes whitespace. */
  lemma {:induction false} TrimStartLower(s: string)
    ensures TrimStart(Lower(s)) == Lower(TrimStart(s))
  {
    if |s| > 0 {
      LowerCharWhitespace(s[0]);
      if IsWhitespace(s[0]) {
        LowerDrop(s);
        TrimStartLower(s[1..]);
        calc {
          TrimStart(Lower(s));
          TrimStart(Lower(s)[1..]);
          TrimStart(Lower(s[1..]));
          Lower(TrimStart(s[1..]));
          Lower(TrimStart(s));
        }
      } else {
        assert TrimStart(Lower(s)) == Lower(s);
        assert TrimStart(s) == s;
      }
    } else {
      assert Lower(s) == [];
    }
  }

  lemma {:induction false} TrimEndLower(s: string)
    ensures TrimEnd(Lower(s)) == Lower(TrimEnd(s))
  {
    if |s| > 0 {
      var n := |s| - 1;
      LowerCharWhitespace(s[n]);
      if IsWhitespace(s[n]) {
        LowerDrop(s);
        TrimEndLower(s[..n]);
        calc {
          TrimEnd(Lower(s));
          TrimEnd(Lower(s)[..n]);
          TrimEnd(Lower(s[..n]));
          Lower(TrimEnd(s[..n]));
          Lower(TrimEnd(s));
        }
      } else {
        assert TrimEnd(Lower(s)) == Lower(s);
        assert TrimEnd(s) == s;
      }
    } else {
      assert Lower(s) == [];
    }
  }

  lemma TrimLower(s: string)
    ensures Trim(Lower(s)) == Lower(Trim(s))
  {
    TrimStartLower(s);
    TrimEndLower(TrimStart(s));
  }

  /** Leading whitespace is dropped whatever follows it. */
  lemma {:induction false} TrimStartPadded(a: string, s: string)
    requires AllWhitespace(a)
    ensures TrimStart(a + s) == TrimStart(s)
  {
    if a != [] {
      assert (a + s)[0] == a[0] && IsWhitespace(a[0]);
      assert (a + s)[1..] == a[1..] + s;
      TrimStartPadded(a[1..], s);
    } else {
      assert a + s == s;
    }
  }

  /** Trailing whitespace is dropped whatever precedes it. */
  lemma {:induction false} TrimEndPadded(s: string, b: string)
    requires AllWhitespace(b)
    ensures TrimEnd(s + b) == TrimEnd(s)
  {
    if b != [] {
      assert (s + b)[|s + b| - 1] == b[|b| - 1] && IsWhitespace(b[|b| - 1]);
      assert (s + b)[..|s + b| - 1] == s + b[..|b| - 1];
      TrimEndPadded(s, b[..|b| - 1]);
    } else {
      assert s + b == s;
    }
  }

  /** Leading-trim of a concatenation. */
  lemma {:induction false} TrimStartConcat(s: string, b: string)
    ensures TrimStart(s + b) == if TrimStart(s) == [] then TrimStart(b) else TrimStart(s) + b
  {
    if s != [] {
      assert (s + b)[0] == s[0];
      assert (s + b)[1..] == s[1..] + b;
      if IsWhitespace(s[0]) {
        TrimStartConcat(s[1..], b);
      }
    } else {
      assert s + b == b;
    }
  }

  /** Whitespace padding on either side never changes the trimmed text. */
  lemma TrimPadded(a: string, s: string, b: string)
    requires AllWhitespace(a) && AllWhitespace(b)
    ensures Trim(a + s + b) == Trim(s)
  {
    assert a + s + b == a + (s + b);
    TrimStartPadded(a, s + b);
    TrimStartConcat(s, b);
    if TrimStart(s) == [] {
      TrimStartPadded(b, []);
      assert b + [] == b;
    } else {
      TrimEndPadded(TrimStart(s), b);
    }
  }

  /** Lower-casing distributes over concatenation. */
  lemma LowerConcat(x: string, y: string)
    ensures Lower(x + y) == Lower(x) + Lower(y)
  {
    assert forall i :: 0 <= i < |x + y| ==> Lower(x + y)[i] == (Lower(x) + Lower(y))[i];
  }

  /** Whitespace surrounding the raw input never changes its normalised form. */
  lemma NormalizePadded(a: string, s: string, b: string)
    requires AllWhitespace(a) && AllWhitespace(b)
    ensures Normalize(a + s + b) == Normalize(s)
  {
    LowerConcat(a, s);
    LowerConcat(a + s, b);
    forall i | 0 <= i < |a| ensures IsWhitespace(Lower(a)[i]) {
      LowerCharWhitespace(a[i]);
    }
    forall i | 0 <= i < |b| ensures IsWhitespace(Lower(b)[i]) {
      LowerCharWhitespace(b[i]);
    }
    TrimPadded(Lower(a), Lower(s), Lower(b));
  }

  /** Letter case of the raw input never changes its normalised form. */
  lemma NormalizeLower(s: string)
    ensures Normalize(Lower(s)) == Normalize(s)
  {
    LowerIdempotent(s);
  }

  /** Normalised text is lower-case and has no surrounding whitespace. */
  lemma NormalizeIsTrimmedLower(s: string)
    ensures Lower(Normalize(s)) == Normalize(s)
    ensures Trim(Normalize(s)) == Normalize(s)
  {
    TrimLower(s);
    LowerIdempotent(Trim(s));
    var n := Normalize(s);
    var m := TrimStart(Lower(s));
    assert n == TrimEnd(m);
    assert TrimStart(n) == n;
    assert TrimEnd(n) == n;
  }

  /** Text with no surrounding whitespace is unchanged by trimming. */
  lemma TrimUnpadded(s: string)
    requires s == [] || (!IsWhitespace(s[0]) && !IsWhitespace(s[|s| - 1]))
    ensures Trim(s) == s
  {
  }

  /** Input whose lower-cased form has no surrounding whitespace normalises to that form. */
  lemma NormalizeUnpadded(s: string, lowered: string)
    requires Lower(s) == lowered
    requires lowered == [] || (!IsWhitespace(lowered[0]) && !IsWhitespace(lowered[|lowered| - 1]))
    ensures Normalize(s) == lowered
  {
    TrimUnpadded(lowered);
  }

  /** A phrase with a character the text lacks does not occur in it. */
  lemma IncludesChar(s: string, t: string, c: char)
    requires Includes(s, t) && c in t
    ensures c in s
  {
    var i :| 0 <= i <= |s| - |t| && OccursAt(s, t, i);
    var m :| 0 <= m < |t| && t[m] == c;
    assert s[i + m] == t[m];
  }

  /** `s.trim()` is empty exactly when `s` is nothing but whitespace. */
  lemma TrimEmpty(s: string)
    ensures Trim(s) == [] <==> AllWhitespace(s)
  {
  }
}
