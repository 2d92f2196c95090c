/**
 * The JavaScript string primitives the application relies on:
 * `trim`, `toUpperCase`, `toLowerCase`, `includes` and the relational
 * operators `<`, `<=`, `>=` on strings.
 */
module JsText {

  // ---------------------------------------------------------------------
  // trim
  // ---------------------------------------------------------------------

  /** The code points `String.prototype.trim` removes: the ECMAScript
      WhiteSpace (TAB, VT, FF, ZWNBSP and the Zs category) and
      LineTerminator (LF, CR, LS, PS) productions. */
  predicate IsTrimmable(c: char) {
    || c == '\t' || c == '\n' || c == '\U{000B}' || c == '\U{000C}' || c == '\r'
    || c == ' ' || c == '\U{00A0}' || c == '\U{1680}'
    || ('\U{2000}' <= c <= '\U{200A}')
    || c == '\U{2028}' || c == '\U{2029}' || c == '\U{202F}' || c == '\U{205F}'
    || c == '\U{3000}' || c == '\U{FEFF}'
  }

  /** Neither end of `s` is a trimmable code point. */
  predicate IsTrimmed(s: string) {
    s == [] || (!IsTrimmable(s[0]) && !IsTrimmable(s[|s| - 1]))
  }

  /** Every code point of `s` is trimmable (so `s.trim()` is empty). */
  predicate AllTrimmable(s: string) {
    forall i :: 0 <= i < |s| ==> IsTrimmable(s[i])
  }

  /** `s` without its leading trimmable code points. */
  function TrimStart(s: string): string {
    if s != [] && IsTrimmable(s[0]) then TrimStart(s[1..]) else s
  }

  /** `s` without its trailing trimmable code points. */
  function TrimEnd(s: string): string {
    if s != [] && IsTrimmable(s[|s| - 1]) then TrimEnd(s[..|s| - 1]) else s
  }

  /** `TrimStart(s)` is a suffix of `s` after a blank prefix, and starts
      with a code point that is not trimmable. */
  lemma {:induction false} TrimStartSpec(s: string)
    ensures var r := TrimStart(s);
            && |r| <= |s| && r == s[|s| - |r|..]
            && AllTrimmable(s[..|s| - |r|])
            && (r != [] ==> !IsTrimmable(r[0]))
  {
    if s != [] && IsTrimmable(s[0]) {
      TrimStartSpec(s[1..]);
      var r := TrimStart(s[1..]);
      assert s[1..][..|s| - 1 - |r|] == s[1..|s| - |r|];
      assert AllTrimmable(s[..|s| - |r|]) by {
        forall i | 0 <= i < |s| - |r| ensures IsTrimmable(s[i]) {
          if i > 0 {
            assert s[i] == s[1..|s| - |r|][i - 1];
          }
        }
      }
    }
  }

  /** `TrimEnd(s)` is a prefix of `s` before a blank suffix, and ends with
      a code point that is not trimmable. */
  lemma {:induction false} TrimEndSpec(s: string)
    ensures var r := TrimEnd(s);
            && |r| <= |s| && r == s[..|r|]
            && AllTrimmable(s[|r|..])
            && (r != [] ==> !IsTrimmable(r[|r| - 1]))
  {
    if s != [] && IsTrimmable(s[|s| - 1]) {
      TrimEndSpec(s[..|s| - 1]);
      var r := TrimEnd(s[..|s| - 1]);
      assert s[..|s| - 1][|r|..] == s[|r|..|s| - 1];
      assert AllTrimmable(s[|r|..]) by {
        forall i | 0 <= i < |s| - |r| ensures IsTrimmable(s[|r|..][i]) {
          if i < |s| - 1 - |r| {
            assert s[|r|..][i] == s[|r|..|s| - 1][i];
          }
        }
      }
    }
  }

  /** `r` is the infix of `s` at offset `a`, and everything of `s` outside
      it is trimmable. */
  predicate IsInfixAmongTrimmable(s: string, r: string, a: int) {
    0 <= a <= |s| - |r| && r == s[a..a + |r|]
    && AllTrimmable(s[..a]) && AllTrimmable(s[a + |r|..])
  }

  /** `s.trim()`. */
  function Trim(s: string): string {
    TrimEnd(TrimStart(s))
  }

  /** `s.trim()` is an infix of `s` that neither starts nor ends with a
      trimmable code point, obtained by removing only trimmable ones; it is
      empty exactly when `s` is blank. */
  lemma TrimSpec(s: string)
    ensures IsTrimmed(Trim(s))
    ensures exists a :: IsInfixAmongTrimmable(s, Trim(s), a)
    ensures Trim(s) == [] <==> AllTrimmable(s)
  {
    TrimSplit(s, TrimStart(s), Trim(s));
  }

  lemma TrimSplit(s: string, t: string, r: string)
    requires t == TrimStart(s) && r == TrimEnd(t)
    ensures IsTrimmed(r)
    ensures IsInfixAmongTrimmable(s, r, |s| - |t|)
    ensures r == [] <==> AllTrimmable(s)
  {
    TrimStartSpec(s);
    TrimEndSpec(t);
    InfixSplit(s, t, r, |s| - |t|);
    if AllTrimmable(s) {
      TrimStartOfBlank(s);
    }
  }

  /** The index arithmetic of TrimSplit, stated without the trimming functions. */
  lemma InfixSplit(s: string, t: string, r: string, a: int)
    requires 0 <= a <= |s| && t == s[a..] && AllTrimmable(s[..a])
    requires |r| <= |t| && r == t[..|r|] && AllTrimmable(t[|r|..])
    ensures IsInfixAmongTrimmable(s, r, a)
    ensures r == [] ==> AllTrimmable(s)
  {
    assert s[a + |r|..] == t[|r|..];
    if r == [] {
      forall i | 0 <= i < |s| ensures IsTrimmable(s[i]) {
        if i < a {
          assert s[i] == s[..a][i];
        } else {
          assert s[i] == t[|r|..][i - a];
        }
      }
    }
  }

  lemma {:induction false} TrimStartOfBlank(s: string)
    requires AllTrimmable(s)
    ensures TrimStart(s) == []
  {
    if s != [] {
      assert AllTrimmable(s[1..]) by {
        forall i | 0 <= i < |s| - 1 ensures IsTrimmable(s[1..][i]) {
          assert s[1..][i] == s[i + 1];
        }
      }
      TrimStartOfBlank(s[1..]);
    }
  }

  /** A string with no trimmable code point at either end is its own trim. */
  lemma {:induction false} TrimOfTrimmed(s: string)
    requires IsTrimmed(s)
    ensures Trim(s) == s
  {
    if s != [] {
      assert TrimStart(s) == s;
      assert TrimEnd(s) == s;
    }
  }

  // ---------------------------------------------------------------------
  // toUpperCase / toLowerCase (ASCII letters only)
  // ---------------------------------------------------------------------

  function UpperChar(c: char): (d: char) {
    if 'a' <= c <= 'z' then (c as int - 32) as char else c
  }

  function LowerChar(c: char): (d: char) {
    if 'A' <= c <= 'Z' then (c as int + 32) as char else c
  }

  /** `s.toUpperCase()`, code point by code point. */
  function Upper(s: string): (r: string)
    ensures |r| == |s|
    ensures forall i :: 0 <= i < |s| ==> r[i] == UpperChar(s[i])
  {
    seq(|s|, i requires 0 <= i < |s| => UpperChar(s[i]))
  }

  /** `s.toLowerCase()`, code point by code point. */
  function Lower(s: string): (r: string)
    ensures |r| == |s|
    ensures forall i :: 0 <= i < |s| ==> r[i] == LowerChar(s[i])
  {
    seq(|s|, i requires 0 <= i < |s| => LowerChar(s[i]))
  }

  lemma UpperIdempotent(s: string)
    ensures Upper(Upper(s)) == Upper(s)
  {
  }

  lemma LowerIdempotent(s: string)
    ensures Lower(Lower(s)) == Lower(s)
  {
  }

  /** Case mapping never touches a trimmable code point, so upper-casing a
      trimmed string leaves it trimmed. */
  lemma UpperKeepsTrimmed(s: string)
    requires IsTrimmed(s)
    ensures IsTrimmed(Upper(s))
  {
  }

  // ---------------------------------------------------------------------
  // includes
  // ---------------------------------------------------------------------

  /** `t` occurs in `s` starting at index `i`. */
  predicate OccursAt(s: string, t: string, i: int) {
    0 <= i && i + |t| <= |s| && s[i..i + |t|] == t
  }

  /** `s.includes(t)`. */
  predicate Contains(s: string, t: string) {
    exists i | 0 <= i <= |s| - |t| :: OccursAt(s, t, i)
  }

  // ---------------------------------------------------------------------
  // relational operators on strings
  // ---------------------------------------------------------------------

  /** `a < b` on strings: lexicographic on characters, a proper prefix
      being smaller. `a >= b` is `!LexLess(a, b)`, `a <= b` is
      `!LexLess(b, a)`. */
  predicate LexLess(a: string, b: string) {
    if b == [] then false
    else if a == [] then true
    else if a[0] != b[0] then a[0] < b[0]
    else LexLess(a[1..], b[1..])
  }

  /** A string is never greater than one it is a prefix of: `a <= a + t`. */
  lemma {:induction false} LexPrefixNotGreater(a: string, t: string)
    ensures !LexLess(a + t, a)
  {
    if a != [] {
      assert (a + t)[1..] == a[1..] + t;
      LexPrefixNotGreater(a[1..], t);
    }
  }

  /** A common prefix does not change how two strings compare. */
  lemma {:induction false} LexLessCommonPrefix(p: string, a: string, b: string)
    ensures LexLess(p + a, p + b) == LexLess(a, b)
  {
    if p != [] {
      assert (p + a)[1..] == p[1..] + a;
      assert (p + b)[1..] == p[1..] + b;
      LexLessCommonPrefix(p[1..], a, b);
    } else {
      assert p + a == a && p + b == b;
    }
  }
}
