/** JavaScript's `String.prototype.trim`: strips the ECMAScript WhiteSpace and
    LineTerminator code points from both ends of a string. */
module Trimming {

  /** The code points `trim` removes: TAB, VT, FF, SPACE, NBSP, ZWNBSP, every
      Unicode space separator (Zs), and the line terminators LF, CR, LS, PS. */
  predicate IsWhitespace(c: char) {
    || c == '\t' || c == '\n' || c == '\U{000B}' || c == '\U{000C}' || c == '\r'
    || c == ' ' || c == '\U{00A0}' || c == '\U{1680}'
    || ('\U{2000}' <= c <= '\U{200A}')
    || c == '\U{2028}' || c == '\U{2029}' || c == '\U{202F}' || c == '\U{205F}'
    || c == '\U{3000}' || c == '\U{FEFF}'
  }

  ghost predicate AllWhitespace(s: string) {
    forall k :: 0 <= k < |s| ==> IsWhitespace(s[k])
  }

  /** A string that `trim` leaves alone: empty, or no whitespace at either end. */
  ghost predicate IsTrimmed(s: string) {
    s == [] || (!IsWhitespace(s[0]) && !IsWhitespace(s[|s| - 1]))
  }

  /** Drops the leading whitespace. */
  function TrimStart(s: string): (r: string)
    ensures |r| <= |s|
  {
    if s != [] && IsWhitespace(s[0]) then TrimStart(s[1..]) else s
  }

  /** Drops the trailing whitespace. */
  function TrimEnd(s: string): (r: string)
    ensures |r| <= |s|
  {
    if s != [] && IsWhitespace(s[|s| - 1]) then TrimEnd(s[..|s| - 1]) else s
  }

  /** `TrimStart(s)` is the suffix of `s` that starts at its first
      non-whitespace character. */
  lemma {:induction false} TrimStartIsSuffix(s: string)
    ensures |TrimStart(s)| <= |s| && TrimStart(s) == s[|s| - |TrimStart(s)|..]
    ensures AllWhitespace(s[..|s| - |TrimStart(s)|])
    ensures TrimStart(s) == [] || !IsWhitespace(TrimStart(s)[0])
  {
    if s != [] && IsWhitespace(s[0]) {
      TrimStartIsSuffix(s[1..]);
      var r := TrimStart(s[1..]);
      assert s[1..][|s| - 1 - |r|..] == s[|s| - |r|..];
      assert forall k :: 1 <= k < |s| - |r| ==> s[k] == s[1..][k - 1];
    }
  }

  /** `TrimEnd(s)` is the prefix of `s` that ends at its last non-whitespace
      character. */
  lemma {:induction false} TrimEndIsPrefix(s: string)
    ensures |TrimEnd(s)| <= |s| && TrimEnd(s) == s[..|TrimEnd(s)|]
    ensures AllWhitespace(s[|TrimEnd(s)|..])
    ensures TrimEnd(s) == [] || !IsWhitespace(TrimEnd(s)[|TrimEnd(s)| - 1])
  {
    if s != [] && IsWhitespace(s[|s| - 1]) {
      var init := s[..|s| - 1];
      TrimEndIsPrefix(init);
      var r := TrimEnd(init);
      assert init[..|r|] == s[..|r|];
      assert forall k :: |r| <= k < |s| - 1 ==> s[k] == init[k];
    }
  }

  /** `s.trim()`: never longer than `s`, and with no whitespace left at
      either end. */
  function Trim(s: string): (r: string)
    ensures |r| <= |s|
    ensures IsTrimmed(r)
  {
    TrimStartIsSuffix(s);
    TrimEndIsPrefix(TrimStart(s));
    TrimEnd(TrimStart(s))
  }

  /** `s.trim()` is the infix of `s` left once whitespace is stripped from both
      ends: what goes is whitespace, and what stays starts and ends with a
      character that is not. */
  lemma TrimIsInfix(s: string)
    ensures IsTrimmed(Trim(s))
    ensures var r, i := Trim(s), |s| - |TrimStart(s)|;
      && i + |r| <= |s|
      && r == s[i..i + |r|]
      && AllWhitespace(s[..i])
      && AllWhitespace(s[i + |r|..])
  {
    var t := TrimStart(s);
    var r := TrimEnd(t);
    var i := |s| - |t|;
    TrimStartIsSuffix(s);
    TrimEndIsPrefix(t);
    assert IsTrimmed(r) by {
      if r != [] {
        assert r[0] == t[0];
      }
    }
    assert s[i..i + |r|] == r by {
      assert s[i..i + |r|] == s[i..][..|r|];
    }
    assert s[i + |r|..] == t[|r|..] by {
      assert s[i + |r|..] == s[i..][|r|..];
    }
  }

  lemma {:induction false} TrimStartOfPadded(pad: string, t: string)
    requires AllWhitespace(pad)
    requires t == [] || !IsWhitespace(t[0])
    ensures TrimStart(pad + t) == t
  {
    if pad != [] {
      assert (pad + t)[1..] == pad[1..] + t;
      TrimStartOfPadded(pad[1..], t);
    } else {
      assert pad + t == t;
    }
  }

  lemma {:induction false} TrimEndOfPadded(t: string, pad: string)
    requires AllWhitespace(pad)
    requires t == [] || !IsWhitespace(t[|t| - 1])
    ensures TrimEnd(t + pad) == t
  {
    if pad != [] {
      assert (t + pad)[..|t + pad| - 1] == t + pad[..|pad| - 1];
      TrimEndOfPadded(t, pad[..|pad| - 1]);
    } else {
      assert t + pad == t;
    }
  }

  /** `trim` is determined by its contract: whatever whitespace surrounds a
      trimmed core, trimming gives back exactly that core. */
  lemma TrimOfPadded(before: string, core: string, after: string)
    requires AllWhitespace(before) && AllWhitespace(after)
    requires IsTrimmed(core)
    ensures Trim(before + core + after) == core
  {
    if core == [] {
      assert before + core + after == before + after;
      TrimStartOfPadded(before + after, []);
      assert before + after + [] == before + after;
    } else {
      assert before + core + after == before + (core + after);
      TrimStartOfPadded(before, core + after);
      TrimEndOfPadded(core, after);
    }
  }

  /** Trimming twice is trimming once. */
  lemma TrimIdempotent(s: string)
    ensures Trim(Trim(s)) == Trim(s)
  {
    var t := Trim(s);
    TrimIsInfix(s);
    assert [] + t + [] == t;
    TrimOfPadded([], t, []);
  }

  /** A string without whitespace at either end is left as it is. */
  lemma TrimOfTrimmed(s: string)
    requires IsTrimmed(s)
    ensures Trim(s) == s
  {
    assert [] + s + [] == s;
    TrimOfPadded([], s, []);
  }
}
