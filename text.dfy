/**
 * Strings as the JavaScript runtime sees them: whitespace, `String.prototype.trim`
 * and `String.prototype.startsWith`.
 */
module Text {

  /**
   * ECMAScript WhiteSpace and LineTerminator code points. `trim` removes exactly
   * these, and the regular-expression class `\s` matches exactly these, so one
   * predicate serves both. The general trimming and validation lemmas hold for
   * any such set; only the lemmas about concrete example strings depend on
   * which characters are listed (for instance, that ' ' is whitespace).
   */
  predicate IsWhitespace(c: char)
  {
    || c == '\t' || c == '\n' || c == '\U{B}' || c == '\U{C}' || c == '\r' || c == ' '
    || c == '\U{A0}' || c == '\U{1680}' || ('\U{2000}' <= c <= '\U{200A}')
    || c == '\U{2028}' || c == '\U{2029}' || c == '\U{202F}' || c == '\U{205F}'
    || c == '\U{3000}' || c == '\U{FEFF}'
  }

  predicate AllWhitespace(s: string)
  {
    forall i :: 0 <= i < |s| ==> IsWhitespace(s[i])
  }

  /** Neither the first nor the last character is whitespace. */
  predicate IsTrimmed(s: string)
  {
    s == [] || (!IsWhitespace(s[0]) && !IsWhitespace(s[|s| - 1]))
  }

  /** Drops the leading whitespace. */
  function TrimStart(s: string): (r: string)
    ensures |r| <= |s|
    ensures r == [] || !IsWhitespace(r[0])
  {
    if s != [] && IsWhitespace(s[0]) then TrimStart(s[1..]) else s
  }

  /** What `TrimStart` keeps is a suffix of its input, and what it drops is whitespace. */
  lemma {:induction false} TrimStartIsSuffix(s: string)
    ensures var r := TrimStart(s);
            r == s[|s| - |r|..] && AllWhitespace(s[..|s| - |r|])
  {
    if s != [] && IsWhitespace(s[0]) {
      TrimStartIsSuffix(s[1..]);
      var r := TrimStart(s[1..]);
      assert s[..|s| - |r|] == [s[0]] + s[1..][..|s[1..]| - |r|];
    }
  }

  /** Drops the trailing whitespace. */
  function TrimEnd(s: string): (r: string)
    ensures |r| <= |s|
    ensures r == [] || !IsWhitespace(r[|r| - 1])
  {
    if s != [] && IsWhitespace(s[|s| - 1]) then TrimEnd(s[..|s| - 1]) else s
  }

  /** What `TrimEnd` keeps is a prefix of its input, and what it drops is whitespace. */
  lemma {:induction false} TrimEndIsPrefix(s: string)
    ensures var r := TrimEnd(s);
            r == s[..|r|] && AllWhitespace(s[|r|..])
  {
    if s != [] && IsWhitespace(s[|s| - 1]) {
      TrimEndIsPrefix(s[..|s| - 1]);
      var r := TrimEnd(s[..|s| - 1]);
      assert s[|r|..] == s[..|s| - 1][|r|..] + [s[|s| - 1]];
    }
  }

  /** `String.prototype.trim`: whitespace removed from both ends. */
  function Trim(s: string): (r: string)
    ensures IsTrimmed(r) && |r| <= |s|
  {
    var t := TrimStart(s);
    TrimEndIsPrefix(t);
    TrimEnd(t)
  }

  /** What `trim` keeps is a substring of its input, and everything it cuts away on either side is whitespace. */
  lemma TrimCutsOnlyWhitespace(s: string)
    ensures var r := Trim(s);
            exists k :: 0 <= k <= |s| - |r| && r == s[k..k + |r|]
                     && AllWhitespace(s[..k]) && AllWhitespace(s[k + |r|..])
  {
    var t := TrimStart(s);
    var r := TrimEnd(t);
    TrimStartIsSuffix(s);
    TrimEndIsPrefix(t);
    assert r == Trim(s);
    var k := |s| - |t|;
    assert r == s[k..k + |r|] by {
      assert t == s[k..];
      assert r == t[..|r|];
    }
    assert AllWhitespace(s[k + |r|..]) by {
      assert s[k + |r|..] == t[|r|..];
    }
    assert 0 <= k <= |s| - |r| && r == s[k..k + |r|] && AllWhitespace(s[..k]) && AllWhitespace(s[k + |r|..]);
  }

  /** A string is unchanged by `trim` exactly when it has no whitespace at either end. */
  lemma {:induction false} TrimFixesTrimmed(s: string)
    ensures Trim(s) == s <==> IsTrimmed(s)
  {
    if IsTrimmed(s) {
      assert TrimStart(s) == s;
      assert TrimEnd(s) == s;
    }
  }

  /** Trimming twice is trimming once. */
  lemma TrimIdempotent(s: string)
    ensures Trim(Trim(s)) == Trim(s)
  {
    TrimFixesTrimmed(Trim(s));
  }

  /** A value is empty after trimming exactly when it is empty or whitespace only. */
  lemma {:induction false} TrimEmptyIff(s: string)
    ensures Trim(s) == "" <==> AllWhitespace(s)
  {
    if AllWhitespace(s) {
      AllWhitespaceTrimStart(s);
    } else {
      TrimCutsOnlyWhitespace(s);
    }
  }

  lemma {:induction false} AllWhitespaceTrimStart(s: string)
    requires AllWhitespace(s)
    ensures TrimStart(s) == ""
  {
    if s != [] {
      AllWhitespaceTrimStart(s[1..]);
    }
  }

  /** Whitespace padded on either side of a value does not change what `trim` makes of it. */
  lemma {:induction false} TrimIgnoresPadding(before: string, s: string, after: string)
    requires AllWhitespace(before) && AllWhitespace(after)
    ensures Trim(before + s + after) == Trim(s)
  {
    assert before + s + after == before + (s + after);
    TrimStartPadded(before, s + after);
    if AllWhitespace(s) {
      assert AllWhitespace(s + after);
      AllWhitespaceTrimStart(s + after);
      AllWhitespaceTrimStart(s);
    } else {
      TrimStartAppend(s, after);
      TrimEndPadded(TrimStart(s), after);
    }
  }

  lemma {:induction false} TrimStartPadded(before: string, s: string)
    requires AllWhitespace(before)
    ensures TrimStart(before + s) == TrimStart(s)
  {
    if before != [] {
      assert (before + s)[1..] == before[1..] + s;
      TrimStartPadded(before[1..], s);
    } else {
      assert before + s == s;
    }
  }

  /** Once a non-whitespace character is reached, `TrimStart` keeps everything after it. */
  lemma {:induction false} TrimStartAppend(s: string, after: string)
    requires !AllWhitespace(s)
    ensures TrimStart(s + after) == TrimStart(s) + after
  {
    if IsWhitespace(s[0]) {
      assert (s + after)[1..] == s[1..] + after;
      assert !AllWhitespace(s[1..]) by {
        var i :| 0 <= i < |s| && !IsWhitespace(s[i]);
        assert s[1..][i - 1] == s[i];
      }
      TrimStartAppend(s[1..], after);
    }
  }

  lemma {:induction false} TrimEndPadded(s: string, after: string)
    requires AllWhitespace(after)
    ensures TrimEnd(s + after) == TrimEnd(s)
  {
    if after != [] {
      var n := |after| - 1;
      assert (s + after)[..|s + after| - 1] == s + after[..n];
      TrimEndPadded(s, after[..n]);
    } else {
      assert s + after == s;
    }
  }

  /** `s.startsWith(prefix)`. */
  predicate StartsWith(s: string, prefix: string)
  {
    |prefix| <= |s| && s[..|prefix|] == prefix
  }
}
