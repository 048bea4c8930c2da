/**
 * The few java.lang.String operations the connector task relies on:
 * trim(), isEmpty(), endsWith() and equalsIgnoreCase().
 */
module JavaText {
  import opened Wrappers

  /** String.trim() strips every leading and trailing character whose code is at most U+0020. */
  predicate TrimmedAway(c: char) {
    c <= ' '
  }

  /** The string without its leading characters of code at most U+0020. */
  function TrimStart(s: string): (r: string)
    ensures |r| <= |s| && r == s[|s| - |r|..]
    ensures r != [] ==> !TrimmedAway(r[0])
    ensures forall i :: 0 <= i < |s| - |r| ==> TrimmedAway(s[i])
  {
    if s != [] && TrimmedAway(s[0]) then TrimStart(s[1..]) else s
  }

  /** The string without its trailing characters of code at most U+0020. */
  function TrimEnd(s: string): (r: string)
    ensures |r| <= |s| && r == s[..|r|]
    ensures r != [] ==> !TrimmedAway(r[|r| - 1])
    ensures forall i :: |r| <= i < |s| ==> TrimmedAway(s[i])
  {
    if s != [] && TrimmedAway(s[|s| - 1]) then TrimEnd(s[..|s| - 1]) else s
  }

  /**
   * String.trim(): what remains is the slice of `s` that starts and ends with a kept
   * character, and everything cut off on either side is a character trim() removes.
   */
  function Trim(s: string): (r: string)
    ensures |r| <= |s|
    ensures r != [] ==> !TrimmedAway(r[0]) && !TrimmedAway(r[|r| - 1])
    ensures var k := |s| - |TrimStart(s)|;
      && k + |r| <= |s|
      && r == s[k..k + |r|]
      && (forall i :: 0 <= i < k ==> TrimmedAway(s[i]))
      && (forall i :: k + |r| <= i < |s| ==> TrimmedAway(s[i]))
  {
    PrefixOfSuffix(s, TrimStart(s), TrimEnd(TrimStart(s)));
    TrimEnd(TrimStart(s))
  }

  /** A prefix `r` of a suffix `t` of `s` is a slice of `s`, and what `t` drops after `r` is what `s` drops. */
  lemma PrefixOfSuffix(s: string, t: string, r: string)
    requires |t| <= |s| && t == s[|s| - |t|..]
    requires |r| <= |t| && r == t[..|r|]
    requires forall i :: |r| <= i < |t| ==> TrimmedAway(t[i])
    ensures var k := |s| - |t|;
      && r == s[k..k + |r|]
      && (forall i :: k + |r| <= i < |s| ==> TrimmedAway(s[i]))
  {
    var k := |s| - |t|;
    forall i | k + |r| <= i < |s|
      ensures TrimmedAway(s[i])
    {
      assert s[i] == t[i - k];
    }
  }

  /** `s.trim().isEmpty()` holds exactly when every character of `s` is one that trim() removes. */
  lemma TrimIsEmpty(s: string)
    ensures Trim(s) == [] <==> forall i :: 0 <= i < |s| ==> TrimmedAway(s[i])
  {
    var t := TrimStart(s);
    if Trim(s) != [] {
      var r := Trim(s);
      assert r[0] == t[0];
      assert t[0] == s[|s| - |t|];
    }
  }

  /** String.endsWith(suffix). */
  predicate EndsWith(s: string, suffix: string): (r: bool)
    ensures r <==> |suffix| <= |s| && forall i :: 0 <= i < |suffix| ==> s[|s| - |suffix| + i] == suffix[i]
  {
    |suffix| <= |s| && s[|s| - |suffix|..] == suffix
  }

  /**
   * Character.toUpperCase, restricted to the ASCII letters: the result is never a
   * lower-case letter, a lower-case letter becomes the upper-case letter that
   * lower-cases back to it, and every other character is left alone.
   */
  function UpperAscii(c: char): (u: char)
    ensures !('a' <= u <= 'z')
    ensures 'a' <= c <= 'z' ==> 'A' <= u <= 'Z' && LowerAscii(u) == c
    ensures !('a' <= c <= 'z') ==> u == c
  {
    if 'a' <= c <= 'z' then (c as int - 32) as char else c
  }

  /**
   * Character.toLowerCase, restricted to the ASCII letters: the result is never an
   * upper-case letter, an upper-case letter becomes a lower-case one, and every
   * other character is left alone.
   */
  function LowerAscii(c: char): (l: char)
    ensures !('A' <= l <= 'Z')
    ensures 'A' <= c <= 'Z' ==> 'a' <= l <= 'z'
    ensures !('A' <= c <= 'Z') ==> l == c
  {
    if 'A' <= c <= 'Z' then (c as int + 32) as char else c
  }

  /** Lower-casing an upper-case letter gives the letter at the same place in the lower-case alphabet, which upper-cases back to it. */
  lemma LowerUpperRoundTrip(c: char)
    requires 'A' <= c <= 'Z'
    ensures LowerAscii(c) as int - 'a' as int == c as int - 'A' as int
    ensures UpperAscii(LowerAscii(c)) == c
  {
  }

  /** Upper-casing a lower-case letter gives the letter at the same place in the upper-case alphabet, which lower-cases back to it. */
  lemma UpperLowerRoundTrip(c: char)
    requires 'a' <= c <= 'z'
    ensures UpperAscii(c) as int - 'A' as int == c as int - 'a' as int
    ensures LowerAscii(UpperAscii(c)) == c
  {
  }

  /** The per-character test of String.regionMatches(ignoreCase = true, ...). */
  predicate CharsEqualIgnoreCase(c: char, d: char) {
    c == d || UpperAscii(c) == UpperAscii(d) || LowerAscii(UpperAscii(c)) == LowerAscii(UpperAscii(d))
  }

  /** `a.equalsIgnoreCase(b)`: false for a null `b`, else same length and pairwise equal ignoring case. */
  predicate EqualsIgnoreCase(a: string, b: Option<string>): (r: bool)
    ensures b.None? ==> !r
    ensures r ==> |a| == |b.value|
    ensures b == Some(a) ==> r
  {
    && b.Some?
    && |a| == |b.value|
    && forall i :: 0 <= i < |a| ==> CharsEqualIgnoreCase(a[i], b.value[i])
  }

  /** An upper-case ASCII letter matches, ignoring case, only itself and its lower-case form. */
  lemma UpperLetterIgnoringCase(c: char, d: char)
    requires 'A' <= c <= 'Z'
    ensures CharsEqualIgnoreCase(c, d) <==> d == c || d as int == c as int + 32
  {
    if 'a' <= d <= 'z' {
      assert UpperAscii(d) as int == d as int - 32;
    }
  }
}
