/**
 * java.lang.String.split(regex) for the two separator expressions that matter to
 * the new-table check: the expression the task actually passes, "/s*,/s*", and the
 * comma-with-optional-whitespace expression "\\s*,\\s*" it evidently meant.
 *
 * Java's split scans left to right for non-overlapping matches, cuts the string at
 * each, returns the whole string when nothing matches, and otherwise drops the
 * trailing empty pieces (a leading empty piece is kept, every match here being
 * at least one character wide).
 */
module ListSplit {
  import opened Wrappers

  datatype Separator =
    | SlashSeparator   // "/s*,/s*": '/', a run of 's', ',', '/', a run of 's'
    | CommaSeparator   // "\\s*,\\s*": ',' with any whitespace on either side

  /** The regular-expression class \s: space, tab, newline, vertical tab, form feed, carriage return. */
  predicate IsRegexSpace(c: char) {
    c == ' ' || '\t' <= c <= '\r'
  }

  predicate IsLetterS(c: char) {
    c == 's'
  }

  /** Length of the longest prefix of `s` whose characters all satisfy `p` (a greedy `p*`). */
  function CountLeading(s: string, p: char -> bool): (n: nat)
    ensures n <= |s|
    ensures forall i :: 0 <= i < n ==> p(s[i])
    ensures n < |s| ==> !p(s[n])
  {
    if s != [] && p(s[0]) then 1 + CountLeading(s[1..], p) else 0
  }

  /**
   * The length of the separator match that starts at the first character of `s`, if any.
   * Greedy and backtracking matching agree here: a run of `s`/whitespace must be followed by ','.
   */
  function MatchPrefix(sep: Separator, s: string): (r: Option<nat>)
    ensures r.Some? ==> 0 < r.value <= |s|
    ensures r.Some? ==> ',' in s[..r.value]
  {
    match sep
    case SlashSeparator =>
      if s == [] || s[0] != '/' then None
      else
        var k := 1 + CountLeading(s[1..], IsLetterS);
        if k + 1 < |s| && s[k] == ',' && s[k + 1] == '/' then
          assert s[..k + 2][k] == ',';
          Some(k + 2 + CountLeading(s[k + 2..], IsLetterS))
        else None
    case CommaSeparator =>
      var k := CountLeading(s, IsRegexSpace);
      if k < |s| && s[k] == ',' then
        assert s[..k + 1][k] == ',';
        Some(k + 1 + CountLeading(s[k + 1..], IsRegexSpace))
      else None
  }

  /** The pieces of `cur + s` between separator matches, scanning `s` left to right. */
  function Pieces(sep: Separator, s: string, cur: string): (r: seq<string>)
    ensures |r| >= 1
    decreases |s|
  {
    if s == [] then [cur]
    else match MatchPrefix(sep, s)
      case Some(n) => [cur] + Pieces(sep, s[n..], [])
      case None => Pieces(sep, s[1..], cur + [s[0]])
  }

  function DropTrailingEmpty(p: seq<string>): (r: seq<string>)
    ensures |r| <= |p| && r == p[..|r|]
    ensures r != [] ==> r[|r| - 1] != []
    ensures forall i :: |r| <= i < |p| ==> p[i] == []
  {
    if p != [] && p[|p| - 1] == [] then DropTrailingEmpty(p[..|p| - 1]) else p
  }

  /** `s.split(regex)` with Java's limit 0. */
  function Split(sep: Separator, s: string): (r: seq<string>)
    ensures s == [] ==> r == [[]]
    ensures |r| >= 2 ==> r[|r| - 1] != []
  {
    var p := Pieces(sep, s, []);
    // A single piece means no separator matched: Java then returns the string itself, unpruned.
    if |p| == 1 then p else DropTrailingEmpty(p)
  }

  /** A string without any '/' gets no "/s*,/s*" match, so it comes back as one piece, commas and all. */
  lemma {:induction false} PiecesWithoutSlash(s: string, cur: string)
    requires forall i :: 0 <= i < |s| ==> s[i] != '/'
    ensures Pieces(SlashSeparator, s, cur) == [cur + s]
    decreases |s|
  {
    if s == [] {
      assert cur + s == cur;
    } else {
      assert MatchPrefix(SlashSeparator, s).None?;
      PiecesWithoutSlash(s[1..], cur + [s[0]]);
      assert cur + [s[0]] + s[1..] == cur + s;
    }
  }

  lemma SplitWithoutSlash(s: string)
    requires forall i :: 0 <= i < |s| ==> s[i] != '/'
    ensures Split(SlashSeparator, s) == [s]
  {
    PiecesWithoutSlash(s, []);
    assert [] + s == s;
  }

  /** A list element that the comma separator can never cut or trim: non-empty, no ',' and no whitespace. */
  predicate CleanToken(t: string) {
    t != [] && forall i :: 0 <= i < |t| ==> t[i] != ',' && !IsRegexSpace(t[i])
  }

  /** The elements joined with "," in between (the form in which the lists are configured). */
  function Join(xs: seq<string>): (r: string)
    decreases |xs|
  {
    if xs == [] then []
    else if |xs| == 1 then xs[0]
    else xs[0] + "," + Join(xs[1..])
  }

  lemma {:induction false} JoinStartsWithToken(xs: seq<string>)
    requires |xs| > 0 && CleanToken(xs[0])
    ensures Join(xs) != [] && Join(xs)[0] == xs[0][0]
  {
    if |xs| > 1 {
      assert Join(xs) == xs[0] + "," + Join(xs[1..]);
    }
  }

  /** Scanning over a clean token only extends the current piece. */
  lemma {:induction false} PiecesAbsorbToken(t: string, rest: string, cur: string)
    requires forall i :: 0 <= i < |t| ==> t[i] != ',' && !IsRegexSpace(t[i])
    ensures Pieces(CommaSeparator, t + rest, cur) == Pieces(CommaSeparator, rest, cur + t)
    decreases |t|
  {
    if t == [] {
      assert t + rest == rest;
      assert cur + t == cur;
    } else {
      var s := t + rest;
      assert s[0] == t[0];
      assert CountLeading(s, IsRegexSpace) == 0;
      assert MatchPrefix(CommaSeparator, s).None?;
      assert s[1..] == t[1..] + rest;
      PiecesAbsorbToken(t[1..], rest, cur + [s[0]]);
      assert cur + [s[0]] + t[1..] == cur + t;
    }
  }

  lemma {:induction false} PiecesOfJoin(xs: seq<string>)
    requires |xs| > 0
    requires forall k :: 0 <= k < |xs| ==> CleanToken(xs[k])
    ensures Pieces(CommaSeparator, Join(xs), []) == xs
    decreases |xs|
  {
    if |xs| == 1 {
      PiecesAbsorbToken(xs[0], [], []);
      assert xs[0] + [] == xs[0];
      assert [] + xs[0] == xs[0];
    } else {
      var rest := Join(xs[1..]);
      JoinStartsWithToken(xs[1..]);
      PiecesAbsorbToken(xs[0], "," + rest, []);
      assert Join(xs) == xs[0] + ("," + rest);
      var s := "," + rest;
      assert CountLeading(s, IsRegexSpace) == 0;
      assert CountLeading(s[1..], IsRegexSpace) == 0 by {
        assert s[1..] == rest;
      }
      assert MatchPrefix(CommaSeparator, s) == Some(1);
      assert s[1..] == rest;
      PiecesOfJoin(xs[1..]);
      assert [] + xs[0] == xs[0];
      assert xs == [xs[0]] + xs[1..];
    }
  }

  /** Splitting a comma-joined list of clean elements on "\\s*,\\s*" gives the elements back. */
  lemma SplitJoinRoundTrip(xs: seq<string>)
    requires |xs| > 0
    requires forall k :: 0 <= k < |xs| ==> CleanToken(xs[k])
    ensures Split(CommaSeparator, Join(xs)) == xs
  {
    PiecesOfJoin(xs);
    assert xs[|xs| - 1] != [];
  }
}
