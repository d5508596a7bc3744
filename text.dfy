/**
 * String helpers shared by the browser client and the server: stripping
 * leading and trailing whitespace (JavaScript's `String.prototype.trim`,
 * Python's `str.strip`) and Python's `str.join`.
 */
module Text {

  /** Every character of `s` satisfies `ws`. */
  predicate AllWs(s: string, ws: char -> bool) {
    forall i :: 0 <= i < |s| ==> ws(s[i])
  }

  /** Every character of `s` at an index in `[lo, hi)` satisfies `ws`. */
  predicate WsBetween(s: string, lo: int, hi: int, ws: char -> bool) {
    forall i :: 0 <= lo <= i < hi <= |s| ==> ws(s[i])
  }

  /**
   * `r` is `s[lo..hi]`, everything of `s` outside that piece is whitespace,
   * and the piece neither begins nor ends with whitespace.
   */
  predicate StrippedAt(s: string, r: string, lo: int, hi: int, ws: char -> bool) {
    0 <= lo <= hi <= |s| && r == s[lo..hi]
    && WsBetween(s, 0, lo, ws) && WsBetween(s, hi, |s|, ws)
    && (r != [] ==> !ws(r[0]) && !ws(r[|r| - 1]))
  }

  /**
   * `r` is `s` with a maximal whitespace prefix and a maximal whitespace
   * suffix removed.
   */
  ghost predicate IsStripOf(s: string, r: string, ws: char -> bool) {
    exists lo, hi :: StrippedAt(s, r, lo, hi, ws)
  }

  /** Removes leading whitespace. */
  function StripStart(s: string, ws: char -> bool): (r: string)
    ensures |r| <= |s| && r == s[|s| - |r|..]
    ensures WsBetween(s, 0, |s| - |r|, ws)
    ensures r != [] ==> !ws(r[0])
    decreases |s|
  {
    if s != [] && ws(s[0]) then StripStart(s[1..], ws) else s
  }

  /** Removes trailing whitespace. */
  function StripEnd(s: string, ws: char -> bool): (r: string)
    ensures |r| <= |s| && r == s[..|r|]
    ensures WsBetween(s, |r|, |s|, ws)
    ensures r != [] ==> !ws(r[|r| - 1])
    decreases |s|
  {
    if s != [] && ws(s[|s| - 1]) then StripEnd(s[..|s| - 1], ws) else s
  }

  /** Removes leading and trailing whitespace, keeping the interior as it is. */
  function Strip(s: string, ws: char -> bool): (r: string)
    ensures IsStripOf(s, r, ws)
  {
    var t := StripStart(s, ws);
    var r := StripEnd(t, ws);
    StripBothEnds(s, t, r, ws);
    r
  }

  /** Stripping the start and then the end of what is left strips both ends. */
  lemma StripBothEnds(s: string, t: string, r: string, ws: char -> bool)
    requires |t| <= |s| && t == s[|s| - |t|..] && WsBetween(s, 0, |s| - |t|, ws) && (t != [] ==> !ws(t[0]))
    requires |r| <= |t| && r == t[..|r|] && WsBetween(t, |r|, |t|, ws) && (r != [] ==> !ws(r[|r| - 1]))
    ensures StrippedAt(s, r, |s| - |t|, |s| - |t| + |r|, ws)
  {
    var lo := |s| - |t|;
    assert forall i :: lo + |r| <= i < |s| ==> s[i] == t[i - lo];
  }

  /** The stripped string is empty exactly when the input is all whitespace. */
  lemma StripEmptyIff(s: string, ws: char -> bool)
    ensures Strip(s, ws) == [] <==> AllWs(s, ws)
  {
    var r := Strip(s, ws);
    var lo, hi :| StrippedAt(s, r, lo, hi, ws);
    StrippedAtEmptyIff(s, r, lo, hi, ws);
  }

  /** Any strip of `s` is empty exactly when `s` is all whitespace. */
  lemma StrippedAtEmptyIff(s: string, r: string, lo: int, hi: int, ws: char -> bool)
    requires StrippedAt(s, r, lo, hi, ws)
    ensures r == [] <==> AllWs(s, ws)
  {
    if r != [] {
      assert s[lo] == r[0];
    }
  }

  /** `Strip` is the only function meeting `IsStripOf`: the characterisation is complete. */
  lemma StripUnique(s: string, r: string, ws: char -> bool)
    requires IsStripOf(s, r, ws)
    ensures r == Strip(s, ws)
  {
    var r' := Strip(s, ws);
    var lo, hi :| StrippedAt(s, r, lo, hi, ws);
    var lo', hi' :| StrippedAt(s, r', lo', hi', ws);
    StrippedAtEmptyIff(s, r, lo, hi, ws);
    StrippedAtEmptyIff(s, r', lo', hi', ws);
    if r != [] {
      SameStrip(s, r, r', lo, hi, lo', hi', ws);
    }
  }

  /** Two non-empty strips of the same string cut it at the same places. */
  lemma SameStrip(s: string, r: string, r': string, lo: int, hi: int, lo': int, hi': int, ws: char -> bool)
    requires StrippedAt(s, r, lo, hi, ws) && StrippedAt(s, r', lo', hi', ws)
    requires r != [] && r' != []
    ensures r == r'
  {
    assert s[lo] == r[0] && s[lo'] == r'[0];
    assert s[hi - 1] == r[|r| - 1] && s[hi' - 1] == r'[|r'| - 1];
    FirstNonWsUnique(s, lo, lo', ws);
    LastNonWsUnique(s, hi, hi', ws);
  }

  /** Only one index can be preceded by whitespace alone and hold a non-whitespace character. */
  lemma FirstNonWsUnique(s: string, a: nat, b: nat, ws: char -> bool)
    requires a < |s| && b < |s| && !ws(s[a]) && !ws(s[b])
    requires WsBetween(s, 0, a, ws) && WsBetween(s, 0, b, ws)
    ensures a == b
  {
  }

  /** Only one end can be followed by whitespace alone and be preceded by a non-whitespace character. */
  lemma LastNonWsUnique(s: string, a: nat, b: nat, ws: char -> bool)
    requires 0 < a <= |s| && 0 < b <= |s| && !ws(s[a - 1]) && !ws(s[b - 1])
    requires WsBetween(s, a, |s|, ws) && WsBetween(s, b, |s|, ws)
    ensures a == b
  {
  }

  /** Stripping twice changes nothing more. */
  lemma StripIdempotent(s: string, ws: char -> bool)
    ensures Strip(Strip(s, ws), ws) == Strip(s, ws)
  {
    var r := Strip(s, ws);
    var lo, hi :| StrippedAt(s, r, lo, hi, ws);
    assert r == r[0..|r|];
    assert StrippedAt(r, r, 0, |r|, ws);
    StripUnique(r, r, ws);
  }

  /** Python's `sep.join(xs)`. */
  function Join(sep: string, xs: seq<string>): (r: string)
    ensures xs == [] ==> r == []
    ensures |xs| == 1 ==> r == xs[0]
    decreases |xs|
  {
    if xs == [] then []
    else if |xs| == 1 then xs[0]
    else xs[0] + sep + Join(sep, xs[1..])
  }

  /** A join is as long as its pieces together plus one separator between each two. */
  lemma {:induction false} JoinLength(sep: string, xs: seq<string>)
    requires xs != []
    ensures |Join(sep, xs)| == TotalLength(xs) + |sep| * (|xs| - 1)
    decreases |xs|
  {
    if |xs| > 1 {
      JoinLength(sep, xs[1..]);
    }
  }

  /** Sum of the lengths of the pieces. */
  function TotalLength(xs: seq<string>): nat
    decreases |xs|
  {
    if xs == [] then 0 else |xs[0]| + TotalLength(xs[1..])
  }

  /** Where piece `i` starts in `Join(sep, xs)`: each earlier piece and one separator apiece. */
  function Offset(sep: string, xs: seq<string>, i: nat): nat
    requires i <= |xs|
    decreases i
  {
    if i == 0 then 0 else |xs[0]| + |sep| + Offset(sep, xs[1..], i - 1)
  }

  /** A slice that lies wholly in the right operand of a concatenation. */
  lemma SliceOfRight(a: string, b: string, lo: nat, hi: nat)
    requires |a| <= lo <= hi <= |a| + |b|
    ensures (a + b)[lo..hi] == b[lo - |a|..hi - |a|]
  {
  }

  /** A join starts with its first piece. */
  lemma JoinStartsWithFirst(sep: string, xs: seq<string>)
    requires xs != []
    ensures |xs[0]| <= |Join(sep, xs)| && Join(sep, xs)[..|xs[0]|] == xs[0]
  {
    if |xs| > 1 {
      var tail := sep + Join(sep, xs[1..]);
      assert Join(sep, xs) == xs[0] + tail;
    }
  }

  /** A join of two or more pieces is the first piece, a separator, and the join of the rest. */
  lemma JoinUnfold(sep: string, xs: seq<string>)
    requires |xs| > 1
    ensures Join(sep, xs) == (xs[0] + sep) + Join(sep, xs[1..])
    ensures forall i :: 0 < i <= |xs| ==> Offset(sep, xs, i) == |xs[0] + sep| + Offset(sep, xs[1..], i - 1)
  {
  }

  /** Piece `i` of a join sits at `Offset(sep, xs, i)`: the pieces appear in the order of the list. */
  lemma {:induction false} JoinPieceAt(sep: string, xs: seq<string>, i: nat)
    requires i < |xs|
    ensures Offset(sep, xs, i) + |xs[i]| <= |Join(sep, xs)|
    ensures Join(sep, xs)[Offset(sep, xs, i)..Offset(sep, xs, i) + |xs[i]|] == xs[i]
    decreases i
  {
    if i == 0 {
      JoinStartsWithFirst(sep, xs);
    } else {
      JoinPieceAt(sep, xs[1..], i - 1);
      JoinUnfold(sep, xs);
      var o := Offset(sep, xs[1..], i - 1);
      assert xs[1..][i - 1] == xs[i];
      SliceOfRight(xs[0] + sep, Join(sep, xs[1..]), |xs[0] + sep| + o, |xs[0] + sep| + o + |xs[i]|);
    }
  }

  /** A separator follows every piece of a join but the last. */
  lemma {:induction false} JoinSeparatorAfter(sep: string, xs: seq<string>, i: nat)
    requires i + 1 < |xs|
    ensures Offset(sep, xs, i) + |xs[i]| + |sep| <= |Join(sep, xs)|
    ensures Join(sep, xs)[Offset(sep, xs, i) + |xs[i]|..Offset(sep, xs, i) + |xs[i]| + |sep|] == sep
    decreases i
  {
    JoinUnfold(sep, xs);
    if i == 0 {
      assert ((xs[0] + sep) + Join(sep, xs[1..]))[|xs[0]|..|xs[0]| + |sep|] == sep;
    } else {
      JoinSeparatorAfter(sep, xs[1..], i - 1);
      var o := Offset(sep, xs[1..], i - 1);
      assert xs[1..][i - 1] == xs[i];
      SliceOfRight(xs[0] + sep, Join(sep, xs[1..]), |xs[0] + sep| + o + |xs[i]|, |xs[0] + sep| + o + |xs[i]| + |sep|);
    }
  }
}
