/**
 * The JavaScript string built-ins the application relies on, over `seq<char>`:
 * `toLowerCase` (its ASCII part), the whitespace set shared by `trim` and the
 * regular-expression class `\s`, `includes`, `join` and `split` on one
 * character, and the ASCII case folding of a regular expression with the `i` flag.
 */
module Strings {

  type String = seq<char>

  /** `toLowerCase` of one character, restricted to the ASCII letters A-Z. */
  function LowerChar(c: char): char
  {
    if 'A' <= c <= 'Z' then (c as int + 32) as char else c
  }

  /** `toLowerCase` of a string, character by character (ASCII letters only). */
  function Lower(s: String): (r: String)
    ensures |r| == |s|
    ensures forall i :: 0 <= i < |s| ==> r[i] == LowerChar(s[i])
  {
    seq(|s|, i requires 0 <= i < |s| => LowerChar(s[i]))
  }

  /** The ECMAScript LineTerminator characters: those `.` does not match. */
  predicate IsLineTerminator(c: char)
  {
    c == '\n' || c == '\r' || c == '\U{2028}' || c == '\U{2029}'
  }

  /**
   * The ECMAScript WhiteSpace and LineTerminator characters: what `trim`
   * removes and what `\s` matches (tab, vertical tab, form feed, space,
   * no-break space, the byte order mark, the Unicode space separators and the
   * line terminators).
   */
  predicate IsSpace(c: char)
  {
    || c == '\t' || c == '\U{000B}' || c == '\U{000C}' || c == ' '
    || c == '\U{00A0}' || c == '\U{FEFF}' || c == '\U{1680}'
    || ('\U{2000}' <= c <= '\U{200A}')
    || c == '\U{202F}' || c == '\U{205F}' || c == '\U{3000}'
    || IsLineTerminator(c)
  }

  predicate AllSpaces(s: String)
  {
    forall i :: 0 <= i < |s| ==> IsSpace(s[i])
  }

  /** The leading-whitespace half of `trim`: the longest suffix of `s` that does not start with whitespace. */
  function TrimStart(s: String): (r: String)
    ensures |r| <= |s| && r == s[|s| - |r|..]
    ensures AllSpaces(s[..|s| - |r|])
    ensures r == [] || !IsSpace(r[0])
  {
    if s != [] && IsSpace(s[0]) then TrimStart(s[1..]) else s
  }

  /** The trailing-whitespace half of `trim`: the longest prefix of `s` that does not end with whitespace. */
  function TrimEnd(s: String): (r: String)
    ensures |r| <= |s| && r == s[..|r|]
    ensures AllSpaces(s[|r|..])
    ensures r == [] || !IsSpace(r[|r| - 1])
  {
    if s != [] && IsSpace(s[|s| - 1]) then TrimEnd(s[..|s| - 1]) else s
  }

  /** `String.prototype.trim`. */
  function Trim(s: String): (r: String)
    ensures r == [] || (!IsSpace(r[0]) && !IsSpace(r[|r| - 1]))
  {
    TrimEnd(TrimStart(s))
  }

  lemma SpacesBefore(s: String, i: nat)
    requires i <= |s| && AllSpaces(s[..i])
    ensures forall k :: 0 <= k < i ==> IsSpace(s[k])
  {
    forall k | 0 <= k < i ensures IsSpace(s[k]) {
      assert s[..i][k] == s[k];
    }
  }

  lemma SpacesFrom(s: String, j: nat)
    requires j <= |s| && AllSpaces(s[j..])
    ensures forall k :: j <= k < |s| ==> IsSpace(s[k])
  {
    forall k | j <= k < |s| ensures IsSpace(s[k]) {
      assert s[j..][k - j] == s[k];
    }
  }

  /** `Trim(s)` is the slice of `s` left once the whitespace at both ends is cut off. */
  lemma TrimIsSlice(s: String) returns (i: nat, j: nat)
    ensures i <= j <= |s| && Trim(s) == s[i..j]
    ensures forall k :: 0 <= k < i ==> IsSpace(s[k])
    ensures forall k :: j <= k < |s| ==> IsSpace(s[k])
  {
    var t := TrimStart(s);
    var u := TrimEnd(t);
    i := |s| - |t|;
    j := i + |u|;
    assert s[j..] == t[|u|..];
    assert t[..|u|] == s[i..j];
    SpacesBefore(s, i);
    SpacesFrom(s, j);
  }

  /** `w` occurs in `s` at index `i`. */
  predicate OccursAt(s: String, i: nat, w: String)
  {
    i + |w| <= |s| && s[i..i + |w|] == w
  }

  /** `String.prototype.includes`: a left-to-right search for `w` in `s`. */
  predicate Contains(s: String, w: String)
    decreases |s|
  {
    |w| <= |s| && (s[..|w|] == w || Contains(s[1..], w))
  }

  /** `Contains` holds exactly when `w` occurs at some index of `s`. */
  lemma {:induction false} ContainsIff(s: String, w: String)
    ensures Contains(s, w) <==> exists i: nat :: OccursAt(s, i, w)
    decreases |s|
  {
    if |w| <= |s| {
      if s[..|w|] == w {
        assert OccursAt(s, 0, w);
      } else {
        ContainsIff(s[1..], w);
        if Contains(s[1..], w) {
          var i: nat :| OccursAt(s[1..], i, w);
          assert s[1..][i..i + |w|] == s[i + 1..i + 1 + |w|];
          assert OccursAt(s, i + 1, w);
        }
        if i: nat :| OccursAt(s, i, w) {
          assert i != 0;
          assert s[1..][i - 1..i - 1 + |w|] == s[i..i + |w|];
          assert OccursAt(s[1..], i - 1, w);
        }
      }
    }
  }

  lemma ContainsAt(s: String, i: nat, w: String)
    requires OccursAt(s, i, w)
    ensures Contains(s, w)
  {
    ContainsIff(s, w);
  }

  /** Containment is transitive: what occurs in a substring of `s` occurs in `s`. */
  lemma ContainsTransitive(s: String, w: String, v: String)
    requires Contains(s, w) && Contains(w, v)
    ensures Contains(s, v)
  {
    ContainsIff(s, w);
    ContainsIff(w, v);
    var i: nat :| OccursAt(s, i, w);
    var k: nat :| OccursAt(w, k, v);
    var a, b := s[i + k..i + k + |v|], w[k..k + |v|];
    assert forall m :: 0 <= m < |v| ==> a[m] == b[m];
    ContainsAt(s, i + k, v);
  }

  lemma OccursInSlice(s: String, i: nat, j: nat, k: nat, w: String)
    requires i <= j <= |s| && OccursAt(s[i..j], k, w)
    ensures OccursAt(s, i + k, w)
  {
    var a, b := s[i + k..i + k + |w|], s[i..j][k..k + |w|];
    assert forall m :: 0 <= m < |w| ==> a[m] == b[m];
  }

  lemma OccursWithinSlice(s: String, i: nat, j: nat, k: nat, w: String)
    requires OccursAt(s, k, w) && i <= k && k + |w| <= j <= |s|
    ensures OccursAt(s[i..j], k - i, w)
  {
    var a, b := s[i..j][k - i..k - i + |w|], s[k..k + |w|];
    assert forall m :: 0 <= m < |w| ==> a[m] == b[m];
  }

  /**
   * Trimming does not change whether a non-empty word without whitespace
   * occurs: every occurrence lies inside the trimmed slice.
   */
  lemma ContainsTrim(s: String, w: String)
    requires w != [] && forall k :: 0 <= k < |w| ==> !IsSpace(w[k])
    ensures Contains(Trim(s), w) <==> Contains(s, w)
  {
    var i, j := TrimIsSlice(s);
    ContainsIff(s[i..j], w);
    ContainsIff(s, w);
    if Contains(s[i..j], w) {
      var k: nat :| OccursAt(s[i..j], k, w);
      OccursInSlice(s, i, j, k, w);
    }
    if Contains(s, w) {
      var k: nat :| OccursAt(s, k, w);
      assert s[k] == w[0] && s[k + |w| - 1] == w[|w| - 1];
      OccursWithinSlice(s, i, j, k, w);
    }
  }

  /** A word with a character that `s` lacks does not occur in `s`. */
  lemma MissingCharNotContained(s: String, w: String, c: char)
    requires c in w && c !in s
    ensures !Contains(s, w)
  {
    ContainsIff(s, w);
    var k :| 0 <= k < |w| && w[k] == c;
    forall i: nat | i + |w| <= |s| ensures !OccursAt(s, i, w) {
      assert s[i + k] != c;
      assert s[i..i + |w|][k] == s[i + k];
    }
  }

  /** Lower-casing keeps every occurrence: lower-case searches find what exact ones find. */
  lemma LowerContains(s: String, w: String)
    requires Contains(s, w)
    ensures Contains(Lower(s), Lower(w))
  {
    ContainsIff(s, w);
    var i: nat :| OccursAt(s, i, w);
    assert Lower(s)[i..i + |w|] == Lower(w);
    ContainsAt(Lower(s), i, Lower(w));
  }

  lemma LowerIdempotent(s: String)
    ensures Lower(Lower(s)) == Lower(s)
  {
  }

  /**
   * A regular expression with the `i` flag (and no `u` flag) matches the
   * pattern `w` at index `i` of `s`. The patterns here are ASCII, and under
   * this flag a non-ASCII character never folds onto an ASCII one, so ASCII
   * case folding is exact.
   */
  predicate MatchesIgnoreCaseAt(s: String, i: nat, w: String)
  {
    i + |w| <= |s| && Lower(s[i..i + |w|]) == Lower(w)
  }

  /** `Array.prototype.join(sep)`. */
  function Join(xs: seq<String>, sep: String): String
  {
    if |xs| == 0 then []
    else if |xs| == 1 then xs[0]
    else xs[0] + sep + Join(xs[1..], sep)
  }

  /** A character in neither the pieces nor the separator is not in their join. */
  lemma {:induction false} JoinExcludes(xs: seq<String>, sep: String, c: char)
    requires c !in sep && forall k :: 0 <= k < |xs| ==> c !in xs[k]
    ensures c !in Join(xs, sep)
  {
    if |xs| > 1 {
      JoinExcludes(xs[1..], sep, c);
    }
  }

  /** `String.prototype.split` on a one-character separator. */
  function Split(s: String, sep: char): (r: seq<String>)
    ensures |r| >= 1
  {
    if s == [] then [[]]
    else if s[0] == sep then [[]] + Split(s[1..], sep)
    else
      var rest := Split(s[1..], sep);
      [[s[0]] + rest[0]] + rest[1..]
  }

  /** Splitting a piece without the separator, followed by the separator, peels that piece off. */
  lemma {:induction false} SplitPiece(x: String, sep: char, rest: String)
    requires sep !in x
    ensures Split(x + [sep] + rest, sep) == [x] + Split(rest, sep)
  {
    if x != [] {
      assert x[0] != sep && [x[0]] + x[1..] == x;
      assert (x + [sep] + rest)[1..] == x[1..] + [sep] + rest;
      SplitPiece(x[1..], sep, rest);
    } else {
      assert x + [sep] + rest == [sep] + rest;
    }
  }

  lemma {:induction false} SplitWhole(x: String, sep: char)
    requires sep !in x
    ensures Split(x, sep) == [x]
  {
    if x != [] {
      assert x[0] != sep && [x[0]] + x[1..] == x;
      SplitWhole(x[1..], sep);
    }
  }

  /** `split` undoes `join` when no piece contains the separator. */
  lemma {:induction false} SplitJoin(xs: seq<String>, sep: char)
    requires |xs| >= 1
    requires forall k :: 0 <= k < |xs| ==> sep !in xs[k]
    ensures Split(Join(xs, [sep]), sep) == xs
  {
    if |xs| == 1 {
      SplitWhole(xs[0], sep);
    } else {
      SplitPiece(xs[0], sep, Join(xs[1..], [sep]));
      SplitJoin(xs[1..], sep);
    }
  }
}
