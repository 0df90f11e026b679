/**
 * The JavaScript array built-ins the components rely on: `filter`, the
 * insertion-ordered `Set` used to drop duplicates (`[...new Set(xs)]`), and
 * `sort()` followed by `reverse()` on strings.
 */
module Arrays {
  import opened Strings

  /** `Array.prototype.filter(p)`. */
  function Filter<T>(s: seq<T>, p: T -> bool): (r: seq<T>)
    ensures |r| <= |s|
  {
    if s == [] then []
    else (if p(s[0]) then [s[0]] else []) + Filter(s[1..], p)
  }

  /**
   * `idx` lists positions of `b`, strictly increasing, whose elements spell
   * out `a`: `a` is an order-preserving subsequence of `b`.
   */
  ghost predicate Embeds<T>(idx: seq<nat>, a: seq<T>, b: seq<T>)
  {
    && |idx| == |a|
    && (forall k :: 0 <= k < |idx| ==> idx[k] < |b| && a[k] == b[idx[k]])
    && (forall k, l :: 0 <= k < l < |idx| ==> idx[k] < idx[l])
  }

  function Shift(idx: seq<nat>): (r: seq<nat>)
    ensures |r| == |idx| && forall k :: 0 <= k < |idx| ==> r[k] == idx[k] + 1
  {
    seq(|idx|, k requires 0 <= k < |idx| => idx[k] + 1)
  }

  /** An embedding into the tail of `b` shifts to one into `b`, which may also take `b[0]`. */
  lemma EmbedsCons<T>(idx: seq<nat>, a: seq<T>, b: seq<T>)
    requires b != [] && Embeds(idx, a, b[1..])
    ensures Embeds(Shift(idx), a, b)
    ensures Embeds([0] + Shift(idx), [b[0]] + a, b)
    ensures 0 !in Shift(idx)
    ensures forall i :: 1 <= i < |b| ==> (i in Shift(idx) <==> i - 1 in idx)
  {
    ShiftMembers(idx, |b|);
    var full := [0] + Shift(idx);
    forall k | 0 <= k < |full| ensures full[k] < |b| && ([b[0]] + a)[k] == b[full[k]] {
      if k > 0 {
        assert full[k] == idx[k - 1] + 1;
      }
    }
  }

  lemma ShiftMembers(idx: seq<nat>, n: nat)
    ensures forall i :: 1 <= i < n ==> (i in Shift(idx) <==> i - 1 in idx)
  {
    var sh := Shift(idx);
    forall i | 1 <= i < n ensures i in sh <==> i - 1 in idx {
      if i - 1 in idx {
        var k :| 0 <= k < |idx| && idx[k] == i - 1;
        assert sh[k] == i;
      }
    }
  }

  /** The positions for `s` follow from those for its tail. */
  lemma FilterPositionsCons<T>(s: seq<T>, p: T -> bool, rest: seq<nat>) returns (idx: seq<nat>)
    requires s != [] && Embeds(rest, Filter(s[1..], p), s[1..])
    requires forall i :: 0 <= i < |s[1..]| ==> (p(s[1..][i]) <==> i in rest)
    ensures Embeds(idx, Filter(s, p), s)
    ensures forall i :: 0 <= i < |s| ==> (p(s[i]) <==> i in idx)
  {
    EmbedsCons(rest, Filter(s[1..], p), s);
    idx := if p(s[0]) then [0] + Shift(rest) else Shift(rest);
    forall i | 1 <= i < |s| ensures p(s[i]) <==> i in idx {
      assert s[1..][i - 1] == s[i];
    }
  }

  /**
   * `Filter(s, p)` is exactly the elements of `s` at the positions where `p`
   * holds, in their original order.
   */
  lemma {:induction false} FilterPositions<T>(s: seq<T>, p: T -> bool) returns (idx: seq<nat>)
    ensures Embeds(idx, Filter(s, p), s)
    ensures forall i :: 0 <= i < |s| ==> (p(s[i]) <==> i in idx)
  {
    if s == [] {
      idx := [];
    } else {
      var rest := FilterPositions(s[1..], p);
      idx := FilterPositionsCons(s, p, rest);
    }
  }

  /** Every element `Filter` keeps satisfies `p`, and every element of `s` satisfying `p` is kept. */
  lemma FilterMembers<T>(s: seq<T>, p: T -> bool)
    ensures forall x :: x in Filter(s, p) <==> x in s && p(x)
  {
    var idx := FilterPositions(s, p);
    var r := Filter(s, p);
    forall x ensures x in r <==> x in s && p(x) {
      if x in r {
        var k :| 0 <= k < |r| && r[k] == x;
        assert s[idx[k]] == x;
      }
      if x in s && p(x) {
        var i :| 0 <= i < |s| && s[i] == x;
        var k :| 0 <= k < |idx| && idx[k] == i;
        assert r[k] == x;
      }
    }
  }

  /** A filter that every element passes changes nothing. */
  lemma {:induction false} FilterAll<T>(s: seq<T>, p: T -> bool)
    requires forall i :: 0 <= i < |s| ==> p(s[i])
    ensures Filter(s, p) == s
  {
    if s != [] {
      FilterAll(s[1..], p);
    }
  }

  predicate NoDuplicates<T(==)>(s: seq<T>)
  {
    forall i, j :: 0 <= i < j < |s| ==> s[i] != s[j]
  }

  /** The index of the first occurrence of `x` in `s` (`indexOf`). */
  function FirstIndex<T(==)>(s: seq<T>, x: T): (r: nat)
    requires x in s
    ensures r < |s| && s[r] == x && forall j :: 0 <= j < r ==> s[j] != x
  {
    if s[0] == x then 0 else 1 + FirstIndex(s[1..], x)
  }

  lemma FirstIndexPrefix<T>(s: seq<T>, z: T, x: T)
    requires x in s
    ensures FirstIndex(s + [z], x) == FirstIndex(s, x)
  {
    var i, i' := FirstIndex(s + [z], x), FirstIndex(s, x);
    assert (s + [z])[i'] == x;
    assert i < |s| ==> s[i] == x;
  }

  /**
   * `[...new Set(s)]`: the elements of `s`, each once, in the order of their
   * first occurrence.
   */
  function Distinct<T(==)>(s: seq<T>): (r: seq<T>)
    ensures forall i :: 0 <= i < |r| ==> r[i] in s
    ensures forall i :: 0 <= i < |s| ==> s[i] in r
    ensures NoDuplicates(r)
  {
    if s == [] then []
    else
      var r := Distinct(s[..|s| - 1]);
      var last := s[|s| - 1];
      assert s == s[..|s| - 1] + [last];
      if last in r then r else r + [last]
  }

  /** `Distinct` lists the elements in the order in which they first occur. */
  lemma {:induction false} DistinctFirstOccurrenceOrder<T>(s: seq<T>)
    ensures forall i, j :: 0 <= i < j < |Distinct(s)| ==>
      FirstIndex(s, Distinct(s)[i]) < FirstIndex(s, Distinct(s)[j])
  {
    if s != [] {
      var init, last := s[..|s| - 1], s[|s| - 1];
      assert s == init + [last];
      DistinctFirstOccurrenceOrder(init);
      var r', r := Distinct(init), Distinct(s);
      forall x | x in init ensures FirstIndex(s, x) == FirstIndex(init, x) {
        FirstIndexPrefix(init, last, x);
      }
      if last !in init {
        assert FirstIndex(s, last) == |init|;
      }
      forall i, j | 0 <= i < j < |r| ensures FirstIndex(s, r[i]) < FirstIndex(s, r[j]) {
        assert r[i] == r'[i] && r[i] in init;
        if j < |r'| {
          assert r[j] == r'[j];
        }
      }
    }
  }

  /**
   * Lexicographic order of strings by code point. `sort()` with no comparator
   * compares UTF-16 code units; the two orders agree on the Basic Multilingual
   * Plane, and so on the ASCII `yyyy-MM` month keys sorted here.
   */
  predicate StrLe(a: String, b: String)
  {
    a == [] || (b != [] && (a[0] < b[0] || (a[0] == b[0] && StrLe(a[1..], b[1..]))))
  }

  lemma StrLeTotal(a: String, b: String)
    ensures StrLe(a, b) || StrLe(b, a)
  {
  }

  lemma StrLeAntisymmetric(a: String, b: String)
    requires StrLe(a, b) && StrLe(b, a)
    ensures a == b
  {
    if a != [] && b != [] {
      StrLeAntisymmetric(a[1..], b[1..]);
      assert a == [a[0]] + a[1..] && b == [b[0]] + b[1..];
    }
  }

  lemma StrLeTransitive(a: String, b: String, c: String)
    requires StrLe(a, b) && StrLe(b, c)
    ensures StrLe(a, c)
  {
    if a != [] && b != [] && c != [] && a[0] == b[0] == c[0] {
      StrLeTransitive(a[1..], b[1..], c[1..]);
    }
  }

  predicate SortedAscending(s: seq<String>)
  {
    forall i, j :: 0 <= i < j < |s| ==> StrLe(s[i], s[j])
  }

  function Insert(x: String, s: seq<String>): (r: seq<String>)
    ensures multiset(r) == multiset(s) + multiset{x}
  {
    if s == [] then [x]
    else if StrLe(x, s[0]) then [x] + s
    else
      assert s == [s[0]] + s[1..];
      [s[0]] + Insert(x, s[1..])
  }

  lemma {:induction false} InsertSorted(x: String, s: seq<String>)
    requires SortedAscending(s)
    ensures SortedAscending(Insert(x, s))
  {
    if s != [] && !StrLe(x, s[0]) {
      InsertSorted(x, s[1..]);
      StrLeTotal(x, s[0]);
      var r := Insert(x, s[1..]);
      forall k | 0 <= k < |r| ensures StrLe(s[0], r[k]) {
        assert r[k] in multiset(r);
        if r[k] != x {
          assert r[k] in s[1..];
          var m :| 0 <= m < |s[1..]| && s[1..][m] == r[k];
          assert s[m + 1] == r[k];
        }
      }
    } else if s != [] {
      forall j | 0 < j < |s| ensures StrLe(x, s[j]) {
        StrLeTransitive(x, s[0], s[j]);
      }
    }
  }

  /** `sort()` with the default comparator (an insertion sort). */
  function Sort(s: seq<String>): (r: seq<String>)
    ensures multiset(r) == multiset(s)
  {
    if s == [] then []
    else
      assert s == [s[0]] + s[1..];
      Insert(s[0], Sort(s[1..]))
  }

  lemma {:induction false} SortSorted(s: seq<String>)
    ensures SortedAscending(Sort(s))
  {
    if s != [] {
      SortSorted(s[1..]);
      InsertSorted(s[0], Sort(s[1..]));
    }
  }

  /** `reverse()`. */
  function Reverse<T>(s: seq<T>): (r: seq<T>)
    ensures |r| == |s| && forall i :: 0 <= i < |s| ==> r[i] == s[|s| - 1 - i]
  {
    if s == [] then [] else Reverse(s[1..]) + [s[0]]
  }

  /** A sequence without duplicates has each of its elements exactly once in its multiset. */
  lemma {:induction false} NoDuplicatesCount<T>(s: seq<T>, x: T)
    requires NoDuplicates(s)
    ensures multiset(s)[x] <= 1
  {
    if s != [] {
      assert s == [s[0]] + s[1..];
      NoDuplicatesCount(s[1..], x);
      assert s[0] !in s[1..];
    }
  }

  /** Rearranging a sequence without duplicates introduces none. */
  lemma NoDuplicatesPermutation<T>(s: seq<T>, t: seq<T>)
    requires NoDuplicates(s) && multiset(t) == multiset(s)
    ensures NoDuplicates(t)
  {
    forall i, j | 0 <= i < j < |t| ensures t[i] != t[j] {
      if t[i] == t[j] {
        assert t == t[..j] + t[j..];
        assert t[i] in t[..j] && t[j] in t[j..];
        assert multiset(t)[t[i]] == multiset(t[..j])[t[i]] + multiset(t[j..])[t[i]];
        NoDuplicatesCount(s, t[i]);
        assert false;
      }
    }
  }

  lemma ReverseMembers<T>(t: seq<T>)
    ensures forall x :: x in Reverse(t) <==> x in t
  {
    forall x ensures x in Reverse(t) <==> x in t {
      if x in t {
        var k :| 0 <= k < |t| && t[k] == x;
        assert Reverse(t)[|t| - 1 - k] == x;
      }
    }
  }

  lemma SortMembers(s: seq<String>)
    ensures forall x :: x in Sort(s) <==> x in s
  {
    forall x ensures x in Sort(s) <==> x in s {
      assert x in Sort(s) <==> x in multiset(Sort(s));
    }
  }

  /**
   * `Sort` then `Reverse` of a list without duplicates is strictly descending
   * and has the same elements.
   */
  lemma SortedDescending(s: seq<String>)
    requires NoDuplicates(s)
    ensures forall x :: x in Reverse(Sort(s)) <==> x in s
    ensures forall i, j :: 0 <= i < j < |Reverse(Sort(s))| ==>
      StrLe(Reverse(Sort(s))[j], Reverse(Sort(s))[i]) && Reverse(Sort(s))[i] != Reverse(Sort(s))[j]
  {
    var t := Sort(s);
    SortSorted(s);
    NoDuplicatesPermutation(s, t);
    SortMembers(s);
    ReverseMembers(t);
  }
}
