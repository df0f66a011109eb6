/** `Array.prototype.filter` and the order-preserving relation it establishes. */
module Seqs {

  /** `s.filter(keep)`: the elements that satisfy `keep`, in their original order. */
  function Filter<T(==)>(s: seq<T>, keep: T -> bool): (r: seq<T>)
    ensures |r| <= |s|
    ensures forall i :: 0 <= i < |r| ==> r[i] in s && keep(r[i])
    ensures forall i :: 0 <= i < |s| && keep(s[i]) ==> s[i] in r
  {
    if s == [] then []
    else if keep(s[0]) then [s[0]] + Filter(s[1..], keep)
    else Filter(s[1..], keep)
  }

  /** `r` is obtained from `s` by deleting elements, keeping the order of the rest. */
  predicate IsSubsequence<T(==)>(r: seq<T>, s: seq<T>)
    decreases |s|
  {
    if r == [] then true
    else if s == [] then false
    else (r[0] == s[0] && IsSubsequence(r[1..], s[1..])) || IsSubsequence(r, s[1..])
  }

  /** Filtering never adds elements and never reorders them. */
  lemma {:induction false} FilterIsSubsequence<T>(s: seq<T>, keep: T -> bool)
    ensures IsSubsequence(Filter(s, keep), s)
  {
    if s != [] {
      FilterIsSubsequence(s[1..], keep);
      if keep(s[0]) {
        var r := Filter(s, keep);
        assert r[0] == s[0] && r[1..] == Filter(s[1..], keep);
      }
    }
  }

  /** Filtering keeps every copy of a passing element and no copy of a failing one. */
  lemma {:induction false} FilterMultiplicity<T>(s: seq<T>, keep: T -> bool)
    ensures forall x :: multiset(Filter(s, keep))[x] == (if keep(x) then multiset(s)[x] else 0)
  {
    if s != [] {
      FilterMultiplicity(s[1..], keep);
      assert s == [s[0]] + s[1..];
    }
  }

  /** Filtering with a test every element passes changes nothing. */
  lemma {:induction false} FilterKeepsAll<T>(s: seq<T>, keep: T -> bool)
    requires forall i :: 0 <= i < |s| ==> keep(s[i])
    ensures Filter(s, keep) == s
  {
    if s != [] {
      FilterKeepsAll(s[1..], keep);
    }
  }

  /** Deleting from a subsequence still gives a subsequence. */
  lemma {:induction false} SubsequenceTransitive<T>(a: seq<T>, b: seq<T>, c: seq<T>)
    requires IsSubsequence(a, b) && IsSubsequence(b, c)
    ensures IsSubsequence(a, c)
    decreases |c|
  {
    if a != [] {
      assert b != [] && c != [];
      if IsSubsequence(b, c[1..]) {
        SubsequenceTransitive(a, b, c[1..]);
      } else if a[0] == b[0] && IsSubsequence(a[1..], b[1..]) {
        SubsequenceTransitive(a[1..], b[1..], c[1..]);
      } else {
        SubsequenceTransitive(a, b[1..], c[1..]);
      }
    }
  }

  /** Every sequence is a subsequence of itself. */
  lemma {:induction false} SubsequenceReflexive<T>(s: seq<T>)
    ensures IsSubsequence(s, s)
  {
    if s != [] {
      SubsequenceReflexive(s[1..]);
    }
  }

  /** `s.filter((_, i) => i !== index)` with the index counted from `from`. */
  function DropIndexFrom<T>(s: seq<T>, index: int, from: int): seq<T>
    decreases |s|
  {
    if s == [] then []
    else (if from != index then [s[0]] else []) + DropIndexFrom(s[1..], index, from + 1)
  }

  /** `s.filter((_, i) => i !== index)`. */
  function DropIndex<T>(s: seq<T>, index: int): seq<T> {
    DropIndexFrom(s, index, 0)
  }

  lemma {:induction false} DropIndexFromSpec<T>(s: seq<T>, index: int, from: int)
    ensures from <= index < from + |s| ==>
              DropIndexFrom(s, index, from) == s[..index - from] + s[index - from + 1..]
    ensures !(from <= index < from + |s|) ==> DropIndexFrom(s, index, from) == s
    decreases |s|
  {
    if s != [] {
      var rest := DropIndexFrom(s[1..], index, from + 1);
      DropIndexFromSpec(s[1..], index, from + 1);
      if from == index {
        assert DropIndexFrom(s, index, from) == rest;
        assert rest == s[1..];
      } else if from < index < from + |s| {
        var k := index - from;
        assert rest == s[1..][..k - 1] + s[1..][k..];
        assert s[1..][..k - 1] == s[1..k];
        assert s[1..][k..] == s[k + 1..];
        assert DropIndexFrom(s, index, from) == [s[0]] + rest;
        assert [s[0]] + s[1..k] == s[..k];
      } else {
        assert rest == s[1..];
        assert DropIndexFrom(s, index, from) == [s[0]] + s[1..];
      }
    }
  }

  /**
   * Dropping an index inside the sequence removes exactly that element and keeps the rest in
   * order; any other index (negative, or past the end) leaves the sequence as it was.
   */
  lemma DropIndexSpec<T>(s: seq<T>, index: int)
    ensures 0 <= index < |s| ==> DropIndex(s, index) == s[..index] + s[index + 1..]
    ensures !(0 <= index < |s|) ==> DropIndex(s, index) == s
    ensures 0 <= index < |s| ==> |DropIndex(s, index)| == |s| - 1
  {
    DropIndexFromSpec(s, index, 0);
  }
}
