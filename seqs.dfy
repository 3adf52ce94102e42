/** Facts about lists the scraper and the trend analyser rely on. */
module Seqs {
  ghost predicate Distinct<T>(s: seq<T>) {
    forall i, j :: 0 <= i < j < |s| ==> s[i] != s[j]
  }

  /** `r` is `s` with some elements left out, the rest kept in order. */
  ghost predicate IsSubsequence<T>(r: seq<T>, s: seq<T>)
    decreases |s|
  {
    if r == [] then true
    else if s == [] then false
    else if r[|r| - 1] == s[|s| - 1] then IsSubsequence(r[..|r| - 1], s[..|s| - 1])
    else IsSubsequence(r, s[..|s| - 1])
  }

  /** A subsequence only has elements of the list, and of a duplicate-free list has no duplicates. */
  lemma {:induction false} SubsequenceDistinct<T>(r: seq<T>, s: seq<T>)
    requires IsSubsequence(r, s)
    ensures forall x :: x in r ==> x in s
    ensures Distinct(s) ==> Distinct(r)
    decreases |s|
  {
    if r != [] {
      var s' := s[..|s| - 1];
      if r[|r| - 1] == s[|s| - 1] {
        var r' := r[..|r| - 1];
        SubsequenceDistinct(r', s');
        assert r == r' + [s[|s| - 1]];
        assert s == s' + [s[|s| - 1]];
        if Distinct(s) {
          assert s[|s| - 1] !in s' by {
            forall k | 0 <= k < |s'| ensures s'[k] != s[|s| - 1] {
              assert s'[k] == s[k];
            }
          }
          forall i, j | 0 <= i < j < |r| ensures r[i] != r[j] {
            if j < |r| - 1 {
              assert r[i] == r'[i] && r[j] == r'[j];
            } else {
              assert r[i] == r'[i];
            }
          }
        }
      } else {
        SubsequenceDistinct(r, s');
      }
    }
  }

  /** A subsequence stays one when the list grows at the end. */
  lemma {:induction false} SubsequenceExtend<T>(r: seq<T>, s: seq<T>, y: T)
    requires IsSubsequence(r, s)
    ensures IsSubsequence(r, s + [y])
    decreases |s|, 1
  {
    var s' := s + [y];
    assert s'[..|s'| - 1] == s;
    if r != [] && r[|r| - 1] == y {
      SubsequenceDropLast(r, s);
    }
  }

  /** The same element added to both ends keeps a subsequence. */
  lemma SubsequenceBoth<T>(r: seq<T>, s: seq<T>, y: T)
    requires IsSubsequence(r, s)
    ensures IsSubsequence(r + [y], s + [y])
  {
    assert (r + [y])[..|r|] == r;
    assert (s + [y])[..|s|] == s;
  }

  /** Dropping the last element of a subsequence leaves a subsequence. */
  lemma {:induction false} SubsequenceDropLast<T>(r: seq<T>, s: seq<T>)
    requires r != [] && IsSubsequence(r, s)
    ensures IsSubsequence(r[..|r| - 1], s)
    decreases |s|, 0
  {
    var r' := r[..|r| - 1];
    var s' := s[..|s| - 1];
    assert s == s' + [s[|s| - 1]];
    if r[|r| - 1] == s[|s| - 1] {
      SubsequenceExtend(r', s', s[|s| - 1]);
    } else {
      SubsequenceDropLast(r, s');
      SubsequenceExtend(r', s', s[|s| - 1]);
    }
  }

  lemma {:induction false} SubsequenceLength<T>(r: seq<T>, s: seq<T>)
    requires IsSubsequence(r, s)
    ensures |r| <= |s|
    decreases |s|
  {
    if r != [] {
      if r[|r| - 1] == s[|s| - 1] {
        SubsequenceLength(r[..|r| - 1], s[..|s| - 1]);
      } else {
        SubsequenceLength(r, s[..|s| - 1]);
      }
    }
  }

  lemma PrefixTrans<T>(a: seq<T>, b: seq<T>, c: seq<T>)
    requires a <= b && b <= c
    ensures a <= c
  {
    assert forall k :: 0 <= k < |a| ==> a[k] == b[k] == c[k];
  }

  /** `s[:n]` for `n >= 0`. */
  function Take<T>(s: seq<T>, n: nat): (r: seq<T>)
    ensures r <= s
    ensures |r| == if n <= |s| then n else |s|
  {
    if n <= |s| then s[..n] else s
  }
}
