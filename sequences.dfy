/** The array methods the app chains on its lists: `filter` and
    `slice(0, n)`, with what they keep. */
module Sequences {

  /** `s.filter(keep)`. */
  function Filter<T>(s: seq<T>, keep: T -> bool): seq<T>
    decreases |s|
  {
    if |s| == 0 then []
    else if keep(s[0]) then [s[0]] + Filter(s[1..], keep)
    else Filter(s[1..], keep)
  }

  /** `r` is `s` with some elements left out, the rest in their order. */
  predicate IsSubsequence<T(==)>(r: seq<T>, s: seq<T>)
    decreases |s|
  {
    if |r| == 0 then true
    else if |s| == 0 then false
    else (r[0] == s[0] && IsSubsequence(r[1..], s[1..])) || IsSubsequence(r, s[1..])
  }

  /** The filter keeps every element that passes, as often as it occurs,
      and nothing else. */
  lemma {:induction false} FilterCounts<T>(s: seq<T>, keep: T -> bool, x: T)
    ensures multiset(Filter(s, keep))[x] == if keep(x) then multiset(s)[x] else 0
    decreases |s|
  {
    if |s| > 0 {
      FilterCounts(s[1..], keep, x);
      assert s == [s[0]] + s[1..];
    }
  }

  /** The filter keeps the order of what it keeps. */
  lemma {:induction false} FilterIsSubsequence<T>(s: seq<T>, keep: T -> bool)
    ensures IsSubsequence(Filter(s, keep), s)
    decreases |s|
  {
    if |s| > 0 {
      FilterIsSubsequence(s[1..], keep);
      var r := Filter(s, keep);
      if keep(s[0]) {
        assert r[0] == s[0] && r[1..] == Filter(s[1..], keep);
      } else if |r| > 0 {
        assert r == Filter(s[1..], keep);
      }
    }
  }

  /** Everything the filter returns passes the test. */
  lemma {:induction false} FilterAllPass<T>(s: seq<T>, keep: T -> bool)
    ensures forall i :: 0 <= i < |Filter(s, keep)| ==> keep(Filter(s, keep)[i])
    decreases |s|
  {
    if |s| > 0 {
      FilterAllPass(s[1..], keep);
    }
  }

  /** When everything passes, the filter returns its input. */
  lemma {:induction false} FilterKeepsAll<T>(s: seq<T>, keep: T -> bool)
    requires forall i :: 0 <= i < |s| ==> keep(s[i])
    ensures Filter(s, keep) == s
    decreases |s|
  {
    if |s| > 0 {
      FilterKeepsAll(s[1..], keep);
      assert [s[0]] + s[1..] == s;
    }
  }

  function Min(a: nat, b: nat): nat {
    if a <= b then a else b
  }

  /** `s.slice(0, n)`: the first `n` elements, or all of them. */
  function Take<T>(s: seq<T>, n: nat): (r: seq<T>)
    ensures |r| == Min(n, |s|) && r <= s
  {
    s[..Min(n, |s|)]
  }

  /** A prefix of a subsequence is a subsequence. */
  lemma {:induction false} TakeOfSubsequence<T>(r: seq<T>, n: nat, s: seq<T>)
    requires IsSubsequence(r, s)
    ensures IsSubsequence(Take(r, n), s)
    decreases |s|
  {
    var p := Take(r, n);
    if |p| > 0 && |s| > 0 {
      if r[0] == s[0] && IsSubsequence(r[1..], s[1..]) {
        TakeOfSubsequence(r[1..], n - 1, s[1..]);
        assert Take(r[1..], n - 1) == p[1..];
      } else {
        TakeOfSubsequence(r, n, s[1..]);
      }
    }
  }
}
