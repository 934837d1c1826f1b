/** `Array.prototype.filter` and the ascending order of a set of over numbers, shared by the
    components that list balls, players or overs. */
module Sequences {

  /** The elements of `s` that satisfy `keep`, in their order in `s`. */
  function Filter<T(==)>(s: seq<T>, keep: T -> bool): (r: seq<T>)
    ensures |r| <= |s|
    ensures forall x :: x in r ==> x in s && keep(x)
    ensures forall i :: 0 <= i < |s| && keep(s[i]) ==> s[i] in r
    decreases |s|
  {
    if s == [] then []
    else Filter(s[..|s| - 1], keep) + (if keep(s[|s| - 1]) then [s[|s| - 1]] else [])
  }

  /** `r` can be obtained from `s` by deleting elements: the order of `s` is kept. */
  predicate Subsequence<T(==)>(r: seq<T>, s: seq<T>)
    decreases |s|
  {
    if r == [] then true
    else if s == [] then false
    else (r[|r| - 1] == s[|s| - 1] && Subsequence(r[..|r| - 1], s[..|s| - 1])) || Subsequence(r, s[..|s| - 1])
  }

  lemma {:induction false} FilterKeepsOrder<T>(s: seq<T>, keep: T -> bool)
    ensures Subsequence(Filter(s, keep), s)
    decreases |s|
  {
    if s != [] {
      var init := s[..|s| - 1];
      FilterKeepsOrder(init, keep);
      if keep(s[|s| - 1]) {
        var r := Filter(s, keep);
        assert r[..|r| - 1] == Filter(init, keep);
      } else {
        assert Filter(s, keep) == Filter(init, keep);
        SubsequenceOfPrefix(Filter(init, keep), init, s);
      }
    }
  }

  lemma {:induction false} SubsequenceOfPrefix<T>(r: seq<T>, s: seq<T>, t: seq<T>)
    requires Subsequence(r, s) && |s| < |t| && s == t[..|s|]
    ensures Subsequence(r, t)
    decreases |t|
  {
    if r != [] {
      if |s| + 1 == |t| {
        assert s == t[..|t| - 1];
      } else {
        SubsequenceOfPrefix(r, s, t[..|t| - 1]);
      }
    }
  }

  /** Filtering a concatenation filters each part. */
  lemma {:induction false} FilterConcat<T>(a: seq<T>, b: seq<T>, keep: T -> bool)
    ensures Filter(a + b, keep) == Filter(a, keep) + Filter(b, keep)
    decreases |b|
  {
    if b == [] {
      assert a + b == a;
    } else {
      var b' := b[..|b| - 1];
      assert (a + b)[..|a + b| - 1] == a + b';
      FilterConcat(a, b', keep);
    }
  }

  /** Nothing survives a filter that no element passes. */
  lemma {:induction false} FilterNone<T>(s: seq<T>, keep: T -> bool)
    requires forall i :: 0 <= i < |s| ==> !keep(s[i])
    ensures Filter(s, keep) == []
    decreases |s|
  {
    if s != [] {
      FilterNone(s[..|s| - 1], keep);
    }
  }

  lemma {:induction false} FilterAll<T>(s: seq<T>, keep: T -> bool)
    requires forall i :: 0 <= i < |s| ==> keep(s[i])
    ensures Filter(s, keep) == s
    decreases |s|
  {
    if s != [] {
      FilterAll(s[..|s| - 1], keep);
      assert s[..|s| - 1] + [s[|s| - 1]] == s;
    }
  }

  predicate StrictlyAscending(s: seq<nat>) {
    forall i, j :: 0 <= i < j < |s| ==> s[i] < s[j]
  }

  predicate StrictlyDescending(s: seq<nat>) {
    forall i, j :: 0 <= i < j < |s| ==> s[i] > s[j]
  }

  /** One more than the largest of `ks` (0 for none): every key lies below it. */
  function KeyBound(ks: seq<nat>): (n: nat)
    ensures forall i :: 0 <= i < |ks| ==> ks[i] < n
    decreases |ks|
  {
    if ks == [] then 0
    else
      var n := KeyBound(ks[..|ks| - 1]);
      if ks[|ks| - 1] < n then n else ks[|ks| - 1] + 1
  }

  /** The numbers from `lo` up to `hi` (exclusive) that occur in `ks`, ascending. */
  function KeysFrom(lo: nat, hi: nat, ks: seq<nat>): (r: seq<nat>)
    ensures StrictlyAscending(r)
    ensures forall x :: x in r <==> lo <= x < hi && x in ks
    decreases hi - lo
  {
    if lo >= hi then []
    else
      var rest := KeysFrom(lo + 1, hi, ks);
      if lo in ks then
        assert forall j :: 0 <= j < |rest| ==> rest[j] in rest;
        assert forall j :: 0 <= j < |rest| ==> lo < rest[j];
        [lo] + rest
      else rest
  }

  /** The distinct members of `ks` in ascending order (the order `for…in` gives the integer
      keys of an object, and the one a `sort` by `a - b` gives distinct keys). */
  function AscendingKeys(ks: seq<nat>): (r: seq<nat>)
    ensures StrictlyAscending(r)
    ensures forall x :: x in r <==> x in ks
  {
    KeysFrom(0, KeyBound(ks), ks)
  }

  function Reverse<T>(s: seq<T>): (r: seq<T>)
    ensures |r| == |s|
    ensures forall i :: 0 <= i < |s| ==> r[i] == s[|s| - 1 - i]
  {
    seq(|s|, i requires 0 <= i < |s| => s[|s| - 1 - i])
  }
}
