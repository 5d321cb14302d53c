/** Picking the entries of a sequence at a list of indices, the shape of every
  loop in the source that pushes the entries of a list that pass a test, and
  counting the occurrences of a label. */
module Seqs {

  /** The entries of `s` at the given indices. */
  function Pick<T>(s: seq<T>, idx: seq<nat>): (r: seq<T>)
    requires forall k :: 0 <= k < |idx| ==> idx[k] < |s|
    ensures |r| == |idx|
  {
    seq(|idx|, k requires 0 <= k < |idx| => s[idx[k]])
  }

  /** Picking from two sequences that agree at the picked indices gives the same result. */
  lemma PickAgree<T>(s: seq<T>, t: seq<T>, idx: seq<nat>)
    requires forall k :: 0 <= k < |idx| ==> idx[k] < |s| && idx[k] < |t| && s[idx[k]] == t[idx[k]]
    ensures Pick(s, idx) == Pick(t, idx)
  {
  }

  /** Picking one more index appends that entry. */
  lemma PickSnoc<T>(s: seq<T>, idx: seq<nat>, i: nat)
    requires i < |s| && forall k :: 0 <= k < |idx| ==> idx[k] < |s|
    ensures Pick(s, idx + [i]) == Pick(s, idx) + [s[i]]
  {
  }

  /** The number of occurrences of `c` in `s`. */
  function Count(s: seq<nat>, c: nat): (r: nat)
    ensures r <= |s|
  {
    if s == [] then 0 else Count(s[..|s| - 1], c) + (if s[|s| - 1] == c then 1 else 0)
  }

  lemma {:induction false} CountSnoc(s: seq<nat>, x: nat, c: nat)
    ensures Count(s + [x], c) == Count(s, c) + (if x == c then 1 else 0)
  {
    assert (s + [x])[..|s|] == s;
  }

  /** A label that occurs is counted; a count equal to the length means every label is that class. */
  lemma {:induction false} CountFacts(s: seq<nat>, c: nat)
    ensures c in s <==> Count(s, c) >= 1
    ensures Count(s, c) == |s| ==> forall i :: 0 <= i < |s| ==> s[i] == c
    ensures (forall i :: 0 <= i < |s| ==> s[i] == c) ==> Count(s, c) == |s|
  {
    if s != [] {
      var n := |s| - 1;
      CountFacts(s[..n], c);
      assert s == s[..n] + [s[n]];
      assert c in s && s[n] != c ==> c in s[..n];
      assert c in s[..n] ==> c in s;
    }
  }
}
