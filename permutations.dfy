/**
 * Permutations of positions: a sequence that sends each output position to a
 * distinct input position. The stable sort reports where each row came from
 * in this form.
 */
module Permutations {

  /** No value occurs twice in `s`. */
  ghost predicate Distinct(s: seq<nat>)
  {
    forall k, l :: 0 <= k < l < |s| ==> s[k] != s[l]
  }

  /** `perm` lists each of the positions 0 .. n-1 once. */
  ghost predicate IsPermutation(perm: seq<nat>, n: nat)
  {
    |perm| == n && (forall k :: 0 <= k < n ==> perm[k] < n) && Distinct(perm)
  }

  /** Distinct values below `m` are at most `m` in number. */
  lemma {:induction false} Pigeonhole(s: seq<nat>, m: nat)
    requires Distinct(s)
    requires forall k :: 0 <= k < |s| ==> s[k] < m
    ensures |s| <= m
  {
    if |s| == 0 {
    } else if i :| 0 <= i < |s| && s[i] == m - 1 {
      var t := s[..i] + s[i + 1..];
      forall k | 0 <= k < |t|
        ensures t[k] < m - 1
      {
        if k < i {
          assert t[k] == s[k];
        } else {
          assert t[k] == s[k + 1];
        }
      }
      forall k, l | 0 <= k < l < |t|
        ensures t[k] != t[l]
      {
        var k' := if k < i then k else k + 1;
        var l' := if l < i then l else l + 1;
        assert t[k] == s[k'] && t[l] == s[l'];
      }
      Pigeonhole(t, m - 1);
    } else {
      assert s[0] < m;
      Pigeonhole(s, m - 1);
    }
  }

  /** A permutation of 0 .. n-1 hits every position. */
  lemma PermutationOnto(perm: seq<nat>, n: nat, t: nat)
    requires IsPermutation(perm, n)
    requires t < n
    ensures t in perm
  {
    if t !in perm {
      var squeezed := seq(n, k requires 0 <= k < n => if perm[k] > t then perm[k] - 1 else perm[k]);
      forall k, l | 0 <= k < l < n
        ensures squeezed[k] != squeezed[l]
      {
        assert perm[k] != t && perm[l] != t;
      }
      Pigeonhole(squeezed, n - 1);
    }
  }
}
