/** Small facts about slices that several proofs use. */
module Sequences {

  /** A slice is the concatenation of its two halves at any cut point. */
  lemma SliceJoin<T>(s: seq<T>, i: nat, j: nat, k: nat)
    requires i <= j <= k <= |s|
    ensures s[i..k] == s[i..j] + s[j..k]
  {
  }

  /** A sequence cut at four points is the concatenation of the five pieces. */
  lemma JoinFive<T>(s: seq<T>, i: nat, j: nat, k: nat, l: nat, a: seq<T>, b: seq<T>, c: seq<T>, d: seq<T>, e: seq<T>)
    requires i <= j <= k <= l <= |s|
    requires s[..i] == a && s[i..j] == b && s[j..k] == c && s[k..l] == d && s[l..] == e
    ensures s == a + b + c + d + e
  {
    SliceJoin(s, 0, l, |s|);
    SliceJoin(s, 0, k, l);
    SliceJoin(s, 0, j, k);
    SliceJoin(s, 0, i, j);
    assert s[0..|s|] == s && s[0..i] == a;
  }
}
