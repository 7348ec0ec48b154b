/** NumPy's broadcasting of one-dimensional arrays in an elementwise sum:
    two arrays combine when their lengths are equal or one of them is 1,
    and a length-1 array then repeats its one sample along the other. */
module Broadcast {
  import opened Text

  /** The lengths of two arrays that can be added. */
  predicate Conform(m: nat, n: nat) {
    m == n || m == 1 || n == 1
  }

  /** The length of their sum: the one that is not 1 (so a length-1 array
      added to an empty one gives an empty array). */
  function Joined(m: nat, n: nat): (k: nat)
    requires Conform(m, n)
    ensures k == m || k == n
    ensures m != 1 ==> k == m
    ensures n != 1 ==> k == n
  {
    if m == 1 then n else m
  }

  /** Sample `i` of an array as the sum sees it. */
  function At(a: seq<real>, i: nat): real
    requires |a| == 1 || i < |a|
  {
    if |a| == 1 then a[0] else a[i]
  }

  /** Every sample scaled by `w`. */
  function Scale(a: seq<real>, w: real): (r: seq<real>)
    ensures |r| == |a|
    ensures forall i :: 0 <= i < |a| ==> r[i] == a[i] * w
  {
    seq(|a|, i requires 0 <= i < |a| => a[i] * w)
  }

  /** `a + b`: defined exactly when the lengths conform; each sample of the
      sum adds the two broadcast samples. */
  function Add(a: seq<real>, b: seq<real>): (r: Option<seq<real>>)
    ensures r.Some? <==> Conform(|a|, |b|)
    ensures r.Some? ==> |r.value| == Joined(|a|, |b|)
    ensures r.Some? ==> forall i :: 0 <= i < |r.value| ==> r.value[i] == At(a, i) + At(b, i)
  {
    if Conform(|a|, |b|) then
      Some(seq(Joined(|a|, |b|), i requires 0 <= i < Joined(|a|, |b|) => At(a, i) + At(b, i)))
    else None
  }
}
