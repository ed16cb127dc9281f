/**
 * Sequence facts shared by the model: a buffer that evicts its oldest
 * element holds the latest elements pushed, and how slices of a
 * concatenation split.
 */
module Seqs {
  /** The last `n` elements of `s`, or all of `s` when it is shorter. */
  function LastN<T>(s: seq<T>, n: nat): (r: seq<T>)
    ensures |r| == if |s| < n then |s| else n
    ensures forall i :: 0 <= i < |r| ==> r[i] == s[|s| - |r| + i]
  {
    if |s| <= n then s else s[|s| - n..]
  }

  /** Keeping the last `n` and then pushing is the same as pushing and then keeping the last `n`. */
  lemma LastNPush<T>(s: seq<T>, x: T, n: nat)
    requires n > 0
    ensures LastN(LastN(s, n) + [x], n) == LastN(s + [x], n)
  {
    var l := LastN(s, n);
    var a, b := LastN(l + [x], n), LastN(s + [x], n);
    assert |a| == |b|;
    forall i | 0 <= i < |a|
      ensures a[i] == b[i]
    {
      if i < |a| - 1 {
        assert a[i] == l[|l| - |a| + 1 + i];
      }
    }
  }

  /** A slice up to `b` followed by the rest from `b` is the slice from `a`. */
  lemma SliceSplit<T>(s: seq<T>, a: nat, b: nat)
    requires a <= b <= |s|
    ensures s[a..b] + s[b..] == s[a..]
  {
  }

  /** Cutting a concatenation inside its first part. */
  lemma AppendSlices<T>(x: seq<T>, y: seq<T>, k: nat)
    requires k <= |x|
    ensures (x + y)[..k] == x[..k] && (x + y)[k..] == x[k..] + y
  {
  }
}
