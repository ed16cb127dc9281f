/**
 * The rule both serial managers use to pick a port: among the enumerated
 * ports, in enumeration order, the `n`-th (counting from 0) that matches.
 */
module Selection {
  /** The matching elements of `s`, in order. */
  function Matching<T>(s: seq<T>, p: T -> bool): (r: seq<T>)
    ensures |r| <= |s|
    ensures forall x :: x in r ==> x in s && p(x)
  {
    if |s| == 0 then []
    else if p(s[|s| - 1]) then Matching(s[..|s| - 1], p) + [s[|s| - 1]]
    else Matching(s[..|s| - 1], p)
  }

  /** How many of the first `k` elements match, counted one index at a time as the scanning loops do. */
  function CountBefore<T>(s: seq<T>, p: T -> bool, k: nat): (c: nat)
    requires k <= |s|
    ensures c <= k
  {
    if k == 0 then 0 else CountBefore(s, p, k - 1) + (if p(s[k - 1]) then 1 else 0)
  }

  /** The count is the number of matches among the first `k` elements. */
  lemma {:induction false} CountMatches<T>(s: seq<T>, p: T -> bool, k: nat)
    requires k <= |s|
    ensures CountBefore(s, p, k) == |Matching(s[..k], p)|
  {
    if k > 0 {
      CountMatches(s, p, k - 1);
      MatchingStep(s, p, k - 1);
    }
  }

  lemma MatchingStep<T>(s: seq<T>, p: T -> bool, k: nat)
    requires k < |s|
    ensures Matching(s[..k + 1], p) == if p(s[k]) then Matching(s[..k], p) + [s[k]] else Matching(s[..k], p)
  {
    assert s[..k + 1][..k] == s[..k];
  }

  /**
   * The `n`-th match is the element at the first index `k` that matches
   * and has exactly `n` matches before it.
   */
  lemma {:induction false} NthMatch<T>(s: seq<T>, p: T -> bool, k: nat)
    requires k < |s| && p(s[k])
    ensures CountBefore(s, p, k) < |Matching(s, p)|
    ensures Matching(s, p)[CountBefore(s, p, k)] == s[k]
    decreases |s|
  {
    assert s[..|s|] == s;
    CountMatches(s, p, k);
    if k == |s| - 1 {
      MatchingStep(s, p, k);
    } else {
      var init := s[..|s| - 1];
      assert init[..k] == s[..k];
      CountMatches(init, p, k);
      NthMatch(init, p, k);
    }
  }

  /** One more element scanned: the count grows by one on a match, and that match is the one at the old count. */
  lemma CountStep<T>(s: seq<T>, p: T -> bool, k: nat)
    requires k < |s|
    ensures CountBefore(s, p, k + 1) == CountBefore(s, p, k) + (if p(s[k]) then 1 else 0)
    ensures p(s[k]) ==> CountBefore(s, p, k) < |Matching(s, p)| && Matching(s, p)[CountBefore(s, p, k)] == s[k]
  {
    if p(s[k]) {
      NthMatch(s, p, k);
    }
  }

  /** Scanning further only appends matches: the matches of a prefix are a prefix of the matches. */
  lemma {:induction false} MatchingPrefix<T>(s: seq<T>, p: T -> bool, i: nat)
    requires i <= |s|
    ensures Matching(s[..i], p) <= Matching(s, p)
    decreases |s| - i
  {
    if i < |s| {
      MatchingStep(s, p, i);
      MatchingPrefix(s, p, i + 1);
    } else {
      assert s[..i] == s;
    }
  }

  /** Nothing matches in a sequence of which no element matches. */
  lemma {:induction false} NoMatches<T>(s: seq<T>, p: T -> bool)
    requires forall i :: 0 <= i < |s| ==> !p(s[i])
    ensures Matching(s, p) == []
  {
    if |s| > 0 {
      NoMatches(s[..|s| - 1], p);
    }
  }
}
