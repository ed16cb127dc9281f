/**
 * The frame-rate window of the plotter's reader loop
 * (rust/plotter/src/main.rs and rust/plotter/src/old_main.rs, identical in both).
 *
 * After each received frame the time since the previous frame is pushed into
 * a window of at most 50 intervals, the oldest dropped first, and the rate
 * shown is one over the mean interval. Clock readings are nanoseconds since
 * an arbitrary origin; the rate is an exact real (floating-point rounding is
 * not modelled), and a window whose intervals sum to zero gives an infinite
 * rate, as `1.0 / 0.0` does in IEEE 754 arithmetic.
 */
module Rate {
  import opened Seqs

  /** `VecDeque::with_capacity(50)` and the `len() == 50` eviction test. */
  const WindowCapacity: nat := 50

  const NanosPerSecond: nat := 1_000_000_000

  datatype Hz = Finite(hz: real) | Infinite

  /** `now.duration_since(last)`, which saturates at zero if the clock reads earlier. */
  function Elapsed(last: nat, now: nat): (d: nat)
    ensures now >= last ==> last + d == now
    ensures now < last ==> d == 0
  {
    if now >= last then now - last else 0
  }

  function Sum(w: seq<nat>): nat
  {
    if |w| == 0 then 0 else Sum(w[..|w| - 1]) + w[|w| - 1]
  }

  /** `1 / (total / count)` with the total converted to seconds; a zero total is an infinite rate. */
  function MeanRate(count: nat, total: nat): (h: Hz)
    requires count > 0
    ensures h == Infinite <==> total == 0
  {
    if total == 0 then Infinite
    else Finite((count as real) * (NanosPerSecond as real) / (total as real))
  }

  /** A positive total gives a positive rate: rate times total time is the count, in seconds. */
  lemma MeanRateIsMean(count: nat, total: nat)
    requires count > 0 && total > 0
    ensures MeanRate(count, total).Finite? && MeanRate(count, total).hz > 0.0
    ensures MeanRate(count, total).hz * (total as real) == (count as real) * (NanosPerSecond as real)
  {
  }

  /** The rate shown for a window: 0 for an empty window, otherwise the mean rate over it. */
  function AverageHz(w: seq<nat>): (h: Hz)
    ensures |w| == 0 ==> h == Finite(0.0)
    ensures |w| > 0 ==> (h == Infinite <==> Sum(w) == 0)
  {
    if |w| == 0 then Finite(0.0) else MeanRate(|w|, Sum(w))
  }

  /** One push: drop the oldest interval when the window is full, then append. */
  function Push(w: seq<nat>, dt: nat): seq<nat>
  {
    (if |w| == WindowCapacity then w[1..] else w) + [dt]
  }

  /** Pushing the intervals `dts` in order. */
  function PushAll(w: seq<nat>, dts: seq<nat>): seq<nat>
  {
    if |dts| == 0 then w else Push(PushAll(w, dts[..|dts| - 1]), dts[|dts| - 1])
  }

  /** A push onto a window that is not over capacity keeps the latest 50 intervals. */
  lemma PushKeepsLatest(w: seq<nat>, dt: nat)
    requires |w| <= WindowCapacity
    ensures Push(w, dt) == LastN(w + [dt], WindowCapacity)
    ensures 1 <= |Push(w, dt)| <= WindowCapacity
    ensures Push(w, dt)[|Push(w, dt)| - 1] == dt
  {
    if |w| == WindowCapacity {
      assert (w + [dt])[1..] == w[1..] + [dt];
    }
  }

  /** Starting from any window within capacity, the window holds the latest 50 intervals ever pushed. */
  lemma {:induction false} WindowIsLatest(w: seq<nat>, dts: seq<nat>)
    requires |w| <= WindowCapacity
    ensures PushAll(w, dts) == LastN(w + dts, WindowCapacity)
    ensures |PushAll(w, dts)| <= WindowCapacity
  {
    if |dts| == 0 {
      assert w + dts == w;
    } else {
      var init, last := dts[..|dts| - 1], dts[|dts| - 1];
      WindowIsLatest(w, init);
      PushKeepsLatest(PushAll(w, init), last);
      LastNPush(w + init, last, WindowCapacity);
      assert w + dts == (w + init) + [last];
    }
  }

  /** Fifty or more pushes onto an empty window leave exactly the last 50. */
  lemma WindowFull(dts: seq<nat>)
    requires |dts| >= WindowCapacity
    ensures PushAll([], dts) == dts[|dts| - WindowCapacity..]
  {
    WindowIsLatest([], dts);
    assert [] + dts == dts;
  }

  lemma {:induction false} SumConstant(w: seq<nat>, d: nat)
    requires forall i :: 0 <= i < |w| ==> w[i] == d
    ensures Sum(w) == |w| * d
  {
    if |w| > 0 {
      SumConstant(w[..|w| - 1], d);
    }
  }

  /** A steady period of `d` nanoseconds shows as `10^9 / d` Hz. */
  lemma SteadyRate(w: seq<nat>, d: nat)
    requires |w| > 0 && d > 0
    requires forall i :: 0 <= i < |w| ==> w[i] == d
    ensures AverageHz(w) == Finite((NanosPerSecond as real) / (d as real))
  {
    SumConstant(w, d);
    MeanRateIsMean(|w|, Sum(w));
    var h := AverageHz(w).hz;
    assert h * ((|w| * d) as real) == (|w| as real) * (NanosPerSecond as real);
    assert (h * (d as real)) * (|w| as real) == (NanosPerSecond as real) * (|w| as real);
  }

  /** The window kept by the reader loop, with the clock reading of the previous frame. */
  class IntervalWindow {
    var intervals: seq<nat>
    var lastTime: nat

    ghost predicate Valid()
      reads this
    {
      |intervals| <= WindowCapacity
    }

    /** An empty window whose previous reading is the start of the loop. */
    constructor(start: nat)
      ensures Valid()
      ensures intervals == [] && lastTime == start
    {
      intervals := [];
      lastTime := start;
    }

    /** The sum over the window, as `intervals.iter().sum()`. */
    method Total() returns (s: nat)
      ensures s == Sum(intervals)
    {
      s := 0;
      var i := 0;
      while i < |intervals|
        invariant i <= |intervals|
        invariant s == Sum(intervals[..i])
      {
        assert intervals[..i + 1][..i] == intervals[..i];
        s := s + intervals[i];
        i := i + 1;
      }
      assert intervals[..i] == intervals;
    }

    /**
     * A frame arrived at `now`: store the interval since the previous frame
     * and return the mean rate over the window. The window is never empty
     * here, so the `0.0` fallback is never returned.
     */
    method Record(now: nat) returns (avg: Hz)
      requires Valid()
      modifies this
      ensures Valid()
      ensures intervals == Push(old(intervals), Elapsed(old(lastTime), now))
      ensures lastTime == now
      ensures avg == AverageHz(intervals)
      ensures |intervals| >= 1 && avg != Finite(0.0)
    {
      var dt := Elapsed(lastTime, now);
      lastTime := now;
      if |intervals| == WindowCapacity {
        intervals := intervals[1..];
      }
      intervals := intervals + [dt];
      var total := Total();
      // `intervals` was just pushed to, so the empty-window fallback is dead.
      avg := MeanRate(|intervals|, total);
      if total > 0 {
        MeanRateIsMean(|intervals|, total);
      }
    }
  }
}
