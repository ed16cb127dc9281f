/**
 * The plotter's bounded sample store, `DataHistory` in rust/plotter/src/main.rs.
 *
 * Six pressure channels, three accelerometer axes and three gyroscope axes,
 * each a deque of `[time, value]` points capped at 1000 with the oldest point
 * dropped first, plus the last rate shown. The sample type is a parameter:
 * the source stores `f64` pairs, and nothing here depends on their arithmetic.
 */
module History {
  import opened Seqs
  import opened Rate

  /** `HISTORY_SIZE` */
  const HistorySize: nat := 1000

  /** One `[time, value]` pair. */
  datatype Point<T> = Point(time: T, value: T)

  /** `if len() >= HISTORY_SIZE { pop_front() }` then `push_back(p)`. */
  function PushCapped<T>(ch: seq<Point<T>>, p: Point<T>): seq<Point<T>>
  {
    (if |ch| >= HistorySize then ch[1..] else ch) + [p]
  }

  /**
   * One `for (i, &v) in values.iter().enumerate()` loop of `add_data`:
   * channel `i` gets the point `[time, values[i]]`, the channels past the
   * end of `values` are left as they were.
   */
  function AddAll<T>(chs: seq<seq<Point<T>>>, time: T, values: seq<T>): (r: seq<seq<Point<T>>>)
    requires |values| <= |chs|
    ensures |r| == |chs|
  {
    seq(|chs|, i requires 0 <= i < |chs| =>
      if i < |values| then PushCapped(chs[i], Point(time, values[i])) else chs[i])
  }

  predicate Capped<T>(chs: seq<seq<Point<T>>>)
  {
    forall i :: 0 <= i < |chs| ==> |chs[i]| <= HistorySize
  }

  /**
   * A push leaves `min(old + 1, 1000)` points, the new point last, and
   * before it the old points, minus the oldest exactly when there were
   * 1000 or more.
   */
  lemma PushCappedShape<T>(ch: seq<Point<T>>, p: Point<T>)
    requires |ch| <= HistorySize
    ensures var r := PushCapped(ch, p);
      && |r| == (if |ch| + 1 < HistorySize then |ch| + 1 else HistorySize)
      && r[|r| - 1] == p
      && (|ch| == HistorySize ==> r[..|r| - 1] == ch[1..])
      && (r[..|r| - 1] == ch <==> |ch| < HistorySize)
  {
    var r := PushCapped(ch, p);
    assert r[..|r| - 1] == if |ch| >= HistorySize then ch[1..] else ch;
  }

  /** A channel always holds the latest 1000 points pushed onto it. */
  lemma PushCappedKeepsLatest<T>(ch: seq<Point<T>>, p: Point<T>)
    requires |ch| <= HistorySize
    ensures PushCapped(ch, p) == LastN(ch + [p], HistorySize)
  {
    if |ch| == HistorySize {
      assert (ch + [p])[1..] == ch[1..] + [p];
    }
  }

  /** Pushing the points `ps` onto a channel in order. */
  function PushAllCapped<T>(ch: seq<Point<T>>, ps: seq<Point<T>>): seq<Point<T>>
  {
    if |ps| == 0 then ch else PushCapped(PushAllCapped(ch, ps[..|ps| - 1]), ps[|ps| - 1])
  }

  /** After any number of pushes the channel is the latest 1000 points, oldest first. */
  lemma {:induction false} ChannelIsLatest<T>(ch: seq<Point<T>>, ps: seq<Point<T>>)
    requires |ch| <= HistorySize
    ensures PushAllCapped(ch, ps) == LastN(ch + ps, HistorySize)
    ensures |PushAllCapped(ch, ps)| <= HistorySize
  {
    if |ps| == 0 {
      assert ch + ps == ch;
    } else {
      var init, last := ps[..|ps| - 1], ps[|ps| - 1];
      ChannelIsLatest(ch, init);
      PushCappedKeepsLatest(PushAllCapped(ch, init), last);
      LastNPush(ch + init, last, HistorySize);
      assert ch + ps == (ch + init) + [last];
    }
  }

  /** `add_data` keeps every channel within the cap. */
  lemma AddAllCapped<T>(chs: seq<seq<Point<T>>>, time: T, values: seq<T>)
    requires |values| <= |chs| && Capped(chs)
    ensures Capped(AddAll(chs, time, values))
    ensures forall i :: 0 <= i < |values| ==>
      AddAll(chs, time, values)[i] == LastN(chs[i] + [Point(time, values[i])], HistorySize)
    ensures forall i :: |values| <= i < |chs| ==> AddAll(chs, time, values)[i] == chs[i]
  {
    forall i | 0 <= i < |values|
      ensures AddAll(chs, time, values)[i] == LastN(chs[i] + [Point(time, values[i])], HistorySize)
    {
      PushCappedKeepsLatest(chs[i], Point(time, values[i]));
    }
  }

  class DataHistory<T> {
    var pressures: seq<seq<Point<T>>>
    var accel: seq<seq<Point<T>>>
    var gyro: seq<seq<Point<T>>>
    var hz: Hz

    ghost predicate Valid()
      reads this
    {
      |pressures| == 6 && |accel| == 3 && |gyro| == 3
      && Capped(pressures) && Capped(accel) && Capped(gyro)
    }

    /** `DataHistory::new`: six pressure channels (the range is `1..7`), three and three axes, all empty, rate 0. */
    constructor()
      ensures Valid()
      ensures pressures == [[], [], [], [], [], []]
      ensures accel == [[], [], []] && gyro == [[], [], []]
      ensures hz == Finite(0.0)
    {
      pressures := [[], [], [], [], [], []];
      accel := [[], [], []];
      gyro := [[], [], []];
      hz := Finite(0.0);
    }

    /** `add_data`: one point per supplied value, on the channel of the same index, then the rate. */
    method AddData(time: T, ps: seq<T>, acc: seq<T>, gy: seq<T>, rate: Hz)
      requires Valid()
      requires |ps| <= 6 && |acc| <= 3 && |gy| <= 3
      modifies this
      ensures Valid()
      ensures pressures == AddAll(old(pressures), time, ps)
      ensures accel == AddAll(old(accel), time, acc)
      ensures gyro == AddAll(old(gyro), time, gy)
      ensures hz == rate
    {
      AddAllCapped(pressures, time, ps);
      AddAllCapped(accel, time, acc);
      AddAllCapped(gyro, time, gy);
      pressures := PushEach(pressures, time, ps);
      accel := PushEach(accel, time, acc);
      gyro := PushEach(gyro, time, gy);
      hz := rate;
    }
  }

  /** The loop body shared by the three channel groups, channel by channel. */
  method PushEach<T>(chs: seq<seq<Point<T>>>, time: T, values: seq<T>) returns (r: seq<seq<Point<T>>>)
    requires |values| <= |chs|
    ensures r == AddAll(chs, time, values)
  {
    r := chs;
    var i := 0;
    while i < |values|
      invariant i <= |values|
      invariant |r| == |chs|
      invariant forall k :: 0 <= k < i ==> r[k] == PushCapped(chs[k], Point(time, values[k]))
      invariant forall k :: i <= k < |chs| ==> r[k] == chs[k]
    {
      var ch := r[i];
      if |ch| >= HistorySize {
        ch := ch[1..];
      }
      ch := ch + [Point(time, values[i])];
      r := r[i := ch];
      i := i + 1;
    }
  }

  /** A thousand and one samples on a channel keep all but the first. */
  lemma OverflowDropsFirst<T>(ps: seq<Point<T>>)
    requires |ps| == HistorySize + 1
    ensures PushAllCapped([], ps) == ps[1..]
  {
    ChannelIsLatest([], ps);
    assert [] + ps == ps;
    assert LastN(ps, HistorySize) == ps[|ps| - HistorySize..];
    assert |ps| - HistorySize == 1;
  }
}
