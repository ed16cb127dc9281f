/**
 * The reader loops of the plotter: `can_reader_thread` in
 * rust/plotter/src/main.rs and `main` in rust/plotter/src/old_main.rs.
 *
 * Each turn reads one frame, records its arrival in the rate window, unpacks
 * the payload, slices the values into pressures, accelerometer and gyroscope
 * readings and scales them. The newer loop stores frames with id 1 in the
 * history; the older one prints them, here a list of reports. A read error
 * ends the loop through `?`; an out-of-range index in unpacking or slicing
 * panics. The port is the byte sequence still to arrive and the clock a
 * function from the number of the reading to nanoseconds.
 */
module Reader {
  import opened Bytes
  import opened Results
  import Can
  import Telemetry
  import opened Rate
  import opened History

  /** How a reader loop ends. */
  datatype Stop =
    | Transport(error: Can.RecvError)  // `receive_frame()?`
    | Panic                            // an index past the end of the payload or of `values`

  /** Ticks per unit of the three channel groups. */
  const PressureTicks: real := 40960.0
  const AccelTicks: real := 8192.0
  const GyroTicks: real := 65.5

  /** `values.iter().map(|v| *v as f64 / ticks)`, without rounding. */
  function Scale(vs: seq<int>, ticks: real): (r: seq<real>)
    requires ticks > 0.0
    ensures |r| == |vs|
    ensures forall i :: 0 <= i < |r| ==> r[i] * ticks == vs[i] as real
  {
    seq(|vs|, i requires 0 <= i < |vs| => vs[i] as real / ticks)
  }

  /** The raw channels of one payload as the newer loop slices them; `None` where it panics. */
  function Channels(data: seq<byte>): Option<Telemetry.RawChannels>
  {
    match Telemetry.UnpackFrom(data, 0, 0)
    case None => None
    case Some(values) => Telemetry.MainChannels(values)
  }

  /** The older loop's slicing of the same values. */
  function OldChannels(data: seq<byte>): Option<Telemetry.RawChannels>
  {
    match Telemetry.UnpackFrom(data, 0, 0)
    case None => None
    case Some(values) => Telemetry.OldChannels(values)
  }

  /** Both loops panic on the same payloads: exactly those that are not an even length of 32 or more. */
  lemma ChannelsAgree(data: seq<byte>)
    ensures Channels(data).Some? <==> OldChannels(data).Some?
    ensures Channels(data).Some? <==> |data| >= 32 && |data| % 2 == 0
  {
    Telemetry.ChannelsNeedThirtyTwoBytes(data);
    match Telemetry.UnpackFrom(data, 0, 0)
    case None =>
    case Some(values) => Telemetry.ChannelSlices(values);
  }

  /** `start_time.elapsed().as_secs_f64()` */
  function Seconds(start: nat, now: nat): real
  {
    (Elapsed(start, now) as real) / (NanosPerSecond as real)
  }

  /** How the loop over `input` ends: at the first read error, or at the first frame it cannot slice. */
  function StopOf(input: seq<byte>): Stop
    decreases |input|
  {
    match Can.ReceiveFrame(input)
    case Err(e) => Transport(e)
    case Ok(r) =>
      if Channels(r.frame.data).None? then Panic
      else
        Can.ReceiveFrameShape(input);
        StopOf(r.rest)
  }

  /** A frame whose payload is shorter than 32 bytes stops the loop with a panic, whatever its id. */
  lemma ShortPayloadPanics(canId: u16, data: seq<byte>, dlc: Can.CanDlc, rest: seq<byte>)
    requires |data| == Can.Size(dlc) && |data| < 32
    ensures StopOf(Can.SendFrame(canId, data, dlc) + rest) == Panic
  {
    Can.RoundTrip(canId, data, dlc, rest);
    ChannelsAgree(data);
  }

  /** A 32-byte frame is processed, and the loop goes on to the bytes after it. */
  lemma FullPayloadContinues(canId: u16, data: seq<byte>, rest: seq<byte>)
    requires |data| == 32
    ensures StopOf(Can.SendFrame(canId, data, Can.Size32) + rest) == StopOf(rest)
  {
    Can.RoundTrip(canId, data, Can.Size32, rest);
    ChannelsAgree(data);
  }

  /** The frames both loops process before they stop, in order. */
  function Processed(input: seq<byte>): (fs: seq<Can.CanFrame>)
    ensures forall i :: 0 <= i < |fs| ==> Channels(fs[i].data).Some?
    decreases |input|
  {
    match Can.ReceiveFrame(input)
    case Err(_) => []
    case Ok(r) =>
      if Channels(r.frame.data).None? then []
      else
        Can.ReceiveFrameShape(input);
        [r.frame] + Processed(r.rest)
  }

  /** How many of `fs` carry id 1. */
  function IdOneCount(fs: seq<Can.CanFrame>): nat
  {
    if |fs| == 0 then 0 else (if fs[0].id == 1 then 1 else 0) + IdOneCount(fs[1..])
  }

  /** A sliced payload has 6 (newer) or 7 (older) pressures, 3 accelerations and 3 rates of turn. */
  lemma ChannelCounts(data: seq<byte>)
    ensures Channels(data).Some? ==> var ch := Channels(data).value;
      |ch.pressures| == 6 && |ch.accel| == 3 && |ch.gyro| == 3
    ensures OldChannels(data).Some? ==> var ch := OldChannels(data).value;
      |ch.pressures| == 7 && |ch.accel| == 3 && |ch.gyro| == 3
  {
    match Telemetry.UnpackFrom(data, 0, 0)
    case None =>
    case Some(values) => Telemetry.ChannelSlices(values);
  }

  /** The contents of a `DataHistory`, as a value. */
  datatype Snapshot = Snapshot(pressures: seq<seq<Point<real>>>, accel: seq<seq<Point<real>>>,
                               gyro: seq<seq<Point<real>>>, hz: Hz)

  predicate Shaped(s: Snapshot)
  {
    |s.pressures| == 6 && |s.accel| == 3 && |s.gyro| == 3
  }

  function Contents(h: DataHistory<real>): Snapshot
    reads h
  {
    Snapshot(h.pressures, h.accel, h.gyro, h.hz)
  }

  /** `add_data` of the scaled channels of one frame, at `time`, with rate `hz`. */
  function Stored(s: Snapshot, time: real, ch: Telemetry.RawChannels, hz: Hz): (r: Snapshot)
    requires Shaped(s) && |ch.pressures| <= 6 && |ch.accel| <= 3 && |ch.gyro| <= 3
    ensures Shaped(r)
  {
    Snapshot(AddAll(s.pressures, time, Scale(ch.pressures, PressureTicks)),
             AddAll(s.accel, time, Scale(ch.accel, AccelTicks)),
             AddAll(s.gyro, time, Scale(ch.gyro, GyroTicks)),
             hz)
  }

  /**
   * The history after `can_reader_thread` runs over `input` from turn `k`,
   * with window `w` and previous reading `last`: every processed frame with
   * id 1 is stored with the time of reading `2k + 3` and the rate over the
   * window after its interval (reading `2k + 2`) was pushed.
   */
  function HistoryAfter(s: Snapshot, w: seq<nat>, last: nat, input: seq<byte>, start: nat, clock: nat -> nat, k: nat)
      : (r: Snapshot)
    requires Shaped(s)
    ensures Shaped(r)
    decreases |input|
  {
    match Can.ReceiveFrame(input)
    case Err(_) => s
    case Ok(Received(frame, rest)) =>
      var now := clock(2 * k + 2);
      var next := Push(w, Elapsed(last, now));
      match Channels(frame.data)
      case None => s
      case Some(ch) =>
        ChannelCounts(frame.data);
        Can.ReceiveFrameShape(input);
        var stored := if frame.id == 1 then Stored(s, Seconds(start, clock(2 * k + 3)), ch, AverageHz(next)) else s;
        HistoryAfter(stored, next, now, rest, start, clock, k + 1)
  }

  /** A stream with no processed frame of id 1 leaves the history as it was. */
  lemma {:induction false} NoSampleKeepsHistory(s: Snapshot, w: seq<nat>, last: nat, input: seq<byte>, start: nat,
                                                clock: nat -> nat, k: nat)
    requires Shaped(s)
    requires IdOneCount(Processed(input)) == 0
    ensures HistoryAfter(s, w, last, input, start, clock, k) == s
    decreases |input|
  {
    match Can.ReceiveFrame(input)
    case Err(_) =>
    case Ok(Received(frame, rest)) =>
      if Channels(frame.data).Some? {
        NoSampleFirst(input);
        var now := clock(2 * k + 2);
        NoSampleKeepsHistory(s, Push(w, Elapsed(last, now)), now, rest, start, clock, k + 1);
      }
  }

  /** In a stream with no sample, the first processed frame is not one, and neither does the rest hold one. */
  lemma NoSampleFirst(input: seq<byte>)
    requires Can.ReceiveFrame(input).Ok? && Channels(Can.ReceiveFrame(input).value.frame.data).Some?
    requires IdOneCount(Processed(input)) == 0
    ensures Can.ReceiveFrame(input).value.frame.id != 1
    ensures |Can.ReceiveFrame(input).value.rest| < |input|
    ensures IdOneCount(Processed(Can.ReceiveFrame(input).value.rest)) == 0
  {
    var Received(frame, rest) := Can.ReceiveFrame(input).value;
    Can.ReceiveFrameShape(input);
    var fs := Processed(input);
    assert fs == [frame] + Processed(rest);
    assert fs[1..] == Processed(rest);
  }

  /** One turn of `can_reader_thread`: `now` is the reading after the frame, `later` the one for `elapsed`. */
  method Step(history: DataHistory<real>, window: IntervalWindow, input: seq<byte>, start: nat, now: nat, later: nat)
      returns (out: Result<seq<byte>, Stop>)
    requires history.Valid() && window.Valid()
    modifies history, window
    ensures history.Valid() && window.Valid()
    ensures Can.ReceiveFrame(input).Err? ==>
      out == Err(Transport(Can.ReceiveFrame(input).error)) && unchanged(history) && unchanged(window)
    ensures Can.ReceiveFrame(input).Ok? ==>
      var Received(frame, rest) := Can.ReceiveFrame(input).value;
      && window.intervals == Push(old(window.intervals), Elapsed(old(window.lastTime), now))
      && window.lastTime == now
      && (Channels(frame.data).None? ==> out == Err(Panic) && unchanged(history))
      && (Channels(frame.data).Some? ==> out == Ok(rest) && |rest| < |input|)
      && (Channels(frame.data).Some? && frame.id == 1 ==>
            var ch := Channels(frame.data).value;
            && history.pressures == AddAll(old(history.pressures), Seconds(start, later), Scale(ch.pressures, PressureTicks))
            && history.accel == AddAll(old(history.accel), Seconds(start, later), Scale(ch.accel, AccelTicks))
            && history.gyro == AddAll(old(history.gyro), Seconds(start, later), Scale(ch.gyro, GyroTicks))
            && history.hz == AverageHz(window.intervals))
      && (frame.id != 1 ==> unchanged(history))
  {
    var received := Can.ReceiveFrame(input);
    if received.Err? {
      return Err(Transport(received.error));
    }
    var Received(frame, rest) := received.value;
    Can.ReceiveFrameShape(input);
    var avg := window.Record(now);
    var values := Telemetry.Unpack(frame.data);
    if values.None? {
      return Err(Panic);
    }
    var channels := Telemetry.MainChannels(values.value);
    if channels.None? {
      return Err(Panic);
    }
    var ch := channels.value;
    var pressures := Scale(ch.pressures, PressureTicks);
    var accel := Scale(ch.accel, AccelTicks);
    var gyro := Scale(ch.gyro, GyroTicks);
    if frame.id == 1 {
      history.AddData(Seconds(start, later), pressures, accel, gyro, avg);
    }
    return Ok(rest);
  }

  /**
   * `can_reader_thread` after the port is open: turns until one stops.
   * Readings `0` and `1` of the clock are `last_time` and `start_time`;
   * turn `k` reads the clock at `2k + 2` after the frame, and at `2k + 3`
   * (`elapsed()`) only when the frame has id 1.
   */
  method CanReaderThread(history: DataHistory<real>, input: seq<byte>, clock: nat -> nat) returns (stop: Stop)
    requires history.Valid()
    modifies history
    ensures history.Valid()
    ensures stop == StopOf(input)
    ensures Contents(history) == HistoryAfter(old(Contents(history)), [], clock(0), input, clock(1), clock, 0)
  {
    var window := new IntervalWindow(clock(0));
    var start := clock(1);
    ghost var target := HistoryAfter(Contents(history), [], clock(0), input, start, clock, 0);
    var rest := input;
    var k := 0;
    var running := true;
    stop := Panic;
    while running
      invariant history.Valid() && window.Valid() && fresh(window)
      invariant running ==> StopOf(rest) == StopOf(input)
      invariant running ==> HistoryAfter(Contents(history), window.intervals, window.lastTime, rest, start, clock, k) == target
      invariant !running ==> stop == StopOf(input) && Contents(history) == target
      decreases |rest| + (if running then 1 else 0)
    {
      if Can.ReceiveFrame(rest).Ok? {
        ChannelCounts(Can.ReceiveFrame(rest).value.frame.data);
      }
      var out := Step(history, window, rest, start, clock(2 * k + 2), clock(2 * k + 3));
      if out.Err? {
        stop := out.error;
        running := false;
      } else {
        rest := out.value;
        k := k + 1;
      }
    }
  }

  /** What the older loop prints for a frame with id 1. */
  datatype Report = Report(pressures: seq<real>, accel: seq<real>, gyro: seq<real>, hz: Hz)

  /** One turn of the older loop. */
  method OldStep(window: IntervalWindow, input: seq<byte>, now: nat) returns (out: Result<seq<byte>, Stop>, report: Option<Report>)
    requires window.Valid()
    modifies window
    ensures window.Valid()
    ensures Can.ReceiveFrame(input).Err? ==>
      out == Err(Transport(Can.ReceiveFrame(input).error)) && report == None && unchanged(window)
    ensures Can.ReceiveFrame(input).Ok? ==>
      var Received(frame, rest) := Can.ReceiveFrame(input).value;
      && window.intervals == Push(old(window.intervals), Elapsed(old(window.lastTime), now))
      && window.lastTime == now
      && (OldChannels(frame.data).None? ==> out == Err(Panic) && report == None)
      && (OldChannels(frame.data).Some? ==> out == Ok(rest) && |rest| < |input|)
      && (OldChannels(frame.data).Some? && frame.id == 1 ==>
            var ch := OldChannels(frame.data).value;
            report == Some(Report(Scale(ch.pressures, PressureTicks), Scale(ch.accel, AccelTicks),
                                  Scale(ch.gyro, GyroTicks), AverageHz(window.intervals))))
      && (frame.id != 1 ==> report == None)
  {
    report := None;
    var received := Can.ReceiveFrame(input);
    if received.Err? {
      return Err(Transport(received.error)), None;
    }
    var Received(frame, rest) := received.value;
    Can.ReceiveFrameShape(input);
    var avg := window.Record(now);
    var values := Telemetry.Unpack(frame.data);
    if values.None? {
      return Err(Panic), None;
    }
    var channels := Telemetry.OldChannels(values.value);
    if channels.None? {
      return Err(Panic), None;
    }
    var ch := channels.value;
    var pressures := Scale(ch.pressures, PressureTicks);
    var accel := Scale(ch.accel, AccelTicks);
    var gyro := Scale(ch.gyro, GyroTicks);
    if frame.id == 1 {
      report := Some(Report(pressures, accel, gyro, avg));
    }
    return Ok(rest), report;
  }

  /**
   * The reports of the older loop: those printed before turn `k`, `printed`,
   * followed by one per processed frame of `input` with id 1, its channels
   * scaled and the rate over the window `w` after its interval (reading
   * `k + 1`, with `last` the previous one) was pushed.
   */
  function OldReports(printed: seq<Report>, w: seq<nat>, last: nat, input: seq<byte>, clock: nat -> nat, k: nat)
    : seq<Report>
    decreases |input|
  {
    match Can.ReceiveFrame(input)
    case Err(_) => printed
    case Ok(Received(frame, rest)) =>
      var now := clock(k + 1);
      var next := Push(w, Elapsed(last, now));
      match OldChannels(frame.data)
      case None => printed
      case Some(ch) =>
        Can.ReceiveFrameShape(input);
        var report := Report(Scale(ch.pressures, PressureTicks), Scale(ch.accel, AccelTicks),
                             Scale(ch.gyro, GyroTicks), AverageHz(next));
        OldReports(printed + (if frame.id == 1 then [report] else []), next, now, rest, clock, k + 1)
  }

  /** The older loop prints one report per processed frame with id 1, after those already printed. */
  lemma {:induction false} ReportPerSample(printed: seq<Report>, w: seq<nat>, last: nat, input: seq<byte>,
                                           clock: nat -> nat, k: nat)
    ensures |OldReports(printed, w, last, input, clock, k)| == |printed| + IdOneCount(Processed(input))
    decreases |input|
  {
    match Can.ReceiveFrame(input)
    case Err(_) =>
    case Ok(Received(frame, rest)) =>
      ChannelsAgree(frame.data);
      if Channels(frame.data).Some? {
        Can.ReceiveFrameShape(input);
        var now := clock(k + 1);
        var ch := OldChannels(frame.data).value;
        var report := Report(Scale(ch.pressures, PressureTicks), Scale(ch.accel, AccelTicks),
                             Scale(ch.gyro, GyroTicks), AverageHz(Push(w, Elapsed(last, now))));
        ReportPerSample(printed + (if frame.id == 1 then [report] else []), Push(w, Elapsed(last, now)), now,
                        rest, clock, k + 1);
        var fs := [frame] + Processed(rest);
        assert fs[1..] == Processed(rest);
      }
  }

  /** Every report holds seven pressures, three accelerations and three rates of turn. */
  predicate ReportsShaped(rs: seq<Report>)
  {
    forall i :: 0 <= i < |rs| ==> |rs[i].pressures| == 7 && |rs[i].accel| == 3 && |rs[i].gyro| == 3
  }

  /** The reports the older loop adds are all of that shape. */
  lemma {:induction false} ReportShapes(printed: seq<Report>, w: seq<nat>, last: nat, input: seq<byte>,
                                        clock: nat -> nat, k: nat)
    requires ReportsShaped(printed)
    ensures ReportsShaped(OldReports(printed, w, last, input, clock, k))
    decreases |input|
  {
    match Can.ReceiveFrame(input)
    case Err(_) =>
    case Ok(Received(frame, rest)) =>
      if OldChannels(frame.data).Some? {
        ChannelCounts(frame.data);
        Can.ReceiveFrameShape(input);
        var now := clock(k + 1);
        var ch := OldChannels(frame.data).value;
        var report := Report(Scale(ch.pressures, PressureTicks), Scale(ch.accel, AccelTicks),
                             Scale(ch.gyro, GyroTicks), AverageHz(Push(w, Elapsed(last, now))));
        ReportShapes(printed + (if frame.id == 1 then [report] else []), Push(w, Elapsed(last, now)), now,
                     rest, clock, k + 1);
      }
  }

  /**
   * The older `main` after the port is open. It stops where the newer loop
   * does, and every report holds seven pressures, three accelerations and
   * three rates of turn.
   */
  method OldMain(input: seq<byte>, clock: nat -> nat) returns (stop: Stop, reports: seq<Report>)
    ensures stop == StopOf(input)
    ensures reports == OldReports([], [], clock(0), input, clock, 0)
    ensures ReportsShaped(reports)
  {
    var window := new IntervalWindow(clock(0));
    ghost var whole := OldReports([], [], clock(0), input, clock, 0);
    var rest := input;
    var k := 0;
    var running := true;
    stop := Panic;
    reports := [];
    while running
      invariant window.Valid()
      invariant running ==> StopOf(rest) == StopOf(input)
      invariant running ==> OldReports(reports, window.intervals, window.lastTime, rest, clock, k) == whole
      invariant !running ==> stop == StopOf(input) && reports == whole
      decreases |rest| + (if running then 1 else 0)
    {
      if Can.ReceiveFrame(rest).Ok? {
        ChannelsAgree(Can.ReceiveFrame(rest).value.frame.data);
      }
      var out, report := OldStep(window, rest, clock(k + 1));
      reports := reports + (if report.Some? then [report.value] else []);
      if out.Err? {
        stop := out.error;
        running := false;
      } else {
        rest := out.value;
        k := k + 1;
      }
    }
    ReportShapes([], [], clock(0), input, clock, 0);
  }
}
