/**
 * The frame codec of the Python test script (software/main.py). It uses the
 * same wire format as the plotter's codec but does not mask the identifier,
 * and it indexes a size table with the header's code instead of matching on it.
 */
module PyFrames {
  import opened Bytes
  import opened Results
  import Can

  /** The `DLC_SIZE` enum: each member is named after its byte count and valued with its code. */
  datatype DlcSize =
    | Dlc0 | Dlc1 | Dlc2 | Dlc3 | Dlc4 | Dlc5 | Dlc6 | Dlc7 | Dlc8
    | Dlc12 | Dlc16 | Dlc20 | Dlc24 | Dlc32 | Dlc48 | Dlc64

  /** `DLC_SIZE.<member>.value` */
  function Value(e: DlcSize): (i: nat)
    ensures i < 16
  {
    match e
    case Dlc0 => 0
    case Dlc1 => 1
    case Dlc2 => 2
    case Dlc3 => 3
    case Dlc4 => 4
    case Dlc5 => 5
    case Dlc6 => 6
    case Dlc7 => 7
    case Dlc8 => 8
    case Dlc12 => 9
    case Dlc16 => 10
    case Dlc20 => 11
    case Dlc24 => 12
    case Dlc32 => 13
    case Dlc48 => 14
    case Dlc64 => 15
  }

  /** `dlc_sizes` */
  const DlcSizes: seq<nat> := [0, 1, 2, 3, 4, 5, 6, 7, 8, 12, 16, 20, 24, 32, 48, 64]

  /** The plotter's code that carries the same name (`DLC_12` and `Size12`, ...). */
  function SameNamed(e: DlcSize): Can.CanDlc
  {
    match e
    case Dlc0 => Can.Size0
    case Dlc1 => Can.Size1
    case Dlc2 => Can.Size2
    case Dlc3 => Can.Size3
    case Dlc4 => Can.Size4
    case Dlc5 => Can.Size5
    case Dlc6 => Can.Size6
    case Dlc7 => Can.Size7
    case Dlc8 => Can.Size8
    case Dlc12 => Can.Size12
    case Dlc16 => Can.Size16
    case Dlc20 => Can.Size20
    case Dlc24 => Can.Size24
    case Dlc32 => Can.Size32
    case Dlc48 => Can.Size48
    case Dlc64 => Can.Size64
  }

  /** The enum, the table and `CanDlc::size` agree: same codes, same sizes. */
  lemma TablesAgree(e: DlcSize, d: Can.CanDlc)
    ensures Value(e) == Can.Index(SameNamed(e))
    ensures DlcSizes[Value(e)] == Can.Size(SameNamed(e))
    ensures |DlcSizes| == 16 && DlcSizes[Can.Index(d)] == Can.Size(d)
  {
  }

  datatype PyError =
    | StructError  // `struct.pack`/`struct.unpack` rejected the value or the buffer
    | IndexError   // `dlc_sizes[dlc_idx]` with an index past the table
    | ShortRead    // the stream ended before the requested bytes arrived: a blocking read that never returns

  /** `send_frame`: `struct.pack("<H", dlc_idx << 11 | id)` followed by `data`. */
  function SendFrame(id: nat, data: seq<byte>, dlcIdx: nat): (r: Result<seq<byte>, PyError>)
  {
    var header := BitOr(dlcIdx * 2048, id);
    if header < 0x1_0000 then Ok(ToLe(header, 2) + data) else Err(StructError)
  }

  datatype PyFrame = PyFrame(id: nat, data: seq<byte>, dlcIdx: nat)

  /** `receive_frame` over the bytes still to come: the `(id, data, dlc_idx)` triple and the bytes after it. */
  function ReceiveFrame(input: seq<byte>): (r: Result<(PyFrame, seq<byte>), PyError>)
  {
    if |input| < 2 then Err(ShortRead)
    else
      var header := FromLe(input[..2]);
      var id, dlcIdx := header % 2048, header / 2048;
      if dlcIdx >= |DlcSizes| then Err(IndexError)
      else if |input| < 2 + DlcSizes[dlcIdx] then Err(ShortRead)
      else Ok((PyFrame(id, input[2..2 + DlcSizes[dlcIdx]], dlcIdx), input[2 + DlcSizes[dlcIdx]..]))
  }

  /**
   * Without the mask, the id's bits above bit 10 are OR-ed into the code,
   * and a header over 0xFFFF makes `struct.pack` raise.
   */
  lemma {:induction false} UnmaskedId(id: nat, data: seq<byte>, dlcIdx: nat)
    ensures SendFrame(id, data, dlcIdx).Ok? <==> BitOr(dlcIdx, id / 2048) < 32
    ensures SendFrame(id, data, dlcIdx).Ok? ==>
      var buf := SendFrame(id, data, dlcIdx).value;
      && |buf| == 2 + |data| && buf[2..] == data
      && FromLe(buf[..2]) % 2048 == id % 2048
      && FromLe(buf[..2]) / 2048 == BitOr(dlcIdx, id / 2048)
  {
    Pow2Values();
    assert id == (id / 2048) * 2048 + id % 2048;
    BitOrShifted(dlcIdx, id / 2048, id % 2048, 11);
    var header := BitOr(dlcIdx * 2048, id);
    if header < 0x1_0000 {
      var buf := ToLe(header, 2) + data;
      assert buf[..2] == ToLe(header, 2);
    }
  }

  /** For an id below 2048 the script writes the same bytes as the plotter. */
  lemma {:induction false} SendMatchesPlotter(id: nat, data: seq<byte>, dlc: Can.CanDlc)
    requires id < 2048
    ensures SendFrame(id, data, Can.Index(dlc)) == Ok(Can.SendFrame(id, data, dlc))
  {
    assert id % 2048 == id;
    var header := Can.Header(id, dlc);
    assert header == BitOr(Can.Index(dlc) * 2048, id);
    assert Can.SendFrame(id, data, dlc) == ToLe(header, 2) + data;
  }

  /** Reading back what `send_frame` wrote, for an id below 2048 and a payload of the code's size. */
  lemma {:induction false} RoundTrip(id: nat, data: seq<byte>, dlcIdx: nat, rest: seq<byte>)
    requires id < 2048 && dlcIdx < 16 && |data| == DlcSizes[dlcIdx]
    ensures SendFrame(id, data, dlcIdx).Ok?
    ensures ReceiveFrame(SendFrame(id, data, dlcIdx).value + rest) == Ok((PyFrame(id, data, dlcIdx), rest))
  {
    var header := dlcIdx * 2048 + id;
    assert BitOr(dlcIdx * 2048, id) == header by {
      Pow2Values();
      BitOrDisjoint(dlcIdx, id, 11);
    }
    var buf := ToLe(header, 2) + data + rest;
    Parts(ToLe(header, 2), data, rest);
    ReceiveKnownHeader(buf, dlcIdx, id);
  }

  /** The three parts of `a + b + c`, by position. */
  lemma Parts<T>(a: seq<T>, b: seq<T>, c: seq<T>)
    ensures (a + b + c)[..|a|] == a
    ensures (a + b + c)[|a|..|a| + |b|] == b
    ensures (a + b + c)[|a| + |b|..] == c
  {
  }

  /** A buffer whose first two bytes hold `code * 2048 + id`, for a code in the table, yields that frame. */
  lemma ReceiveKnownHeader(input: seq<byte>, code: nat, id: nat)
    requires id < 2048 && code < 16 && |input| >= 2 + DlcSizes[code]
    requires FromLe(input[..2]) == code * 2048 + id
    ensures ReceiveFrame(input) == Ok((PyFrame(id, input[2..2 + DlcSizes[code]], code), input[2 + DlcSizes[code]..]))
  {
    HeaderSplit(code, id);
  }

  /** The code and the id come back out of `code * 2048 + id`. */
  lemma HeaderSplit(code: nat, id: nat)
    requires id < 2048
    ensures (code * 2048 + id) / 2048 == code && (code * 2048 + id) % 2048 == id
  {
  }

  /**
   * On every input the script's reader and the plotter's agree: both fail on
   * the same inputs, the table lookup failing exactly where the match does,
   * and otherwise they return the same id, code, payload and remaining bytes.
   */
  lemma ReceiveMatchesPlotter(input: seq<byte>)
    ensures ReceiveFrame(input) == Err(IndexError) <==> Can.ReceiveFrame(input) == Err(Can.InvalidDlcIndex)
    ensures ReceiveFrame(input) == Err(ShortRead) <==> Can.ReceiveFrame(input) == Err(Can.ReadFailed)
    ensures ReceiveFrame(input).Ok? <==> Can.ReceiveFrame(input).Ok?
    ensures ReceiveFrame(input).Ok? ==>
      var (f, rest) := ReceiveFrame(input).value;
      var g := Can.ReceiveFrame(input).value;
      f.id == g.frame.id && f.data == g.frame.data && f.dlcIdx == Can.Index(g.frame.dlc) && rest == g.rest
  {
    if |input| >= 2 {
      var header := FromLe(input[..2]);
      if header / 2048 < 16 {
        var dlc := Can.FromIndex(header / 2048).value;
        assert DlcSizes[header / 2048] == Can.Size(dlc);
      }
    }
  }
}
