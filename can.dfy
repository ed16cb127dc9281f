/**
 * The host-side frame codec of the plotter (rust/plotter/src/can.rs).
 *
 * A frame travels as a 2-byte little-endian header followed by the payload.
 * The header holds the 11-bit CAN identifier in bits 0..10 and the index of
 * the data length code in bits 11..15.
 */
module Can {
  import opened Bytes
  import opened Results
  import Seqs

  /** The sixteen data length codes; each constructor is named after its byte count. */
  datatype CanDlc =
    | Size0 | Size1 | Size2 | Size3 | Size4 | Size5 | Size6 | Size7 | Size8
    | Size12 | Size16 | Size20 | Size24 | Size32 | Size48 | Size64

  /**
   * The CAN FD data length coding of ISO 11898-1:2015: the byte count that
   * each 4-bit code stands for.
   */
  const CanFdLengths: seq<nat> := [0, 1, 2, 3, 4, 5, 6, 7, 8, 12, 16, 20, 24, 32, 48, 64]

  /** The explicit discriminant of a code, `dlc as u16`. */
  function Index(dlc: CanDlc): (i: nat)
    ensures i < 16
  {
    match dlc
    case Size0 => 0
    case Size1 => 1
    case Size2 => 2
    case Size3 => 3
    case Size4 => 4
    case Size5 => 5
    case Size6 => 6
    case Size7 => 7
    case Size8 => 8
    case Size12 => 9
    case Size16 => 10
    case Size20 => 11
    case Size24 => 12
    case Size32 => 13
    case Size48 => 14
    case Size64 => 15
  }

  /** `CanDlc::size`: the payload length in bytes. */
  function Size(dlc: CanDlc): (n: nat)
    ensures n == CanFdLengths[Index(dlc)]
  {
    match dlc
    case Size0 => 0
    case Size1 => 1
    case Size2 => 2
    case Size3 => 3
    case Size4 => 4
    case Size5 => 5
    case Size6 => 6
    case Size7 => 7
    case Size8 => 8
    case Size12 => 12
    case Size16 => 16
    case Size20 => 20
    case Size24 => 24
    case Size32 => 32
    case Size48 => 48
    case Size64 => 64
  }

  /** The match in `receive_frame` that turns a header's code back into a `CanDlc`. */
  function FromIndex(i: nat): (r: Option<CanDlc>)
    ensures r.Some? <==> i < 16
    ensures r.Some? ==> Index(r.value) == i
  {
    match i
    case 0 => Some(Size0)
    case 1 => Some(Size1)
    case 2 => Some(Size2)
    case 3 => Some(Size3)
    case 4 => Some(Size4)
    case 5 => Some(Size5)
    case 6 => Some(Size6)
    case 7 => Some(Size7)
    case 8 => Some(Size8)
    case 9 => Some(Size12)
    case 10 => Some(Size16)
    case 11 => Some(Size20)
    case 12 => Some(Size24)
    case 13 => Some(Size32)
    case 14 => Some(Size48)
    case 15 => Some(Size64)
    case _ => None
  }

  /** Sizes grow strictly with the discriminant, so the code is determined by its size. */
  lemma SizeStrictlyIncreasing(d1: CanDlc, d2: CanDlc)
    ensures Index(d1) < Index(d2) <==> Size(d1) < Size(d2)
    ensures Size(d1) == Size(d2) <==> d1 == d2
    ensures Size(d1) <= 64
  {
  }

  lemma FromIndexInvertsIndex(dlc: CanDlc)
    ensures FromIndex(Index(dlc)) == Some(dlc)
  {
  }

  datatype CanFrame = CanFrame(id: u16, dlc: CanDlc, data: seq<byte>)

  /** `((dlc as u16) << 11) | (can_id & 0x07FF)` */
  function Header(canId: u16, dlc: CanDlc): (h: u16)
    ensures h % 2048 == canId % 2048
    ensures h / 2048 == Index(dlc)
  {
    Pow2Values();
    BitOrDisjoint(Index(dlc), canId % 2048, 11);
    BitOr(Index(dlc) * 2048, canId % 2048)
  }

  /**
   * The bytes `send_frame` writes to the port: the header, little-endian,
   * then `data` as given. The length of `data` is not checked against `dlc`.
   */
  function SendFrame(canId: u16, data: seq<byte>, dlc: CanDlc): (buf: seq<byte>)
    ensures |buf| == 2 + |data|
    ensures buf[2..] == data
    ensures FromLe(buf[..2]) % 2048 == canId % 2048
    ensures FromLe(buf[..2]) / 2048 == Index(dlc)
  {
    var h := ToLe(Header(canId, dlc), 2);
    assert (h + data)[..2] == h;
    h + data
  }

  datatype RecvError =
    | ReadFailed       // `read_exact` could not fill its buffer: the stream ended, or paused past the 100 ms timeout
    | InvalidDlcIndex  // "Invalid DLC index"

  datatype Received = Received(frame: CanFrame, rest: seq<byte>)

  /**
   * `receive_frame` over the bytes still to come from the port: on success,
   * the frame and the bytes after it.
   */
  function ReceiveFrame(input: seq<byte>): (r: Result<Received, RecvError>)
  {
    if |input| < 2 then Err(ReadFailed)
    else
      var header := FromLe(input[..2]);
      match FromIndex(header / 2048)
      case None => Err(InvalidDlcIndex)
      case Some(dlc) =>
        if |input| < 2 + Size(dlc) then Err(ReadFailed)
        else Ok(Received(CanFrame(header % 2048, dlc, input[2..2 + Size(dlc)]), input[2 + Size(dlc)..]))
  }

  /** The 16-bit header read from the first two bytes. */
  lemma HeaderBytes(b0: byte, b1: byte)
    ensures FromLe([b0, b1]) == b0 + 256 * b1
    ensures FromLe([b0, b1]) / 2048 == b1 / 8
    ensures FromLe([b0, b1]) % 2048 == b0 + 256 * (b1 % 8)
  {
    assert [b0, b1][1..] == [b1];
    assert [b1][1..] == [];
  }

  /** A successful read yields an 11-bit id and exactly `size` payload bytes, and consumes `2 + size` bytes. */
  lemma ReceiveFrameShape(input: seq<byte>)
    requires ReceiveFrame(input).Ok?
    ensures var Received(f, rest) := ReceiveFrame(input).value;
      && f.id < 2048
      && |f.data| == Size(f.dlc)
      && input == ToLe(f.id + 2048 * Index(f.dlc), 2) + f.data + rest
  {
    var Received(f, rest) := ReceiveFrame(input).value;
    ToLeFromLe(input[..2]);
    assert input == input[..2] + f.data + rest;
  }

  /** The code is rejected exactly when it does not fit in 4 bits: the second byte is 0x80 or more. */
  lemma ReceiveFrameRejectsIff(input: seq<byte>)
    requires |input| >= 2
    ensures ReceiveFrame(input) == Err(InvalidDlcIndex) <==> input[1] >= 0x80
  {
    assert input[..2] == [input[0], input[1]];
    HeaderBytes(input[0], input[1]);
  }

  /** Fewer than two header bytes, or fewer payload bytes than the code asks for, fail the read. */
  lemma ReceiveFrameShortInput(input: seq<byte>)
    ensures |input| < 2 ==> ReceiveFrame(input) == Err(ReadFailed)
    ensures |input| >= 2 && input[1] < 0x80 ==>
      (ReceiveFrame(input) == Err(ReadFailed) <==> |input| < 2 + CanFdLengths[input[1] / 8])
  {
    if |input| >= 2 {
      assert input[..2] == [input[0], input[1]];
      HeaderBytes(input[0], input[1]);
    }
  }

  /** Reading back what `send_frame` wrote gives the masked id, the code and the payload. */
  lemma {:induction false} RoundTrip(canId: u16, data: seq<byte>, dlc: CanDlc, rest: seq<byte>)
    requires |data| == Size(dlc)
    ensures ReceiveFrame(SendFrame(canId, data, dlc) + rest)
         == Ok(Received(CanFrame(canId % 2048, dlc, data), rest))
  {
    var buf := SendFrame(canId, data, dlc) + rest;
    assert buf[..2] == SendFrame(canId, data, dlc)[..2];
    assert buf[2..2 + Size(dlc)] == data;
    assert buf[2 + Size(dlc)..] == rest;
    ReceiveKnownCode(buf, dlc);
  }

  /** Only the low 11 bits of the id reach the wire. */
  lemma {:induction false} IdMasking(id1: u16, id2: u16, data: seq<byte>, dlc: CanDlc)
    ensures SendFrame(id1, data, dlc) == SendFrame(id2, data, dlc) <==> id1 % 2048 == id2 % 2048
  {
    var h1, h2 := Header(id1, dlc), Header(id2, dlc);
    if id1 % 2048 == id2 % 2048 {
      assert h1 == 2048 * (h1 / 2048) + h1 % 2048;
      assert h2 == 2048 * (h2 / 2048) + h2 % 2048;
    }
    if SendFrame(id1, data, dlc) == SendFrame(id2, data, dlc) {
      assert SendFrame(id1, data, dlc)[..2] == SendFrame(id2, data, dlc)[..2];
    }
  }

  /**
   * A payload whose length differs from the code's size is written anyway;
   * the reader then takes exactly `size` bytes, so a longer payload leaks
   * into the next frame and a shorter one swallows bytes that follow it.
   */
  lemma {:induction false} MismatchedPayload(canId: u16, data: seq<byte>, dlc: CanDlc, rest: seq<byte>)
    requires |data| != Size(dlc)
    ensures var r := ReceiveFrame(SendFrame(canId, data, dlc) + rest);
      && (|data| + |rest| < Size(dlc) <==> r == Err(ReadFailed))
      && (r.Ok? ==> (r.value.frame.data != data && r.value.frame.data + r.value.rest == data + rest))
  {
    var sent := SendFrame(canId, data, dlc);
    var buf := sent + rest;
    Seqs.AppendSlices(sent, rest, 2);
    ReceiveKnownCode(buf, dlc);
    var n := 2 + Size(dlc);
    if n <= |buf| {
      Seqs.SliceSplit(buf, 2, n);
    }
  }

  /** A read whose header carries the code of `dlc` takes exactly `Size(dlc)` payload bytes, if there are that many. */
  lemma ReceiveKnownCode(input: seq<byte>, dlc: CanDlc)
    requires |input| >= 2 && FromLe(input[..2]) / 2048 == Index(dlc)
    ensures var n := 2 + Size(dlc);
      ReceiveFrame(input)
      == if |input| < n then Err(ReadFailed)
         else Ok(Received(CanFrame(FromLe(input[..2]) % 2048, dlc, input[2..n]), input[n..]))
  {
    FromIndexInvertsIndex(dlc);
  }
}
