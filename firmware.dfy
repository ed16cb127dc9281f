/**
 * The bridge firmware's frame handling (firmware/usb-can/App/Src/app.c):
 * `App_Send` turns a frame received over USB into a CAN transmission, and the
 * receive callback turns a CAN frame into the bytes sent back over USB.
 * The static buffers and the transmit header are the fields of UsbCanApp;
 * `uint16_t` accesses through a pointer read and write little-endian.
 */
module Firmware {
  import opened Bytes
  import opened Results
  import Can

  const MaxDataSize := 64
  const MaxPacketSize := MaxDataSize + 2

  /** `dlc_size` */
  const DlcSize: seq<nat> := [0, 1, 2, 3, 4, 5, 6, 7, 8, 12, 16, 20, 24, 32, 48, 64]

  lemma DlcSizeIsHostTable(dlc: Can.CanDlc)
    ensures |DlcSize| == 16 && DlcSize[Can.Index(dlc)] == Can.Size(dlc)
    ensures forall i :: 0 <= i < 16 ==> DlcSize[i] <= MaxDataSize
  {
  }

  /** `memcpy(dst, src, n)` on the contents of `dst`. */
  function Memcpy(dst: seq<byte>, src: seq<byte>, n: nat): (r: seq<byte>)
    requires n <= |dst| && n <= |src|
    ensures |r| == |dst|
  {
    src[..n] + dst[n..]
  }

  /**
   * The number of bytes `App_Send` copies: `header >> 11`, the code itself
   * and not `dlc_size[code]`. It is below 32, so the copy stays inside `tx_data`.
   */
  function CopyLength(data: seq<byte>): (n: nat)
    requires |data| >= 2
    ensures n < 32 && n < MaxDataSize
  {
    FromLe(data[..2]) / 2048
  }

  /** The two bytes the receive callback writes in front of the payload. */
  function RxHeaderBytes(identifier: nat, dataLength: nat): (r: seq<byte>)
    requires dataLength < 16
    ensures |r| == 2
  {
    var id16 := identifier % 0x1_0000;          // (uint16_t)rx_header.Identifier
    [id16 % 0x100, BitOr(id16 / 0x100, dataLength * 8) % 0x100]  // rx_data[1] |= DataLength << 3
  }

  /**
   * For an 11-bit identifier and a 4-bit code the header bytes are the
   * plotter's header `(code << 11) | id`, little-endian.
   */
  lemma RxHeaderValue(identifier: nat, code: nat)
    requires identifier < 2048 && code < 16
    ensures RxHeaderBytes(identifier, code) == [identifier % 0x100, code * 8 + identifier / 0x100]
    ensures FromLe(RxHeaderBytes(identifier, code)) == code * 2048 + identifier
  {
    var lo, hi := identifier % 0x100, identifier / 0x100;
    assert identifier == lo + 0x100 * hi;
    RxHeaderSplit(lo, hi, code);
    FromLeTwo(lo, code * 8 + hi);
  }

  /** The header bytes of the identifier `lo + 256 * hi`. */
  lemma RxHeaderSplit(lo: byte, hi: nat, code: nat)
    requires hi < 8 && code < 16
    ensures RxHeaderBytes(lo + 0x100 * hi, code) == [lo, code * 8 + hi]
  {
    var id := lo + 0x100 * hi;
    assert id % 0x1_0000 == id;
    DigitSplit(lo, hi);
    HighByte(code, hi);
  }

  /** `rx_data[1] |= DataLength << 3` on the identifier's top three bits. */
  lemma HighByte(code: nat, hi: nat)
    requires code < 16 && hi < 8
    ensures BitOr(hi, code * 8) % 0x100 == code * 8 + hi
  {
    assert Pow2(3) == 8;
    BitOrDisjoint(code, hi, 3);
    ModBelow(code * 8 + hi, 0x100);
  }

  lemma RxHeaderIsHostHeader(identifier: nat, dlc: Can.CanDlc)
    requires identifier < 2048
    ensures RxHeaderBytes(identifier, Can.Index(dlc)) == ToLe(Can.Header(identifier, dlc), 2)
  {
    var code := Can.Index(dlc);
    var lo, hi := identifier % 0x100, identifier / 0x100;
    assert hi < 8;
    var x := code * 8 + hi;
    assert x < 0x100;
    HeaderDigits(identifier, dlc);
    ToLeDigits(lo, x);
    RxHeaderValue(identifier, code);
  }

  /** The plotter's header of an 11-bit identifier, as its low byte and its high byte. */
  lemma HeaderDigits(identifier: nat, dlc: Can.CanDlc)
    requires identifier < 2048
    ensures Can.Header(identifier, dlc) == identifier % 0x100 + 0x100 * (Can.Index(dlc) * 8 + identifier / 0x100)
  {
    var h := Can.Header(identifier, dlc);
    assert h == 2048 * (h / 2048) + h % 2048;
    ModBelow(identifier, 2048);
  }

  /** What the callback sends over USB is read back by the plotter as the received CAN frame. */
  lemma UplinkDecodes(identifier: nat, dlc: Can.CanDlc, payload: seq<byte>, rest: seq<byte>)
    requires identifier < 2048 && |payload| == Can.Size(dlc)
    ensures Can.ReceiveFrame(RxHeaderBytes(identifier, Can.Index(dlc)) + payload + rest)
         == Ok(Can.Received(Can.CanFrame(identifier, dlc, payload), rest))
  {
    var sent := Can.SendFrame(identifier, payload, dlc);
    assert RxHeaderBytes(identifier, Can.Index(dlc)) + payload == sent by {
      RxHeaderIsHostHeader(identifier, dlc);
    }
    assert Can.ReceiveFrame(sent + rest) == Ok(Can.Received(Can.CanFrame(identifier, dlc, payload), rest)) by {
      Can.RoundTrip(identifier, payload, dlc, rest);
      ModBelow(identifier, 2048);
    }
  }

  /**
   * The payload bytes that leave with a frame after `App_Send`: the first
   * `size` bytes of `tx_data`. For codes 9..15 `App_Send` has refreshed only
   * the first `code` of them, so the frame carries stale bytes unless they
   * happen to equal the new payload's tail.
   */
  lemma {:induction false} SendForwardsStaleBytes(txBefore: seq<byte>, canId: u16, payload: seq<byte>, dlc: Can.CanDlc)
    requires |txBefore| == MaxDataSize && |payload| == Can.Size(dlc)
    ensures var frame := Can.SendFrame(canId, payload, dlc);
      var code, size := Can.Index(dlc), Can.Size(dlc);
      var tx := Memcpy(txBefore, frame[2..], CopyLength(frame));
      && CopyLength(frame) == code
      && tx[..size] == payload[..code] + txBefore[code..size]
      && (tx[..size] == payload <==> payload[code..] == txBefore[code..size])
  {
    var frame := Can.SendFrame(canId, payload, dlc);
    var code, size := Can.Index(dlc), Can.Size(dlc);
    assert code <= size by {
      CodeAtMostSize(dlc);
    }
    assert CopyLength(frame) == code && frame[2..] == payload;
    var tx := Memcpy(txBefore, payload, code);
    assert tx[..size] == payload[..code] + txBefore[code..size];
    if tx[..size] == payload {
      assert payload[code..] == tx[code..size];
    }
    if payload[code..] == txBefore[code..size] {
      assert payload == payload[..code] + payload[code..];
    }
  }

  lemma CodeAtMostSize(dlc: Can.CanDlc)
    ensures Can.Index(dlc) <= Can.Size(dlc)
  {
  }

  /** The input that shows it: a 12-byte frame of 0xFF bytes after start-up leaves with three zero bytes. */
  lemma TwelveByteFrameCorrupted(canId: u16)
    ensures var payload := seq(12, _ => 0xFF);
      var frame := Can.SendFrame(canId, payload, Can.Size12);
      Memcpy(seq(MaxDataSize, _ => 0), frame[2..], CopyLength(frame))[..12] != payload
  {
    var payload: seq<byte> := seq(12, _ => 0xFF);
    var zeros: seq<byte> := seq(MaxDataSize, _ => 0);
    assert payload[9..] != zeros[9..12] by {
      assert payload[9..][0] != zeros[9..12][0];
    }
    SendForwardsStaleBytes(zeros, canId, payload, Can.Size12);
  }

  /** The copy length `App_Send` evidently intends: the size the code stands for, once the code is known to fit. */
  function FixedCopyLength(data: seq<byte>): (n: nat)
    requires |data| >= 2 && CopyLength(data) < 16
    ensures n <= MaxDataSize
  {
    DlcSize[CopyLength(data)]
  }

  /** With the intended copy length every frame from the host leaves with exactly its payload. */
  lemma {:induction false} FixedSendForwardsPayload(txBefore: seq<byte>, canId: u16, payload: seq<byte>, dlc: Can.CanDlc)
    requires |txBefore| == MaxDataSize && |payload| == Can.Size(dlc)
    ensures var frame := Can.SendFrame(canId, payload, dlc);
      && CopyLength(frame) == Can.Index(dlc)
      && Memcpy(txBefore, frame[2..], FixedCopyLength(frame))[..Can.Size(dlc)] == payload
  {
    DlcSizeIsHostTable(dlc);
  }

  class UsbCanApp {
    var txIdentifier: nat     // tx_header.Identifier
    var txDataLength: nat     // tx_header.DataLength
    var txData: array<byte>   // tx_data
    var rxData: array<byte>   // rx_data

    ghost predicate Valid()
      reads this
    {
      txData.Length == MaxDataSize && rxData.Length == MaxPacketSize
    }

    /** The static storage, zero-initialised. */
    constructor ()
      ensures Valid() && fresh(txData) && fresh(rxData)
      ensures txIdentifier == 0 && txDataLength == 0
      ensures txData[..] == seq(MaxDataSize, _ => 0) && rxData[..] == seq(MaxPacketSize, _ => 0)
    {
      txIdentifier, txDataLength := 0, 0;
      txData := new byte[MaxDataSize](_ => 0);
      rxData := new byte[MaxPacketSize](_ => 0);
    }

    /** `App_Send` as written: `header >> 11` bytes are copied. */
    method Send(data: seq<byte>)
      requires Valid()
      requires |data| >= 2 && |data| >= 2 + CopyLength(data)
      modifies this, txData
      ensures Valid() && txData == old(txData) && rxData == old(rxData)
      ensures txIdentifier == FromLe(data[..2]) % 2048
      ensures txDataLength == FromLe(data[..2]) / 2048
      ensures txData[..] == Memcpy(old(txData[..]), data[2..], CopyLength(data))
    {
      var header := FromLe(data[..2]);
      var len := header / 2048;
      txIdentifier := header % 2048;
      txDataLength := len;
      Copy(data[2..], len);
    }

    /**
     * `App_Send` with the copy length corrected, refusing a header whose code
     * has no size instead of reading past `dlc_size`.
     */
    method SendChecked(data: seq<byte>) returns (queued: bool)
      requires Valid()
      requires |data| >= 2
      requires CopyLength(data) < 16 ==> |data| >= 2 + FixedCopyLength(data)
      modifies this, txData
      ensures Valid() && txData == old(txData) && rxData == old(rxData)
      ensures queued <==> CopyLength(data) < 16
      ensures !queued ==> txData[..] == old(txData[..]) && txIdentifier == old(txIdentifier)
                          && txDataLength == old(txDataLength)
      ensures queued ==> txIdentifier == FromLe(data[..2]) % 2048 && txDataLength == CopyLength(data)
                         && txData[..] == Memcpy(old(txData[..]), data[2..], FixedCopyLength(data))
    {
      var header := FromLe(data[..2]);
      var code := header / 2048;
      queued := code < 16;
      if queued {
        txIdentifier := header % 2048;
        txDataLength := code;
        Copy(data[2..], DlcSize[code]);
      }
    }

    /** `memcpy(tx_data, src, n)` */
    method Copy(src: seq<byte>, n: nat)
      requires Valid() && n <= MaxDataSize && n <= |src|
      modifies txData
      ensures txData[..] == Memcpy(old(txData[..]), src, n)
    {
      var i := 0;
      while i < n
        invariant 0 <= i <= n
        invariant forall k :: 0 <= k < i ==> txData[k] == src[k]
        invariant forall k :: i <= k < txData.Length ==> txData[k] == old(txData[k])
      {
        txData[i] := src[i];
        i := i + 1;
      }
      assert forall k :: 0 <= k < txData.Length ==> txData[..][k] == Memcpy(old(txData[..]), src, n)[k];
    }

    /**
     * `HAL_FDCAN_RxFifo0Callback` for a new message: the controller stores
     * the payload after the two header bytes, the header is assembled in
     * front of it, and `2 + dlc_size[DataLength]` bytes go out over USB.
     */
    method RxFifo0Callback(identifier: nat, dataLength: nat, payload: seq<byte>) returns (sent: seq<byte>)
      requires Valid()
      requires identifier < 0x1_0000_0000 && dataLength < 16 && |payload| == DlcSize[dataLength]
      modifies rxData
      ensures rxData[..] == RxHeaderBytes(identifier, dataLength) + payload + old(rxData[..])[2 + |payload|..]
      ensures sent == RxHeaderBytes(identifier, dataLength) + payload
      ensures |sent| <= MaxPacketSize
    {
      StorePayload(payload);
      AssembleHeader(identifier, dataLength);
      sent := rxData[..2 + DlcSize[dataLength]];
    }

    /** `HAL_FDCAN_GetRxMessage(..., rx_data + 2)`: the payload lands after the header slot. */
    method StorePayload(payload: seq<byte>)
      requires Valid() && |payload| <= MaxDataSize
      modifies rxData
      ensures rxData[..] == old(rxData[..])[..2] + payload + old(rxData[..])[2 + |payload|..]
    {
      var i := 0;
      while i < |payload|
        invariant 0 <= i <= |payload|
        invariant forall k :: 0 <= k < i ==> rxData[2 + k] == payload[k]
        invariant forall k :: 0 <= k < rxData.Length && !(2 <= k < 2 + i) ==> rxData[k] == old(rxData[k])
      {
        rxData[2 + i] := payload[i];
        i := i + 1;
      }
      ghost var expected := old(rxData[..])[..2] + payload + old(rxData[..])[2 + |payload|..];
      forall k | 0 <= k < rxData.Length
        ensures rxData[..][k] == expected[k]
      {
        if 2 <= k < 2 + |payload| {
          assert rxData[2 + (k - 2)] == payload[k - 2];
        }
      }
    }

    /** The header assembly: only `rx_data[0]` and `rx_data[1]` change. */
    method AssembleHeader(identifier: nat, dataLength: nat)
      requires Valid() && dataLength < 16
      modifies rxData
      ensures rxData[..] == RxHeaderBytes(identifier, dataLength) + old(rxData[..])[2..]
    {
      var id16 := identifier % 0x1_0000;
      rxData[0] := id16 % 0x100;
      rxData[1] := id16 / 0x100;
      rxData[1] := BitOr(rxData[1], dataLength * 8) % 0x100;
    }
  }
}
