/**
 * The payload unpacking loop of the plotter's reader
 * (rust/plotter/src/main.rs and its older copy rust/plotter/src/old_main.rs)
 * and the slicing of the unpacked values into sensor channels.
 *
 * A cursor walks the payload: the first value is an unsigned 16-bit field,
 * then unsigned 24-bit fields follow while fewer than seven values exist,
 * then signed 16-bit fields, all little-endian. Reading past the end of the
 * payload panics; here that is `None`.
 */
module Telemetry {
  import opened Bytes
  import opened Results

  /** `u16::from_le_bytes([data[i], data[i + 1]])` */
  function U16At(data: seq<byte>, i: nat): (v: int)
    requires i + 2 <= |data|
    ensures 0 <= v < 0x1_0000
  {
    FromLe(data[i..i + 2])
  }

  /** `data[i] | data[i + 1] << 8 | data[i + 2] << 16`, as `u32` then `i32`. */
  function U24At(data: seq<byte>, i: nat): int
    requires i + 3 <= |data|
  {
    BitOr(BitOr(data[i], data[i + 1] as int * 0x100), data[i + 2] as int * 0x1_0000)
  }

  /** `i16::from_le_bytes([data[i], data[i + 1]])`, sign-extended. */
  function I16At(data: seq<byte>, i: nat): (v: int)
    requires i + 2 <= |data|
    ensures -0x8000 <= v < 0x8000
  {
    Signed(FromLe(data[i..i + 2]), 2)
  }

  /** The three shifted bytes do not overlap, so the OR is the little-endian value. */
  lemma U24AtIsLittleEndian(data: seq<byte>, i: nat)
    requires i + 3 <= |data|
    ensures U24At(data, i) == FromLe(data[i..i + 3])
    ensures 0 <= U24At(data, i) < 0x100_0000
  {
    var b0: int, b1: int, b2: int := data[i], data[i + 1], data[i + 2];
    Pow2Values();
    BitOrDisjoint(b1, b0, 8);
    BitOrDisjoint(b2, b1 * 0x100 + b0, 16);
    var s := data[i..i + 3];
    assert s[1..][1..][1..] == [];
    assert FromLe(s[1..][1..]) == b2;
    assert FromLe(s[1..]) == b1 + 0x100 * b2;
    assert FromLe(s) == b0 + 0x100 * (b1 + 0x100 * b2);
    assert BitOr(b0, b1 * 0x100) == b1 * 0x100 + b0;
  }

  function Append(values: seq<int>, r: Option<seq<int>>): Option<seq<int>>
  {
    match r
    case None => None
    case Some(more) => Some(values + more)
  }

  lemma AppendLaws(values: seq<int>, v: int, r: Option<seq<int>>)
    ensures Append([], r) == r
    ensures Append(values, Append([v], r)) == Append(values + [v], r)
    ensures Append(values, Some([])) == Some(values)
  {
    match r
    case None =>
    case Some(more) =>
      assert [] + more == more;
      assert values + ([v] + more) == (values + [v]) + more;
    assert values + [] == values;
  }

  /** The loop from cursor `i` with `count` values already pushed. */
  function UnpackFrom(data: seq<byte>, i: nat, count: nat): Option<seq<int>>
    decreases |data| - i
  {
    if i >= |data| then Some([])
    else if i == 0 then
      if i + 1 < |data| then Append([U16At(data, i)], UnpackFrom(data, i + 2, count + 1)) else None
    else if count < 7 then
      if i + 2 < |data| then Append([U24At(data, i)], UnpackFrom(data, i + 3, count + 1)) else None
    else
      if i + 1 < |data| then Append([I16At(data, i)], UnpackFrom(data, i + 2, count + 1)) else None
  }

  /** The unpacking loop, over the payload of one frame. */
  method Unpack(data: seq<byte>) returns (r: Option<seq<int>>)
    ensures r == UnpackFrom(data, 0, 0)
  {
    var values: seq<int> := [];
    var i: nat := 0;
    ghost var whole := UnpackFrom(data, 0, 0);
    AppendLaws(values, 0, whole);
    while i < |data|
      invariant i <= |data|
      invariant whole == Append(values, UnpackFrom(data, i, |values|))
      decreases |data| - i
    {
      if i == 0 {
        if i + 1 >= |data| {
          return None;
        }
        AppendLaws(values, U16At(data, i), UnpackFrom(data, i + 2, |values| + 1));
        values := values + [U16At(data, i)];
        i := i + 2;
      } else if |values| < 7 {
        if i + 2 >= |data| {
          return None;
        }
        AppendLaws(values, U24At(data, i), UnpackFrom(data, i + 3, |values| + 1));
        values := values + [U24At(data, i)];
        i := i + 3;
      } else {
        if i + 1 >= |data| {
          return None;
        }
        AppendLaws(values, I16At(data, i), UnpackFrom(data, i + 2, |values| + 1));
        values := values + [I16At(data, i)];
        i := i + 2;
      }
    }
    AppendLaws(values, 0, Some([]));
    return Some(values);
  }

  // ----- What the loop computes, stated without the cursor -----

  /** Where the `j`-th value starts. */
  function Offset(j: nat): nat
  {
    if j == 0 then 0 else if j <= 7 then 2 + 3 * (j - 1) else 20 + 2 * (j - 7)
  }

  /** How many bytes the `j`-th value takes. */
  function Width(j: nat): nat
  {
    if j == 0 || j >= 7 then 2 else 3
  }

  /** The `j`-th value: u16 first, u24 for the next six, i16 after that. */
  function Field(data: seq<byte>, j: nat): int
    requires Offset(j) + Width(j) <= |data|
  {
    if j == 0 then U16At(data, 0)
    else if j < 7 then U24At(data, Offset(j))
    else I16At(data, Offset(j))
  }

  /** The payload lengths at which the loop ends cleanly: exactly the ends of fields. */
  predicate ValidLength(n: nat)
  {
    n == 0 || (2 <= n <= 20 && (n - 2) % 3 == 0) || (n >= 20 && n % 2 == 0)
  }

  /** How many values a payload of a valid length unpacks into. */
  function ValueCount(n: nat): nat
    requires ValidLength(n)
  {
    if n == 0 then 0 else if n <= 20 then 1 + (n - 2) / 3 else 7 + (n - 20) / 2
  }

  /**
   * Field `k + 1` starts where field `k` ends; the start of a field is a
   * valid length holding exactly the fields before it, and no length strictly
   * inside a field is valid.
   */
  lemma OffsetBoundary(k: nat)
    ensures Offset(k + 1) == Offset(k) + Width(k)
    ensures ValidLength(Offset(k)) && ValueCount(Offset(k)) == k
    ensures forall n: nat :: Offset(k) < n < Offset(k + 1) ==> !ValidLength(n)
  {
  }

  /** `vs` are the fields from `k` on, each read at its own offset. */
  predicate FieldsFrom(data: seq<byte>, k: nat, vs: seq<int>)
  {
    forall j :: k <= j < k + |vs| ==> Offset(j) + Width(j) <= |data| && vs[j - k] == Field(data, j)
  }

  lemma FieldsCons(data: seq<byte>, k: nat, rest: seq<int>)
    requires Offset(k) + Width(k) <= |data| && FieldsFrom(data, k + 1, rest)
    ensures FieldsFrom(data, k, [Field(data, k)] + rest)
  {
    var vs := [Field(data, k)] + rest;
    forall j | k < j < k + |vs|
      ensures Offset(j) + Width(j) <= |data| && vs[j - k] == Field(data, j)
    {
      assert vs[j - k] == rest[j - (k + 1)];
    }
  }

  /** One turn of the loop at the start of value `k`. */
  lemma UnpackFromStep(data: seq<byte>, k: nat)
    requires Offset(k) < |data|
    ensures Offset(k) + Width(k) <= |data| ==>
      UnpackFrom(data, Offset(k), k) == Append([Field(data, k)], UnpackFrom(data, Offset(k) + Width(k), k + 1))
    ensures Offset(k) + Width(k) > |data| ==> UnpackFrom(data, Offset(k), k) == None
  {
    assert Offset(k) == 0 <==> k == 0;
  }

  /** The loop from the start of value `k` succeeds exactly when the payload length is valid. */
  lemma {:induction false} UnpackFromDefined(data: seq<byte>, k: nat)
    requires Offset(k) <= |data|
    ensures UnpackFrom(data, Offset(k), k).Some? <==> ValidLength(|data|)
    decreases |data| - Offset(k)
  {
    OffsetBoundary(k);
    if Offset(k) < |data| {
      UnpackFromStep(data, k);
      if Offset(k) + Width(k) <= |data| {
        UnpackFromDefined(data, k + 1);
      }
    }
  }

  /** When the loop from the start of value `k` succeeds, it yields the remaining fields. */
  lemma {:induction false} UnpackFromField(data: seq<byte>, k: nat)
    requires Offset(k) <= |data| && UnpackFrom(data, Offset(k), k).Some?
    ensures ValidLength(|data|)
    ensures var vs := UnpackFrom(data, Offset(k), k).value;
      |vs| == ValueCount(|data|) - k && FieldsFrom(data, k, vs)
    decreases |data| - Offset(k)
  {
    UnpackFromDefined(data, k);
    OffsetBoundary(k);
    if Offset(k) < |data| {
      UnpackFromStep(data, k);
      UnpackFromField(data, k + 1);
      FieldsCons(data, k, UnpackFrom(data, Offset(k + 1), k + 1).value);
    }
  }

  /**
   * The loop succeeds exactly on the valid lengths, and then yields
   * ValueCount values: value 0 as u16, values 1..6 as u24, the rest as i16,
   * each read from its own offset.
   */
  lemma UnpackResult(data: seq<byte>)
    ensures UnpackFrom(data, 0, 0).Some? <==> ValidLength(|data|)
    ensures UnpackFrom(data, 0, 0).Some? ==>
      var vs := UnpackFrom(data, 0, 0).value;
      && |vs| == ValueCount(|data|)
      && forall j :: 0 <= j < |vs| ==> Offset(j) + Width(j) <= |data| && vs[j] == Field(data, j)
  {
    UnpackFromDefined(data, 0);
    if UnpackFrom(data, 0, 0).Some? {
      UnpackFromField(data, 0);
    }
  }

  /** The ranges of the unpacked values. */
  lemma {:induction false} UnpackRanges(data: seq<byte>)
    requires UnpackFrom(data, 0, 0).Some?
    ensures var vs := UnpackFrom(data, 0, 0).value;
      && (|vs| > 0 ==> 0 <= vs[0] < 0x1_0000)
      && (forall j :: 1 <= j < |vs| && j < 7 ==> 0 <= vs[j] < 0x100_0000)
      && (forall j :: 7 <= j < |vs| ==> -0x8000 <= vs[j] < 0x8000)
  {
    UnpackResult(data);
    var vs := UnpackFrom(data, 0, 0).value;
    forall j | 1 <= j < |vs| && j < 7
      ensures 0 <= vs[j] < 0x100_0000
    {
      U24AtIsLittleEndian(data, Offset(j));
    }
  }

  /**
   * For an even length from 20 on the loop ends with `7 + (n - 20) / 2`
   * values; for an odd length from 21 on it reads past the end.
   */
  lemma PayloadLengths(data: seq<byte>)
    ensures |data| >= 20 && |data| % 2 == 0 ==>
      UnpackFrom(data, 0, 0).Some? && |UnpackFrom(data, 0, 0).value| == 7 + (|data| - 20) / 2
    ensures |data| >= 21 && |data| % 2 == 1 ==> UnpackFrom(data, 0, 0).None?
    ensures |data| == 32 ==> UnpackFrom(data, 0, 0).Some? && |UnpackFrom(data, 0, 0).value| == 13
  {
    UnpackResult(data);
  }

  /** Each field read from its bytes, least significant first. */
  lemma FieldBytes(data: seq<byte>, j: nat)
    requires Offset(j) + Width(j) <= |data|
    ensures var o := Offset(j);
      && (j == 0 ==> Field(data, j) == data[0] as int + 0x100 * data[1] as int)
      && (1 <= j < 7 ==> Field(data, j) == data[o] as int + 0x100 * data[o + 1] as int + 0x1_0000 * data[o + 2] as int)
      && (j >= 7 ==> Field(data, j) == Signed(data[o] as int + 0x100 * data[o + 1] as int, 2))
  {
    var o := Offset(j);
    if 1 <= j < 7 {
      U24AtIsLittleEndian(data, o);
      var s := data[o..o + 3];
      assert s[1..][1..][1..] == [];
      assert FromLe(s[1..][1..]) == s[2];
      assert FromLe(s[1..]) == s[1] as int + 0x100 * s[2] as int;
    } else {
      var s := data[o..o + 2];
      assert s[1..][1..] == [];
      assert FromLe(s[1..]) == s[1];
      assert FromLe(s) == s[0] as int + 0x100 * s[1] as int;
    }
  }

  // ----- The channels the reader takes from the values -----

  /** Raw ticks per channel group, before scaling. */
  datatype RawChannels = RawChannels(pressures: seq<int>, accel: seq<int>, gyro: seq<int>)

  /** `values[1..7]`, `values[7..10]`, `values[10..13]` (main.rs); a slice past the end panics. */
  function MainChannels(values: seq<int>): Option<RawChannels>
  {
    if |values| < 13 then None
    else Some(RawChannels(values[1..7], values[7..10], values[10..13]))
  }

  /** `values[0..7]`, `values[7..10]`, `values[10..13]` (old_main.rs). */
  function OldChannels(values: seq<int>): Option<RawChannels>
  {
    if |values| < 13 then None
    else Some(RawChannels(values[0..7], values[7..10], values[10..13]))
  }

  /**
   * Both readers need 13 values; the older one takes seven pressures,
   * counting the leading u16, where the newer one skips it and takes six.
   */
  lemma ChannelSlices(values: seq<int>)
    ensures MainChannels(values).Some? <==> |values| >= 13
    ensures OldChannels(values).Some? <==> |values| >= 13
    ensures |values| >= 13 ==>
      var m, o := MainChannels(values).value, OldChannels(values).value;
      && |m.pressures| == 6 && |o.pressures| == 7
      && o.pressures == [values[0]] + m.pressures
      && o.accel == m.accel && o.gyro == m.gyro
      && |m.accel| == 3 && |m.gyro| == 3
  {
  }

  /**
   * Unpacking and slicing succeed together exactly on even payloads of at
   * least 32 bytes: shorter valid payloads give fewer than 13 values.
   */
  lemma {:induction false} ChannelsNeedThirtyTwoBytes(data: seq<byte>)
    ensures (UnpackFrom(data, 0, 0).Some? && MainChannels(UnpackFrom(data, 0, 0).value).Some?)
        <==> (|data| >= 32 && |data| % 2 == 0)
  {
    UnpackResult(data);
  }
}
