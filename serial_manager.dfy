/**
 * The Python serial helper, python/serial_manager.py: typed field packing
 * (`pack_data`, `unpack_data` and their older format-string versions) and
 * the port selection of `SerialManager.__init__`.
 *
 * `struct` is used with the `=` prefix: native byte order, which is taken to
 * be little-endian here, with standard sizes and no padding. Values are
 * Python integers; the floating-point types are outside this model.
 */
module SerialManager {
  import opened Bytes
  import opened Results
  import opened Selection

  datatype DataType =
    | Empty | UInt8 | Int8 | UInt16 | Int16 | UInt32 | Int32 | UInt64 | Int64 | Float | Double | UInt24

  /** The enum's `value`. */
  function Value(t: DataType): (v: nat)
    ensures v < 12
  {
    match t
    case Empty => 0
    case UInt8 => 1
    case Int8 => 2
    case UInt16 => 3
    case Int16 => 4
    case UInt32 => 5
    case Int32 => 6
    case UInt64 => 7
    case Int64 => 8
    case Float => 9
    case Double => 10
    case UInt24 => 11
  }

  /** `data_lengths` */
  const DataLengths: seq<nat> := [0, 1, 1, 2, 2, 4, 4, 8, 8, 4, 8, 3]

  /** `data_strings` */
  const DataStrings: seq<string> := ["", "B", "b", "H", "h", "I", "i", "Q", "q", "f", "d", ""]

  /** `data_lengths[t.value]` */
  function Width(t: DataType): nat
  {
    match t
    case Empty => 0
    case UInt8 => 1
    case Int8 => 1
    case UInt16 => 2
    case Int16 => 2
    case UInt32 => 4
    case Int32 => 4
    case UInt64 => 8
    case Int64 => 8
    case Float => 4
    case Double => 8
    case UInt24 => 3
  }

  /** `data_strings[t.value]` */
  function Code(t: DataType): string
  {
    match t
    case Empty => ""
    case UInt8 => "B"
    case Int8 => "b"
    case UInt16 => "H"
    case Int16 => "h"
    case UInt32 => "I"
    case Int32 => "i"
    case UInt64 => "Q"
    case Int64 => "q"
    case Float => "f"
    case Double => "d"
    case UInt24 => ""
  }

  /** `Width` and `Code` read the two tables at the enum's value. */
  lemma TableLookups(t: DataType)
    ensures Width(t) == DataLengths[Value(t)]
    ensures Code(t) == DataStrings[Value(t)]
  {
  }

  predicate IsFloat(t: DataType)
  {
    t == Float || t == Double
  }

  /** The types this model covers: all but the two floating-point ones. */
  type FieldType = t: DataType | !IsFloat(t) witness Empty

  /** The exceptions the helpers raise. */
  datatype PyError =
    | StructError    // `struct.error`
    | OverflowError  // from `int.to_bytes`
    | IndexError     // `[0]` of an empty tuple

  // ----- The `struct` module, for the integer codes -----

  /** One of the codes `B b H h I i Q q`. */
  predicate IsIntCode(c: char)
  {
    c == 'B' || c == 'b' || c == 'H' || c == 'h' || c == 'I' || c == 'i' || c == 'Q' || c == 'q'
  }

  /** The lower-case codes are the signed ones. */
  predicate IsSignedCode(c: char)
  {
    c == 'b' || c == 'h' || c == 'i' || c == 'q'
  }

  /** Standard size of an integer code. */
  function CodeSize(c: char): (n: nat)
    requires IsIntCode(c)
    ensures n > 0
  {
    if c == 'B' || c == 'b' then 1
    else if c == 'H' || c == 'h' then 2
    else if c == 'I' || c == 'i' then 4
    else 8
  }

  predicate IntFormat(fmt: string)
  {
    forall i :: 0 <= i < |fmt| ==> IsIntCode(fmt[i])
  }

  /** `struct.calcsize("=" + fmt)` */
  function CalcSize(fmt: string): nat
    requires IntFormat(fmt)
  {
    if |fmt| == 0 then 0 else CodeSize(fmt[0]) + CalcSize(fmt[1..])
  }

  predicate CodeFits(c: char, v: int)
    requires IsIntCode(c)
  {
    if IsSignedCode(c) then -Half(CodeSize(c)) <= v < Half(CodeSize(c)) else 0 <= v < Pow256(CodeSize(c))
  }

  /** One value under one code: two's complement for the signed codes. */
  function PackCode(c: char, v: int): (r: Result<seq<byte>, PyError>)
    requires IsIntCode(c)
    ensures r.Ok? <==> CodeFits(c, v)
    ensures r.Ok? ==> |r.value| == CodeSize(c)
  {
    if !CodeFits(c, v) then Err(StructError)
    else if IsSignedCode(c) then Ok(ToLe(Unsigned(v, CodeSize(c)), CodeSize(c)))
    else Ok(ToLe(v, CodeSize(c)))
  }

  function DecodeCode(c: char, bs: seq<byte>): int
    requires IsIntCode(c) && |bs| == CodeSize(c)
  {
    if IsSignedCode(c) then Signed(FromLe(bs), CodeSize(c)) else FromLe(bs)
  }

  lemma CodeRoundTrip(c: char, v: int)
    requires IsIntCode(c) && CodeFits(c, v)
    ensures DecodeCode(c, PackCode(c, v).value) == v
  {
  }

  function Prepend<T>(xs: seq<T>, r: Result<seq<T>, PyError>): Result<seq<T>, PyError>
  {
    match r
    case Err(e) => Err(e)
    case Ok(ys) => Ok(xs + ys)
  }

  lemma PrependLaws<T>(xs: seq<T>, ys: seq<T>, r: Result<seq<T>, PyError>)
    ensures Prepend([], r) == r
    ensures Prepend(xs, Prepend(ys, r)) == Prepend(xs + ys, r)
    ensures Prepend(xs, Ok([])) == Ok(xs)
  {
    assert xs + [] == xs;
    match r
    case Err(_) =>
    case Ok(zs) =>
      assert [] + zs == zs;
      assert xs + (ys + zs) == (xs + ys) + zs;
  }

  /** `struct.pack("=" + fmt, *values)`: the item count must match, then each value must fit. */
  function StructPack(fmt: string, values: seq<int>): (r: Result<seq<byte>, PyError>)
    requires IntFormat(fmt)
    ensures r.Ok? ==> |r.value| == CalcSize(fmt)
  {
    if |fmt| != |values| then Err(StructError)
    else if |fmt| == 0 then Ok([])
    else
      match PackCode(fmt[0], values[0])
      case Err(e) => Err(e)
      case Ok(b) => Prepend(b, StructPack(fmt[1..], values[1..]))
  }

  /** `struct.unpack("=" + fmt, data)`: the length must be exactly `calcsize`. */
  function StructUnpack(fmt: string, data: seq<byte>): (r: Result<seq<int>, PyError>)
    requires IntFormat(fmt)
    ensures r.Ok? <==> |data| == CalcSize(fmt)
    ensures r.Ok? ==> |r.value| == |fmt|
  {
    if |data| != CalcSize(fmt) then Err(StructError)
    else if |fmt| == 0 then Ok([])
    else Prepend([DecodeCode(fmt[0], data[..CodeSize(fmt[0])])], StructUnpack(fmt[1..], data[CodeSize(fmt[0])..]))
  }

  /** Python's `data[lo:hi]` for `0 <= lo <= hi`: the elements at `lo` up to `hi`, as far as `data` reaches. */
  function PySlice(data: seq<byte>, lo: nat, hi: nat): (r: seq<byte>)
    requires lo <= hi
    ensures |r| <= hi - lo
    decreases hi - lo
  {
    if lo < hi && lo < |data| then [data[lo]] + PySlice(data, lo + 1, hi) else []
  }

  /** Python's slice is Dafny's once both ends are clamped to the length. */
  lemma {:induction false} PySliceClamped(data: seq<byte>, lo: nat, hi: nat)
    requires lo <= hi
    ensures var a := if lo < |data| then lo else |data|;
      var b := if hi < |data| then hi else |data|;
      PySlice(data, lo, hi) == data[a..b]
    decreases hi - lo
  {
    if lo < hi && lo < |data| {
      PySliceClamped(data, lo + 1, hi);
    }
  }

  // ----- The tables -----

  /** The types `struct` packs with one integer code. */
  predicate IsIntType(t: DataType)
  {
    !IsFloat(t) && t != Empty && t != UInt24
  }

  /** The one code of an integer type; its size is the type's width. */
  function IntCode(t: DataType): (c: char)
    requires IsIntType(t)
    ensures Code(t) == [c] && IsIntCode(c) && CodeSize(c) == Width(t)
    ensures IsSignedCode(c) <==> t == Int8 || t == Int16 || t == Int32 || t == Int64
  {
    Code(t)[0]
  }

  /** A type's code is a format of integer codes: one code for an integer type, none otherwise. */
  lemma CodeFormat(t: FieldType)
    ensures IntFormat(Code(t))
    ensures |Code(t)| == if IsIntType(t) then 1 else 0
  {
  }

  /** Whether `pack_data` accepts a value for a type. */
  predicate Fits(t: FieldType, v: int)
  {
    if t == UInt24 then 0 <= v < 0x100_0000
    else t != Empty && CodeFits(IntCode(t), v)
  }

  lemma StructPackOne(c: char, v: int)
    requires IsIntCode(c)
    ensures StructPack([c], [v]) == PackCode(c, v)
  {
    assert [c][1..] == [] && [v][1..] == [];
    if PackCode(c, v).Ok? {
      assert PackCode(c, v).value + [] == PackCode(c, v).value;
    }
  }

  // ----- pack_data -----

  /** One field of `pack_data`: `to_bytes` for UInt24, `struct.pack` otherwise. */
  function PackField(t: FieldType, v: int): (r: Result<seq<byte>, PyError>)
    ensures r.Ok? <==> Fits(t, v)
    ensures r.Ok? ==> |r.value| == Width(t)
    ensures r.Err? ==> r.error == if t == UInt24 then OverflowError else StructError
  {
    if t == UInt24 then
      if 0 <= v < 0x100_0000 then
        assert Pow256(3) == 0x100_0000 by { assert Pow256(1) == 0x100; }
        Ok(ToLe(v, 3))
      else Err(OverflowError)
    else if t == Empty then
      StructPack(Code(t), [v])
    else
      StructPackOne(IntCode(t), v);
      StructPack(Code(t), [v])
  }

  /** The length of the `zip` of the two lists: the shorter one's. */
  function ZipLength(types: seq<FieldType>, values: seq<int>): (n: nat)
    ensures n <= |types| && n <= |values| && (n == |types| || n == |values|)
  {
    if |types| < |values| then |types| else |values|
  }

  /** `pack_data` from pair `i` of the `zip` on: each field in turn, stopping at the first exception. */
  function PackFrom(types: seq<FieldType>, values: seq<int>, i: nat): Result<seq<byte>, PyError>
    decreases |types| - i
  {
    if i >= |types| || i >= |values| then Ok([])
    else
      match PackField(types[i], values[i])
      case Err(e) => Err(e)
      case Ok(b) => Prepend(b, PackFrom(types, values, i + 1))
  }

  method PackData(types: seq<FieldType>, values: seq<int>) returns (r: Result<seq<byte>, PyError>)
    ensures r == PackFrom(types, values, 0)
  {
    var packed: seq<byte> := [];
    var i := 0;
    ghost var whole := PackFrom(types, values, 0);
    PrependLaws(packed, [], whole);
    while i < |types| && i < |values|
      invariant whole == Prepend(packed, PackFrom(types, values, i))
      decreases |types| - i
    {
      var field := PackField(types[i], values[i]);
      if field.Err? {
        return Err(field.error);
      }
      PrependLaws(packed, field.value, PackFrom(types, values, i + 1));
      packed := packed + field.value;
      i := i + 1;
    }
    PrependLaws(packed, [], Ok([]));
    return Ok(packed);
  }

  /** The total width of `types[i..j]`. */
  function Widths(types: seq<FieldType>, i: nat, j: nat): nat
    requires i <= j <= |types|
    decreases j - i
  {
    if i == j then 0 else Width(types[i]) + Widths(types, i + 1, j)
  }

  lemma {:induction false} WidthsSnoc(types: seq<FieldType>, i: nat, j: nat)
    requires i <= j < |types|
    ensures Widths(types, i, j + 1) == Widths(types, i, j) + Width(types[j])
    decreases j - i
  {
    if i < j {
      WidthsSnoc(types, i + 1, j);
    }
  }

  /** One pair of the `zip`: its field's exception, or its bytes in front of the rest. */
  lemma PackStep(types: seq<FieldType>, values: seq<int>, i: nat)
    requires i < ZipLength(types, values)
    ensures Widths(types, i, ZipLength(types, values)) == Width(types[i]) + Widths(types, i + 1, ZipLength(types, values))
    ensures !Fits(types[i], values[i]) ==> PackFrom(types, values, i).Err?
    ensures Fits(types[i], values[i]) ==> PackFrom(types, values, i) == Prepend(PackField(types[i], values[i]).value, PackFrom(types, values, i + 1))
    ensures PackFrom(types, values, i).Ok? <==> Fits(types[i], values[i]) && PackFrom(types, values, i + 1).Ok?
  {
  }

  /** From pair `i` of the `zip` on, `pack_data` fails exactly when some value does not fit its type. */
  lemma {:induction false} PackSucceeds(types: seq<FieldType>, values: seq<int>, i: nat)
    requires i <= ZipLength(types, values)
    ensures PackFrom(types, values, i).Ok? <==>
      forall k :: i <= k < ZipLength(types, values) ==> Fits(types[k], values[k])
    decreases |types| - i
  {
    var n := ZipLength(types, values);
    if i < n {
      PackSucceeds(types, values, i + 1);
      PackStep(types, values, i);
      if Fits(types[i], values[i]) {
        assert (forall k :: i <= k < n ==> Fits(types[k], values[k]))
           <== (forall k :: i + 1 <= k < n ==> Fits(types[k], values[k]));
      }
    }
  }

  /** What `pack_data` emits from pair `i` on is as long as the widths of the remaining paired types. */
  lemma {:induction false} PackLength(types: seq<FieldType>, values: seq<int>, i: nat)
    requires i <= ZipLength(types, values) && PackFrom(types, values, i).Ok?
    ensures |PackFrom(types, values, i).value| == Widths(types, i, ZipLength(types, values))
    decreases |types| - i
  {
    if i < ZipLength(types, values) {
      PackStep(types, values, i);
      PackLength(types, values, i + 1);
    }
  }

  // ----- unpack_data -----

  /** A value read back from a full-width field. */
  function Decode(t: DataType, bs: seq<byte>): int
    requires (t == UInt24 || IsIntType(t)) && |bs| == Width(t)
  {
    if t == UInt24 then FromLe(bs) else DecodeCode(IntCode(t), bs)
  }

  /** `struct.unpack(fmt, chunk)[0]` */
  function StructField(fmt: string, chunk: seq<byte>): (r: Result<int, PyError>)
    requires IntFormat(fmt)
    ensures fmt == "" ==> r == if chunk == [] then Err(IndexError) else Err(StructError)
    ensures |fmt| == 1 ==>
      r == if |chunk| == CodeSize(fmt[0]) then Ok(DecodeCode(fmt[0], chunk)) else Err(StructError)
  {
    assert |fmt| == 1 ==> CalcSize(fmt) == CodeSize(fmt[0]) by {
      if |fmt| == 1 { assert fmt[1..] == ""; }
    }
    match StructUnpack(fmt, chunk)
    case Err(e) => Err(e)
    case Ok(vs) =>
      if |vs| == 0 then Err(IndexError)
      else
        assert |fmt| == 1 ==> chunk[..CodeSize(fmt[0])] == chunk;
        Ok(vs[0])
  }

  /** One field of `unpack_data` at `offset`. */
  function UnpackField(t: FieldType, data: seq<byte>, offset: nat): Result<int, PyError>
  {
    if t == UInt24 then Ok(FromLe(PySlice(data, offset, offset + 3)))
    else if t == Empty then StructField(Code(t), PySlice(data, offset, offset))
    else StructField(Code(t), PySlice(data, offset, offset + Width(t)))
  }

  /**
   * `Empty` raises `IndexError`; UInt24 never fails and reads up to three
   * bytes; an integer type fails exactly when the slice is short; a field
   * read in full is its bytes decoded.
   */
  lemma UnpackFieldCases(t: FieldType, data: seq<byte>, offset: nat)
    ensures var r := UnpackField(t, data, offset);
      && (t == Empty ==> r == Err(IndexError))
      && (t == UInt24 ==> r == Ok(FromLe(PySlice(data, offset, offset + 3))))
      && (IsIntType(t) ==> (r.Ok? <==> offset + Width(t) <= |data|))
      && (t != Empty && offset + Width(t) <= |data| ==> r == Ok(Decode(t, data[offset..offset + Width(t)])))
  {
    if IsIntType(t) {
      UnpackIntField(t, data, offset);
    } else if t == UInt24 && offset + 3 <= |data| {
      PySliceClamped(data, offset, offset + 3);
    }
  }

  /** An integer field: `struct.unpack` of the slice, which fails exactly when the slice is short. */
  lemma UnpackIntField(t: FieldType, data: seq<byte>, offset: nat)
    requires IsIntType(t)
    ensures UnpackField(t, data, offset).Ok? <==> offset + Width(t) <= |data|
    ensures offset + Width(t) <= |data| ==> UnpackField(t, data, offset) == Ok(Decode(t, data[offset..offset + Width(t)]))
  {
    var w, c := Width(t), IntCode(t);
    var chunk := PySlice(data, offset, offset + w);
    PySliceClamped(data, offset, offset + w);
    assert UnpackField(t, data, offset) == StructField([c], chunk);
  }

  /** A field's exception, or its value in front of the values after it. */
  function Then(field: Result<int, PyError>, rest: Result<seq<int>, PyError>): Result<seq<int>, PyError>
  {
    match field
    case Err(e) => Err(e)
    case Ok(v) => Prepend([v], rest)
  }

  /**
   * `unpack_data` from type `i` on, reading at `offset`: every type in turn,
   * stopping at the first exception.
   */
  function UnpackFrom(types: seq<FieldType>, i: nat, data: seq<byte>, offset: nat): Result<seq<int>, PyError>
    requires i <= |types|
    decreases |types| - i
  {
    if i == |types| then Ok([])
    else Then(UnpackField(types[i], data, offset), UnpackFrom(types, i + 1, data, offset + Width(types[i])))
  }

  /** One more type read: its field's exception, or its value appended to those read so far. */
  lemma UnpackStep(types: seq<FieldType>, i: nat, data: seq<byte>, offset: nat, values: seq<int>)
    requires i < |types|
    ensures var v := UnpackField(types[i], data, offset);
      && (v.Err? ==> Prepend(values, UnpackFrom(types, i, data, offset)) == Err(v.error))
      && (v.Ok? ==>
            Prepend(values, UnpackFrom(types, i, data, offset))
            == Prepend(values + [v.value], UnpackFrom(types, i + 1, data, offset + Width(types[i]))))
  {
    var v := UnpackField(types[i], data, offset);
    if v.Ok? {
      PrependLaws(values, [v.value], UnpackFrom(types, i + 1, data, offset + Width(types[i])));
    }
  }

  lemma UnpackEnd(types: seq<FieldType>, data: seq<byte>, offset: nat, values: seq<int>)
    ensures Prepend(values, UnpackFrom(types, |types|, data, offset)) == Ok(values)
  {
    PrependLaws(values, [], Ok([]));
  }

  method UnpackData(types: seq<FieldType>, data: seq<byte>) returns (r: Result<seq<int>, PyError>)
    ensures r == UnpackFrom(types, 0, data, 0)
  {
    var values: seq<int> := [];
    var offset: nat := 0;
    var i := 0;
    ghost var whole := UnpackFrom(types, 0, data, 0);
    PrependLaws(values, [], whole);
    while i < |types|
      invariant i <= |types|
      invariant whole == Prepend(values, UnpackFrom(types, i, data, offset))
    {
      var t := types[i];
      var v := UnpackField(t, data, offset);
      UnpackStep(types, i, data, offset, values);
      if v.Err? {
        return Err(v.error);
      }
      values := values + [v.value];
      offset := offset + Width(t);
      i := i + 1;
    }
    UnpackEnd(types, data, offset, values);
    return Ok(values);
  }

  predicate NoEmpty(types: seq<FieldType>)
  {
    forall i :: 0 <= i < |types| ==> types[i] != Empty
  }

  /** `v` is field `j` read in full at offset `o`. */
  predicate FieldAt(types: seq<FieldType>, data: seq<byte>, j: nat, o: nat, v: int)
    requires j < |types|
  {
    var t := types[j];
    && (t == UInt24 || IsIntType(t))
    && o + Width(t) <= |data|
    && v == Decode(t, data[o..o + Width(t)])
  }

  /** `vs` are the fields from type `i` on, each read in full after the widths of the fields before it. */
  predicate FieldsFrom(types: seq<FieldType>, data: seq<byte>, i: nat, offset: nat, vs: seq<int>)
    requires i <= |types|
  {
    && |vs| == |types| - i
    && forall k :: 0 <= k < |vs| ==> FieldAt(types, data, i + k, offset + Widths(types, i, i + k), vs[k])
  }

  /**
   * When the data covers every field from type `i` on, unpacking succeeds
   * and value `k` is field `i + k` decoded after the widths of the fields
   * before it.
   */
  lemma {:induction false} UnpackFields(types: seq<FieldType>, i: nat, data: seq<byte>, offset: nat)
    requires i <= |types| && NoEmpty(types)
    requires offset + Widths(types, i, |types|) <= |data|
    ensures UnpackFrom(types, i, data, offset).Ok?
    ensures FieldsFrom(types, data, i, offset, UnpackFrom(types, i, data, offset).value)
    decreases |types| - i
  {
    if i < |types| {
      var t := types[i];
      var next := offset + Width(t);
      assert Widths(types, i, |types|) == Width(t) + Widths(types, i + 1, |types|);
      UnpackFields(types, i + 1, data, next);
      var rest := UnpackFrom(types, i + 1, data, next).value;
      var v := Decode(t, data[offset..next]);
      UnpackHead(types, i, data, offset, rest);
      FieldsCons(types, i, data, offset, v, rest);
    }
  }

  /** The field at `offset` read in full, in front of the rest. */
  lemma UnpackHead(types: seq<FieldType>, i: nat, data: seq<byte>, offset: nat, rest: seq<int>)
    requires i < |types| && types[i] != Empty
    requires offset + Width(types[i]) <= |data|
    requires UnpackFrom(types, i + 1, data, offset + Width(types[i])) == Ok(rest)
    ensures var t := types[i];
      var v := Decode(t, data[offset..offset + Width(t)]);
      UnpackFrom(types, i, data, offset) == Ok([v] + rest) && FieldAt(types, data, i, offset, v)
  {
    UnpackFieldCases(types[i], data, offset);
  }

  /** Field `i` in front of the fields after it. */
  lemma FieldsCons(types: seq<FieldType>, i: nat, data: seq<byte>, offset: nat, v: int, rest: seq<int>)
    requires i < |types|
    requires FieldAt(types, data, i, offset, v)
    requires FieldsFrom(types, data, i + 1, offset + Width(types[i]), rest)
    ensures FieldsFrom(types, data, i, offset, [v] + rest)
  {
    forall k | 0 <= k < |rest| + 1
      ensures FieldAt(types, data, i + k, offset + Widths(types, i, i + k), ([v] + rest)[k])
    {
      if k > 0 {
        assert FieldAt(types, data, i + 1 + (k - 1), offset + Width(types[i]) + Widths(types, i + 1, i + 1 + (k - 1)), rest[k - 1]);
      }
    }
  }

  /** Two reads that agree on field `i` and on the fields after it agree. */
  lemma UnpackSame(types: seq<FieldType>, i: nat, d1: seq<byte>, o1: nat, d2: seq<byte>, o2: nat, n1: nat, n2: nat)
    requires i < |types|
    requires n1 == o1 + Width(types[i]) && n2 == o2 + Width(types[i])
    requires UnpackField(types[i], d1, o1) == UnpackField(types[i], d2, o2)
    requires UnpackFrom(types, i + 1, d1, n1) == UnpackFrom(types, i + 1, d2, n2)
    ensures UnpackFrom(types, i, d1, o1) == UnpackFrom(types, i, d2, o2)
  {
  }

  /** A Python slice that lies inside `data` does not see bytes appended after it. */
  lemma PySliceTrailing(data: seq<byte>, extra: seq<byte>, lo: nat, hi: nat)
    requires lo <= hi <= |data|
    ensures PySlice(data + extra, lo, hi) == PySlice(data, lo, hi)
  {
    PySliceClamped(data, lo, hi);
    PySliceClamped(data + extra, lo, hi);
  }

  /** One field read in full, with bytes after its end. */
  lemma UnpackFieldTrailing(t: FieldType, data: seq<byte>, extra: seq<byte>, offset: nat)
    requires offset + Width(t) <= |data|
    ensures UnpackField(t, data + extra, offset) == UnpackField(t, data, offset)
  {
    PySliceTrailing(data, extra, offset, offset + Width(t));
  }

  /** Trailing bytes beyond the fields are ignored. */
  lemma {:induction false} UnpackIgnoresTrailing(types: seq<FieldType>, i: nat, data: seq<byte>, extra: seq<byte>, offset: nat)
    requires i <= |types| && offset + Widths(types, i, |types|) <= |data|
    ensures UnpackFrom(types, i, data + extra, offset) == UnpackFrom(types, i, data, offset)
    decreases |types| - i
  {
    if i < |types| {
      var next := offset + Width(types[i]);
      UnpackFieldTrailing(types[i], data, extra, offset);
      UnpackIgnoresTrailing(types, i + 1, data, extra, next);
      UnpackSame(types, i, data + extra, offset, data, offset, next, next);
    }
  }

  /** A UInt24 field cut short by the end of the data is read from the bytes there are, without an error. */
  lemma ShortUInt24(data: seq<byte>, offset: nat)
    requires |data| < offset + 3
    ensures UnpackFrom([UInt24], 0, data, offset) == Ok([FromLe(if offset < |data| then data[offset..] else [])])
  {
    var raw := PySlice(data, offset, offset + 3);
    PySliceClamped(data, offset, offset + 3);
    assert raw == if offset < |data| then data[offset..] else [];
    assert UnpackField(UInt24, data, offset) == Ok(FromLe(raw));
    assert UnpackFrom([UInt24], 1, data, offset + 3) == Ok([]);
    assert [FromLe(raw)] + [] == [FromLe(raw)];
  }

  /** Reaching an `Empty` type raises `IndexError`, whatever the data. */
  lemma EmptyRaises(types: seq<FieldType>, i: nat, data: seq<byte>, offset: nat)
    requires i < |types| && types[i] == Empty
    ensures UnpackFrom(types, i, data, offset) == Err(IndexError)
  {
  }

  /** A packed field reads back as its value. */
  lemma FieldRoundTrip(t: FieldType, v: int)
    requires Fits(t, v)
    ensures t != Empty && Decode(t, PackField(t, v).value) == v
  {
    if t == UInt24 {
      assert Pow256(3) == 0x100_0000 by { assert Pow256(1) == 0x100; }
    } else {
      StructPackOne(IntCode(t), v);
      CodeRoundTrip(IntCode(t), v);
    }
  }

  /** One packed field between any bytes reads back as its value. */
  lemma FieldReadBack(t: FieldType, v: int, prefix: seq<byte>, suffix: seq<byte>)
    requires Fits(t, v)
    ensures UnpackField(t, prefix + PackField(t, v).value + suffix, |prefix|) == Ok(v)
  {
    var b := PackField(t, v).value;
    var data := prefix + b + suffix;
    assert data[|prefix|..|prefix| + Width(t)] == b;
    FieldRoundTrip(t, v);
    UnpackFieldCases(t, data, |prefix|);
  }

  /** Unpacking what was packed, whatever comes before and after it, gives the values back. */
  lemma RoundTrip(types: seq<FieldType>, values: seq<int>, prefix: seq<byte>, extra: seq<byte>)
    requires |types| == |values|
    requires forall k :: 0 <= k < |types| ==> Fits(types[k], values[k])
    ensures PackFrom(types, values, 0).Ok?
    ensures UnpackFrom(types, 0, prefix + PackFrom(types, values, 0).value + extra, |prefix|) == Ok(values)
  {
    RoundTripFrom(types, values, 0, prefix, extra);
    assert values[0..] == values;
  }

  lemma {:induction false} RoundTripFrom(types: seq<FieldType>, values: seq<int>, i: nat, prefix: seq<byte>, extra: seq<byte>)
    requires i <= |types| == |values|
    requires forall k :: i <= k < |types| ==> Fits(types[k], values[k])
    ensures PackFrom(types, values, i).Ok?
    ensures UnpackFrom(types, i, prefix + PackFrom(types, values, i).value + extra, |prefix|) == Ok(values[i..])
    decreases |types| - i
  {
    if i < |types| {
      var b := PackField(types[i], values[i]).value;
      RoundTripFrom(types, values, i + 1, prefix + b, extra);
      var rest := PackFrom(types, values, i + 1).value;
      assert PackFrom(types, values, i) == Ok(b + rest);
      RoundTripStep(types, values, i, prefix, extra, b, rest);
    } else {
      assert values[i..] == [];
    }
  }

  lemma Regroup(p: seq<byte>, b: seq<byte>, r: seq<byte>, e: seq<byte>)
    ensures p + (b + r) + e == p + b + (r + e) == (p + b) + r + e
  {
  }

  lemma RoundTripStep(types: seq<FieldType>, values: seq<int>, i: nat, prefix: seq<byte>, extra: seq<byte>,
                      b: seq<byte>, rest: seq<byte>)
    requires i < |types| == |values| && Fits(types[i], values[i])
    requires PackField(types[i], values[i]) == Ok(b)
    requires UnpackFrom(types, i + 1, (prefix + b) + rest + extra, |prefix + b|) == Ok(values[i + 1..])
    ensures UnpackFrom(types, i, prefix + (b + rest) + extra, |prefix|) == Ok(values[i..])
  {
    var t, v := types[i], values[i];
    Regroup(prefix, b, rest, extra);
    FieldReadBack(t, v, prefix, rest + extra);
    assert |prefix + b| == |prefix| + Width(t);
    SuffixCons(values, i);
  }

  /** A suffix is its first element in front of the next suffix. */
  lemma SuffixCons<T>(s: seq<T>, i: nat)
    requires i < |s|
    ensures s[i..] == [s[i]] + s[i + 1..] && s[i..][1..] == s[i + 1..]
  {
  }

  /** The first `w` elements of a suffix, and what follows them. */
  lemma SuffixSlices<T>(s: seq<T>, offset: nat, w: nat)
    requires offset + w <= |s|
    ensures s[offset..][..w] == s[offset..offset + w] && s[offset..][w..] == s[offset + w..]
  {
  }

  // ----- old_pack_data / old_unpack_data -----

  /** The format the older helpers build from type `i` on: the codes concatenated, UInt24 and Empty adding none. */
  function OldFormat(types: seq<FieldType>, i: nat): (fmt: string)
    requires i <= |types|
    ensures IntFormat(fmt)
    decreases |types| - i
  {
    if i == |types| then ""
    else (CodeFormat(types[i]); Code(types[i]) + OldFormat(types, i + 1))
  }

  /** The `for type in types: fmt += data_strings[type.value]` loop. */
  method BuildFormat(types: seq<FieldType>) returns (fmt: string)
    ensures fmt == OldFormat(types, 0)
  {
    fmt := "";
    var i := 0;
    ghost var whole := OldFormat(types, 0);
    while i < |types|
      invariant i <= |types|
      invariant fmt + OldFormat(types, i) == whole
    {
      assert fmt + (Code(types[i]) + OldFormat(types, i + 1)) == fmt + Code(types[i]) + OldFormat(types, i + 1);
      fmt := fmt + Code(types[i]);
      i := i + 1;
    }
    assert fmt + "" == fmt;
  }

  method OldPackData(types: seq<FieldType>, values: seq<int>) returns (r: Result<seq<byte>, PyError>)
    ensures r == StructPack(OldFormat(types, 0), values)
  {
    var fmt := BuildFormat(types);
    r := StructPack(fmt, values);
  }

  method OldUnpackData(types: seq<FieldType>, data: seq<byte>) returns (r: Result<seq<int>, PyError>)
    ensures r == StructUnpack(OldFormat(types, 0), data)
  {
    var fmt := BuildFormat(types);
    r := StructUnpack(fmt, data);
  }

  /** Types that `struct` packs with one code each. */
  predicate Plain(types: seq<FieldType>)
  {
    forall k :: 0 <= k < |types| ==> types[k] != Empty && types[k] != UInt24
  }

  /** The older format of plain types: the first type's code, then the rest's format. */
  lemma OldFormatCons(types: seq<FieldType>, i: nat)
    requires Plain(types) && i < |types|
    ensures OldFormat(types, i) == [IntCode(types[i])] + OldFormat(types, i + 1)
  {
  }

  lemma CalcSizeCons(c: char, fmt: string)
    requires IsIntCode(c) && IntFormat(fmt)
    ensures IntFormat([c] + fmt) && CalcSize([c] + fmt) == CodeSize(c) + CalcSize(fmt)
  {
    assert ([c] + fmt)[0] == c && ([c] + fmt)[1..] == fmt;
  }

  /** The older format has one code per plain type, and its size is the sum of the widths. */
  lemma {:induction false} OldFormatSize(types: seq<FieldType>, i: nat)
    requires Plain(types) && i <= |types|
    ensures |OldFormat(types, i)| == |types| - i && CalcSize(OldFormat(types, i)) == Widths(types, i, |types|)
    decreases |types| - i
  {
    if i < |types| {
      OldFormatSize(types, i + 1);
      OldFormatCons(types, i);
      CalcSizeCons(IntCode(types[i]), OldFormat(types, i + 1));
    }
  }

  /** `old_unpack_data` accepts exactly one length: the sum of the widths. */
  lemma OldUnpackNeedsExactLength(types: seq<FieldType>, data: seq<byte>)
    requires Plain(types)
    ensures StructUnpack(OldFormat(types, 0), data).Ok? <==> |data| == Widths(types, 0, |types|)
  {
    OldFormatSize(types, 0);
  }

  /** `struct.unpack` reads the first code's bytes, then the rest of the format from there. */
  lemma StructUnpackCons(c: char, fmt: string, data: seq<byte>)
    requires IsIntCode(c) && IntFormat(fmt) && |data| == CodeSize(c) + CalcSize(fmt)
    ensures IntFormat([c] + fmt)
    ensures StructUnpack([c] + fmt, data)
         == Prepend([DecodeCode(c, data[..CodeSize(c)])], StructUnpack(fmt, data[CodeSize(c)..]))
  {
    CalcSizeCons(c, fmt);
  }

  /** On plain types and data of exactly the right length the older and newer unpacking agree. */
  lemma OldUnpackAgrees(types: seq<FieldType>, data: seq<byte>)
    requires Plain(types) && |data| == Widths(types, 0, |types|)
    ensures StructUnpack(OldFormat(types, 0), data) == UnpackFrom(types, 0, data, 0)
  {
    OldUnpackDecodes(types, 0, data, 0);
    UnpackDecodes(types, 0, data, 0);
    assert data[0..] == data;
  }

  /** The plain fields from type `i` on, each decoded from its bytes at its offset. */
  function Decoded(types: seq<FieldType>, i: nat, data: seq<byte>, offset: nat): (vs: seq<int>)
    requires Plain(types) && i <= |types| && offset + Widths(types, i, |types|) <= |data|
    ensures |vs| == |types| - i
    decreases |types| - i
  {
    if i == |types| then []
    else
      var w := Width(types[i]);
      [Decode(types[i], data[offset..offset + w])] + Decoded(types, i + 1, data, offset + w)
  }

  /** The older unpacking yields the decoded fields. */
  lemma {:induction false} OldUnpackDecodes(types: seq<FieldType>, i: nat, data: seq<byte>, offset: nat)
    requires Plain(types) && i <= |types| && offset + Widths(types, i, |types|) == |data|
    ensures StructUnpack(OldFormat(types, i), data[offset..]) == Ok(Decoded(types, i, data, offset))
    decreases |types| - i
  {
    if i < |types| {
      var w := Width(types[i]);
      OldUnpackDecodes(types, i + 1, data, offset + w);
      OldUnpackHead(types, i, data, offset, Decoded(types, i + 1, data, offset + w));
    } else {
      assert data[offset..] == [];
    }
  }

  /** The newer unpacking yields the decoded fields. */
  lemma {:induction false} UnpackDecodes(types: seq<FieldType>, i: nat, data: seq<byte>, offset: nat)
    requires Plain(types) && i <= |types| && offset + Widths(types, i, |types|) <= |data|
    ensures UnpackFrom(types, i, data, offset) == Ok(Decoded(types, i, data, offset))
    decreases |types| - i
  {
    if i < |types| {
      var w := Width(types[i]);
      UnpackDecodes(types, i + 1, data, offset + w);
      UnpackHead(types, i, data, offset, Decoded(types, i + 1, data, offset + w));
    }
  }

  /** The older unpacking decodes the first plain type's bytes, then the rest of the data. */
  lemma OldUnpackHead(types: seq<FieldType>, i: nat, data: seq<byte>, offset: nat, rest: seq<int>)
    requires Plain(types) && i < |types| && offset + Widths(types, i, |types|) == |data|
    requires StructUnpack(OldFormat(types, i + 1), data[offset + Width(types[i])..]) == Ok(rest)
    ensures var w := Width(types[i]);
      StructUnpack(OldFormat(types, i), data[offset..]) == Ok([Decode(types[i], data[offset..offset + w])] + rest)
  {
    var t, w := types[i], Width(types[i]);
    OldFormatCons(types, i);
    OldFormatSize(types, i + 1);
    StructUnpackCons(IntCode(t), OldFormat(types, i + 1), data[offset..]);
    SuffixSlices(data, offset, w);
  }

  /** `struct.pack` packs the first value under the first code, then the rest. */
  lemma StructPackCons(c: char, fmt: string, values: seq<int>)
    requires IsIntCode(c) && IntFormat(fmt) && |values| == |fmt| + 1
    ensures IntFormat([c] + fmt)
    ensures StructPack([c] + fmt, values) == match PackCode(c, values[0])
      case Err(e) => Err(e)
      case Ok(b) => Prepend(b, StructPack(fmt, values[1..]))
  {
    CalcSizeCons(c, fmt);
  }

  /** On plain types with as many values as types the older and newer packing agree. */
  lemma OldPackAgrees(types: seq<FieldType>, values: seq<int>)
    requires Plain(types) && |values| == |types|
    ensures StructPack(OldFormat(types, 0), values) == PackFrom(types, values, 0)
  {
    OldPackAgreesFrom(types, values, 0);
    assert values[0..] == values;
  }

  lemma {:induction false} OldPackAgreesFrom(types: seq<FieldType>, values: seq<int>, i: nat)
    requires Plain(types) && |values| == |types| && i <= |types|
    ensures StructPack(OldFormat(types, i), values[i..]) == PackFrom(types, values, i)
    decreases |types| - i
  {
    if i < |types| {
      var c := IntCode(types[i]);
      OldFormatCons(types, i);
      OldFormatSize(types, i + 1);
      StructPackCons(c, OldFormat(types, i + 1), values[i..]);
      SuffixCons(values, i);
      OldPackAgreesFrom(types, values, i + 1);
      StructPackOne(c, values[i]);
    }
  }

  /** With a count of values other than the number of plain types, `old_pack_data` raises `struct.error`. */
  lemma OldPackCountMismatch(types: seq<FieldType>, values: seq<int>)
    requires Plain(types) && |values| != |types|
    ensures StructPack(OldFormat(types, 0), values) == Err(StructError)
  {
    OldFormatSize(types, 0);
  }

  // ----- Port selection in SerialManager.__init__ -----

  /** A port as `comports()` lists it. */
  datatype PortInfo = PortInfo(device: string, description: string)

  /** `is_device`: by description (equal, or prefix when `startswith`) when `is_desc`, by device name otherwise. */
  predicate IsDevice(port: PortInfo, device: string, isDesc: bool, startswith: bool)
  {
    if isDesc then (if startswith then device <= port.description else port.description == device)
    else port.device == device
  }

  function Matcher(device: string, isDesc: bool, startswith: bool): PortInfo -> bool
  {
    p => IsDevice(p, device, isDesc, startswith)
  }

  /** The `if is_desc` block that sets `is_device`. */
  method CheckPort(port: PortInfo, device: string, isDesc: bool, startswith: bool) returns (isDevice: bool)
    ensures isDevice == IsDevice(port, device, isDesc, startswith)
  {
    if isDesc {
      isDevice := port.description == device;
      if startswith {
        isDevice := device <= port.description;
      }
    } else {
      isDevice := port.device == device;
    }
  }

  /** `DeviceNotFound(f"{device} not found")` */
  datatype DeviceNotFound = DeviceNotFound(message: string)

  /**
   * The loop of `SerialManager.__init__`: the `device_number`-th match is
   * chosen; with `print_devices` the scan goes on to the end without
   * changing it. A negative number, too few matches or a chosen name that is
   * the empty string (falsy) raise `DeviceNotFound`.
   */
  method SelectDevice(ports: seq<PortInfo>, device: string, deviceNumber: int, isDesc: bool, startswith: bool,
                      printDevices: bool) returns (r: Result<string, DeviceNotFound>)
    ensures var m := Matching(ports, Matcher(device, isDesc, startswith));
      && (0 <= deviceNumber < |m| && m[deviceNumber].device != "" ==> r == Ok(m[deviceNumber].device))
      && (!(0 <= deviceNumber < |m|) || m[deviceNumber].device == "" ==>
            r == Err(DeviceNotFound(device + " not found")))
  {
    ghost var isDev := Matcher(device, isDesc, startswith);
    ghost var m := Matching(ports, isDev);
    var selected: Option<string> := None;
    var number := deviceNumber;
    var i := 0;
    while i < |ports|
      invariant i <= |ports|
      invariant number + CountBefore(ports, isDev, i) == deviceNumber
      invariant selected.Some? <==> 0 <= deviceNumber < CountBefore(ports, isDev, i)
      invariant selected.Some? ==> 0 <= deviceNumber < |m| && selected.value == m[deviceNumber].device
    {
      var port := ports[i];
      var isDevice := CheckPort(port, device, isDesc, startswith);
      assert isDevice == isDev(port);
      CountStep(ports, isDev, i);
      if isDevice {
        if number == 0 {
          selected := Some(port.device);
          if !printDevices {
            break;
          }
        }
        number := number - 1;
      }
      i := i + 1;
    }
    if selected.None? {
      assert ports[..i] == ports;
      CountMatches(ports, isDev, i);
    }
    if selected.Some? && selected.value != "" {
      r := Ok(selected.value);
    } else {
      r := Err(DeviceNotFound(device + " not found"));
    }
  }
}
