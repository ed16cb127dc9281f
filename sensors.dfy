/**
 * The field list of the Python sensor reader, python/sensors.py: one
 * UInt16, six UInt24 and six Int16. `unpack_data` over that list reads a
 * 32-byte payload the same way the plotter's unpack loop does.
 */
module Sensors {
  import opened Bytes
  import opened Results
  import SM = SerialManager
  import Telemetry

  /** `types`: UInt16, then six UInt24, then six Int16. */
  const SensorTypes: seq<SM.FieldType> :=
    seq(13, j requires 0 <= j < 13 => if j == 0 then SM.UInt16 else if j < 7 then SM.UInt24 else SM.Int16)

  lemma SensorTypesPlain()
    ensures SM.NoEmpty(SensorTypes)
  {
  }

  /** Field `j` of the list starts where the plotter's value `j` starts and is as wide. */
  lemma {:induction false} SensorOffsets(j: nat)
    requires j <= 13
    ensures SM.Widths(SensorTypes, 0, j) == Telemetry.Offset(j)
    ensures j < 13 ==> SM.Width(SensorTypes[j]) == Telemetry.Width(j)
  {
    if j > 0 {
      SensorOffsets(j - 1);
      SM.WidthsSnoc(SensorTypes, 0, j - 1);
    }
  }

  /** Field `j` as `unpack_data` decodes it is value `j` of the plotter's loop. */
  lemma SameField(data: seq<byte>, j: nat)
    requires j < 13 && Telemetry.Offset(j) + Telemetry.Width(j) <= |data|
    ensures var o := Telemetry.Offset(j);
      SM.Decode(SensorTypes[j], data[o..o + Telemetry.Width(j)]) == Telemetry.Field(data, j)
  {
    SensorOffsets(j);
    var o := Telemetry.Offset(j);
    var bs := data[o..o + Telemetry.Width(j)];
    Telemetry.FieldBytes(data, j);
    if j == 0 || j >= 7 {
      assert bs == [bs[0], bs[1]];
      FromLeTwo(bs[0], bs[1]);
    } else {
      Telemetry.U24AtIsLittleEndian(data, o);
    }
  }

  /** Value `j` of the sensor list, read as `unpack_data` reads it, is the plotter's value `j`. */
  lemma SensorValue(data: seq<byte>, vs: seq<int>, j: nat)
    requires |data| >= 32 && j < 13
    requires SM.FieldsFrom(SensorTypes, data, 0, 0, vs)
    ensures vs[j] == Telemetry.Field(data, j)
  {
    assert SM.FieldAt(SensorTypes, data, 0 + j, 0 + SM.Widths(SensorTypes, 0, 0 + j), vs[j]);
    SensorOffsets(j);
    SameField(data, j);
  }

  /**
   * On a payload of 32 bytes or more `unpack_data` with the sensor list
   * succeeds with thirteen values, the plotter's first thirteen; trailing
   * bytes are ignored. On exactly 32 bytes both yield the same values.
   */
  lemma PythonMatchesPlotter(data: seq<byte>)
    requires |data| >= 32
    ensures SM.UnpackFrom(SensorTypes, 0, data, 0).Ok?
    ensures var vs := SM.UnpackFrom(SensorTypes, 0, data, 0).value;
      && |vs| == 13
      && forall j :: 0 <= j < 13 ==> vs[j] == Telemetry.Field(data, j)
    ensures |data| == 32 ==> Telemetry.UnpackFrom(data, 0, 0) == Some(SM.UnpackFrom(SensorTypes, 0, data, 0).value)
  {
    SensorTypesPlain();
    SensorOffsets(13);
    SM.UnpackFields(SensorTypes, 0, data, 0);
    var vs := SM.UnpackFrom(SensorTypes, 0, data, 0).value;
    forall j | 0 <= j < 13
      ensures vs[j] == Telemetry.Field(data, j)
    {
      SensorValue(data, vs, j);
    }
    if |data| == 32 {
      Telemetry.UnpackResult(data);
      Telemetry.PayloadLengths(data);
      var ws := Telemetry.UnpackFrom(data, 0, 0).value;
      assert ws == vs;
    }
  }
}
