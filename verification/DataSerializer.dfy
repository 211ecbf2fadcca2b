/** The printer side: each value becomes a tag byte, followed by its payload. */
module DataSerializer {
  import opened Wire

  function PutInt(x: int32): (r: RawData)
    ensures |r| == 5
  {
    "i" + IntBytes(x)
  }

  function PutDouble(d: Double): (r: RawData)
    ensures |r| == 9
  {
    "d" + d
  }

  function PutBool(b: bool): (r: RawData)
    ensures |r| == 2
  {
    if b then "b1" else "b0"
  }

  // The length goes through `int`, so it is only faithful below 2^31.
  function PutString(s: RawData): (r: RawData)
    ensures |r| == |s| + 6
  {
    "s" + PutInt(Narrow(|s|)) + s
  }

  datatype Value = IntV(x: int32) | DoubleV(d: Double) | BoolV(b: bool) | TextV(s: RawData)

  function PutValue(v: Value): (r: RawData)
    ensures |r| > 0
  {
    match v
    case IntV(x) => PutInt(x)
    case DoubleV(d) => PutDouble(d)
    case BoolV(b) => PutBool(b)
    case TextV(s) => PutString(s)
  }

  function PutAll(vs: seq<Value>): RawData {
    if vs == [] then [] else PutValue(vs[0]) + PutAll(vs[1..])
  }

  /** The `std::ostream` that the serializers append to. */
  class Stream {
    var contents: RawData

    constructor ()
      ensures contents == []
    {
      contents := [];
    }

    method Append(text: RawData)
      modifies this
      ensures contents == old(contents) + text
    {
      contents := contents + text;
    }

    method SerializeBool(value: bool)
      modifies this
      ensures contents == old(contents) + PutBool(value)
    {
      Append("b");
      Append(if value then "1" else "0");
      assert contents == old(contents) + PutBool(value);
    }

    method SerializeInt(value: int32)
      modifies this
      ensures contents == old(contents) + PutInt(value)
    {
      var raw := IntBytes(value);
      Append("i");
      var i := 0;
      while i < 4
        invariant 0 <= i <= 4
        invariant contents == old(contents) + ("i" + raw[..i])
      {
        Append([raw[i]]);
        i := i + 1;
      }
    }

    method SerializeDouble(value: Double)
      modifies this
      ensures contents == old(contents) + PutDouble(value)
    {
      Append("d");
      var i := 0;
      while i < 8
        invariant 0 <= i <= 8
        invariant contents == old(contents) + ("d" + value[..i])
      {
        Append([value[i]]);
        i := i + 1;
      }
    }

    method SerializeString(value: RawData)
      modifies this
      ensures contents == old(contents) + PutString(value)
    {
      Append("s");
      SerializeInt(Narrow(|value|));
      var i := 0;
      while i < |value|
        invariant 0 <= i <= |value|
        invariant contents == old(contents) + ("s" + PutInt(Narrow(|value|)) + value[..i])
      {
        Append([value[i]]);
        i := i + 1;
      }
    }
  }
}
