/** The one class that clients create and use on the server. */
module CustomClasses {
  import opened Wire
  import opened DataSerializer
  import opened DataDeserializer

  // The text that printing `this` yields for an object.
  type Address = a: RawData | |a| <= 32 witness ""

  /** The state of a CustomClass object, with the address that tells objects apart when printed. */
  datatype Obj = Obj(self: Address, ival: int32, str: RawData)

  // The constructors: CustomClass(), CustomClass(int), CustomClass(int, std::string).
  datatype CtorArgs = NoArgs | OneArg(x: int32) | TwoArgs(x: int32, s: RawData)

  function Construct(self: Address, args: CtorArgs): Obj {
    match args
    case NoArgs => Obj(self, 0, "")
    case OneArg(x) => Obj(self, x, "")
    case TwoArgs(x, s) => Obj(self, x, s)
  }

  datatype Fields = Fields(ival: int32, str: RawData)

  function FieldBytes(ival: int32, str: RawData): (r: RawData)
    ensures |r| == |str| + 11
  {
    PutInt(ival) + PutString(str)
  }

  function Restore(data: RawData): Scan<Fields> {
    match ScanInt(data, 0)
    case Fault => Fault
    case Miss => Hit(Fields(0, ""), 0)
    case Hit(ival, j) =>
      match ScanString(data, j)
      case Fault => Fault
      case Miss => Hit(Fields(0, ""), j)
      case Hit(str, k) => Hit(Fields(ival, str), k)
  }

  /** Serialising and restoring keeps the fields, whatever bytes the string holds,
   *  exactly as long as its length fits an `int`. */
  lemma FieldsRoundTrip(ival: int32, str: RawData)
    ensures Restore(FieldBytes(ival, str)) == Hit(Fields(ival, str), |str| + 11) <==> |str| <= INT_MAX
  {
    hide PutInt, PutString, ScanInt, ScanString, At;
    var data := FieldBytes(ival, str);
    AtInside(data, 0, PutInt(ival), PutString(str));
    AtSlice(data, 0, data);
    ScanIntExact(data, 0, ival, 5);
    ScanStringExact(data, 5, str, |str| + 11);
  }

  // `data` starts with the fields of an object.
  ghost predicate HasFields(data: RawData) {
    exists f: Fields :: |f.str| <= INT_MAX && At(data, 0, FieldBytes(f.ival, f.str))
  }

  predicate HasInt(data: RawData) {
    exists x: int32 :: At(data, 0, PutInt(x))
  }

  /** What is restored from any text: the fields that it starts with, or those of a default object,
   *  also when only the second field is missing; and it faults exactly if one of its two reads does. */
  lemma RestoreExactly(data: RawData, f: Fields, n: nat)
    ensures Restore(data).Fault? <==> ScanInt(data, 0).Fault? || (HasInt(data) && ScanString(data, 5).Fault?)
    ensures Restore(data) == Hit(f, n)
       <==> || (|f.str| <= INT_MAX && At(data, 0, FieldBytes(f.ival, f.str)) && n == |f.str| + 11)
            || (!HasFields(data) && !Restore(data).Fault? && f == Fields(0, "") && n == if HasInt(data) then 5 else 0)
  {
    hide PutInt, PutString, ScanInt, ScanString, At;
    forall g: Fields
      ensures At(data, 0, FieldBytes(g.ival, g.str)) <==> At(data, 0, PutInt(g.ival)) && At(data, 5, PutString(g.str))
    {
      AtInside(data, 0, PutInt(g.ival), PutString(g.str));
    }
    forall x: int32 ensures At(data, 0, PutInt(x)) <==> ScanInt(data, 0) == Hit(x, 5) {
      ScanIntExact(data, 0, x, 5);
    }
    forall s: RawData
      ensures |s| <= INT_MAX && At(data, 5, PutString(s)) <==> ScanString(data, 5) == Hit(s, 11 + |s|)
    {
      ScanStringExact(data, 5, s, 11 + |s|);
    }
    if ScanInt(data, 0).Hit? {
      var x, j := ScanInt(data, 0).value, ScanInt(data, 0).next;
      ScanIntExact(data, 0, x, j);
      if ScanString(data, j).Hit? {
        var s := ScanString(data, j).value;
        ScanStringExact(data, j, s, ScanString(data, j).next);
        assert At(data, 0, FieldBytes(Fields(x, s).ival, Fields(x, s).str));
      }
    }
  }

  function Digits(n: nat): (r: RawData)
    ensures |r| > 0
  {
    if n < 10 then [('0' as int + n) as char] else Digits(n / 10) + [('0' as int + n % 10) as char]
  }

  function Decimal(x: int32): RawData {
    if x < 0 then "-" + Digits(-(x as int)) else Digits(x)
  }

  const THIS_LABEL: RawData := "CustomClass::this="
  const IVAL_LABEL: RawData := "CustomClass::ival_="
  const STR_LABEL: RawData := "CustomClass::str_="
  const NEWLINE: RawData := "\n"

  function PrintText(o: Obj): RawData {
    THIS_LABEL + o.self + NEWLINE + IVAL_LABEL + Decimal(o.ival) + NEWLINE + STR_LABEL + o.str
  }

  lemma PrintTextLength(o: Obj)
    ensures |PrintText(o)| <= |o.str| + 101
  {
    DigitsLength(if o.ival < 0 then -(o.ival as int) else o.ival, 10);
  }

  lemma {:induction false} DigitsLength(n: nat, k: nat)
    requires 1 <= k <= 10 && n < Power10(k)
    ensures |Digits(n)| <= k
    decreases k
  {
    if n >= 10 {
      DigitsLength(n / 10, k - 1);
    }
  }

  function Power10(k: nat): nat {
    if k == 0 then 1 else 10 * Power10(k - 1)
  }

  // Reading a decimal numeral.
  function ReadDigits(text: RawData): int {
    if text == [] then 0 else 10 * ReadDigits(text[..|text| - 1]) + (text[|text| - 1] as int - '0' as int)
  }

  function ReadDecimal(text: RawData): int {
    if text != [] && text[0] == '-' then -ReadDigits(text[1..]) else ReadDigits(text)
  }

  lemma {:induction false} DigitsAreDigits(n: nat)
    ensures ReadDigits(Digits(n)) == n
    ensures forall c :: c in Digits(n) ==> '0' <= c <= '9'
    ensures Digits(n)[0] == '0' ==> n == 0
  {
    if n >= 10 {
      DigitsAreDigits(n / 10);
      assert Digits(n)[..|Digits(n)| - 1] == Digits(n / 10);
    } else {
      assert Digits(n)[..0] == [];
    }
  }

  /** The printed integer reads back as itself, and has no leading zero. */
  lemma DecimalRoundTrip(x: int32)
    ensures ReadDecimal(Decimal(x)) == x
    ensures Decimal(x)[0] == '0' ==> x == 0
    ensures '\n' !in Decimal(x)
  {
    DigitsAreDigits(if x < 0 then -(x as int) else x);
    if x < 0 {
      assert Decimal(x)[1..] == Digits(-(x as int));
    } else {
      assert Decimal(x)[0] in Digits(x);
    }
  }

  lemma SameLine(a: RawData, s: RawData, b: RawData, t: RawData)
    requires '\n' !in a && '\n' !in b && a + NEWLINE + s == b + NEWLINE + t
    ensures a == b && s == t
  {
    var u, v := a + NEWLINE + s, b + NEWLINE + t;
    assert forall i :: 0 <= i < |a| ==> u[i] == a[i] && u[i] != '\n';
    assert forall i :: 0 <= i < |b| ==> v[i] == b[i] && v[i] != '\n';
    assert u[|a|] == '\n' && v[|b|] == '\n';
    assert a == u[..|a|] && b == v[..|b|];
    assert s == u[|a| + 1..] && t == v[|b| + 1..];
  }

  /** Objects at one address print the same text if and only if they have the same fields. */
  lemma PrintTextInjective(o: Obj, o': Obj)
    requires o.self == o'.self
    ensures PrintText(o) == PrintText(o') <==> o == o'
  {
    hide Decimal;
    var head := THIS_LABEL + o.self + NEWLINE + IVAL_LABEL;
    assert PrintText(o) == head + (Decimal(o.ival) + NEWLINE + (STR_LABEL + o.str));
    assert PrintText(o') == head + (Decimal(o'.ival) + NEWLINE + (STR_LABEL + o'.str));
    if PrintText(o) == PrintText(o') {
      assert PrintText(o)[|head|..] == Decimal(o.ival) + NEWLINE + (STR_LABEL + o.str);
      assert PrintText(o')[|head|..] == Decimal(o'.ival) + NEWLINE + (STR_LABEL + o'.str);
      DecimalRoundTrip(o.ival);
      DecimalRoundTrip(o'.ival);
      SameLine(Decimal(o.ival), STR_LABEL + o.str, Decimal(o'.ival), STR_LABEL + o'.str);
      assert o.str == (STR_LABEL + o.str)[|STR_LABEL|..] && o'.str == (STR_LABEL + o'.str)[|STR_LABEL|..];
    }
  }

  /** The layout of a printed object. */
  lemma PrintedObject()
    ensures PrintText(Obj("0x1f", -52, "ab"))
         == "CustomClass::this=" + "0x1f" + "\n" + "CustomClass::ival_=" + "-52" + "\n" + "CustomClass::str_=" + "ab"
  {
    assert Digits(5) == "5" && Digits(52) == "52";
    assert Decimal(-52) == "-" + "52" == "-52";
  }

  class CustomClass {
    const self: Address
    var ival: int32
    var str: RawData

    function View(): Obj
      reads this
    {
      Obj(self, ival, str)
    }

    constructor (self: Address, args: CtorArgs)
      ensures View() == Construct(self, args)
    {
      this.self := self;
      ival := if args.NoArgs? then 0 else args.x;
      str := if args.TwoArgs? then args.s else "";
    }

    method PrintToString() returns (text: RawData)
      ensures text == PrintText(View())
    {
      text := THIS_LABEL + self + NEWLINE;
      text := text + IVAL_LABEL + Decimal(ival) + NEWLINE;
      text := text + STR_LABEL + str;
    }

    method SetIntegerValue(value: int32) returns (changed: bool)
      modifies this`ival
      ensures ival == value
      ensures changed <==> View() != old(View())
    {
      if value == ival {
        return false;
      }
      ival := value;
      return true;
    }

    method SetStringValue(value: RawData) returns (changed: bool)
      modifies this`str
      ensures str == value
      ensures changed <==> View() != old(View())
    {
      if value == str {
        return false;
      }
      str := value;
      return true;
    }

    method Serialize() returns (text: RawData)
      ensures text == FieldBytes(ival, str)
    {
      var stream := new Stream();
      stream.SerializeInt(ival);
      stream.SerializeString(str);
      text := stream.contents;
    }

    static method Deserialize(serialized: RawData, self: Address) returns (restored: CustomClass)
      requires !Restore(serialized).Fault?
      ensures fresh(restored)
      ensures restored.self == self && Fields(restored.ival, restored.str) == Restore(serialized).value
    {
      var parsedInt, ival, idx := ParseInt(serialized, 0);
      if !parsedInt {
        restored := new CustomClass(self, NoArgs);
        return;
      }
      var parsedString, str, end := ParseString(serialized, idx);
      if !parsedString {
        restored := new CustomClass(self, NoArgs);
        return;
      }
      restored := new CustomClass(self, TwoArgs(ival, str));
    }
  }
}
