/** What clients may ask for, and the bytes they send for it. */
module Requests {
  import opened Wire
  import opened DataSerializer
  import opened CustomClasses
  import opened Framing

  // typeid(CustomClass).name(), the same text on both sides.
  const CLASS_NAME: RawData := "class CustomClass"

  const PRINT_TO_COUT: RawData := "PrintToCout"
  const PRINT_TO_STRING: RawData := "PrintToString"
  const SET_INTEGER_VALUE: RawData := "SetIntegerValue"
  const SET_STRING_VALUE: RawData := "SetStringValue"

  /** The eleven demos, with arbitrary arguments in place of the demo constants. */
  datatype Command =
    | SendInt(x: int32)
    | SendDouble(d: Double)
    | SendText(s: RawData)
    | Create(args: CtorArgs)
    | PrintToCout(handle: int32)
    | PrintToString(handle: int32)
    | SetInteger(handle: int32, x: int32)
    | SetString(handle: int32, s: RawData)
    | Retrieve(handle: int32)

  // Commands on an existing object carry its handle.
  predicate HasHandle(cmd: Command) {
    cmd.PrintToCout? || cmd.PrintToString? || cmd.SetInteger? || cmd.SetString? || cmd.Retrieve?
  }

  // The flag `wait_for_response` each demo is built with.
  predicate Waits(cmd: Command) {
    cmd.Create? || cmd.PrintToString? || cmd.SetInteger? || cmd.SetString? || cmd.Retrieve?
  }

  // The text that a command carries, if any.
  function TextOf(cmd: Command): RawData {
    match cmd
    case SendText(s) => s
    case Create(TwoArgs(_, s)) => s
    case SetString(_, s) => s
    case _ => []
  }

  predicate Encodable(cmd: Command) {
    |TextOf(cmd)| <= INT_MAX
  }

  function ClassPart(): RawData {
    "#" + PutString(CLASS_NAME)
  }

  function PutArgs(args: CtorArgs): RawData {
    match args
    case NoArgs => []
    case OneArg(x) => PutInt(x)
    case TwoArgs(x, s) => PutInt(x) + PutString(s)
  }

  function CallPart(handle: int32, name: RawData, args: RawData): RawData {
    ClassPart() + (PutInt(handle) + ("#m" + (PutString(name) + args)))
  }

  function Encode(cmd: Command): RawData {
    match cmd
    case SendInt(x) => PutInt(x)
    case SendDouble(d) => PutDouble(d)
    case SendText(s) => PutString(s)
    case Create(args) => ClassPart() + ("#c" + PutArgs(args))
    case PrintToCout(h) => CallPart(h, PRINT_TO_COUT, [])
    case PrintToString(h) => CallPart(h, PRINT_TO_STRING, [])
    case SetInteger(h, x) => CallPart(h, SET_INTEGER_VALUE, PutInt(x))
    case SetString(h, s) => CallPart(h, SET_STRING_VALUE, PutString(s))
    case Retrieve(h) => ClassPart() + (PutInt(h) + "#g")
  }

  // The start of every request on the class.
  function Head(): RawData {
    "#" + PutString("class CustomClass")
  }

  lemma SpelledCall(h: int32, name: RawData, args: RawData)
    ensures CallPart(h, name, args) == Head() + PutInt(h) + "#m" + PutString(name) + args
  {
    hide PutInt, PutString;
    var start := ClassPart();
    assert start == Head();
    hide ClassPart, Head;
    assert start + (PutInt(h) + ("#m" + (PutString(name) + args)))
        == start + PutInt(h) + "#m" + PutString(name) + args;
  }

  /** The calls on an object, spelled out. */
  lemma SpelledCalls(h: int32, x: int32, s: RawData)
    ensures Encode(PrintToCout(h)) == Head() + PutInt(h) + "#m" + PutString("PrintToCout")
    ensures Encode(PrintToString(h)) == Head() + PutInt(h) + "#m" + PutString("PrintToString")
    ensures Encode(SetInteger(h, x)) == Head() + PutInt(h) + "#m" + PutString("SetIntegerValue") + PutInt(x)
    ensures Encode(SetString(h, s)) == Head() + PutInt(h) + "#m" + PutString("SetStringValue") + PutString(s)
  {
    hide PutInt, PutString, CallPart, Head;
    SpelledCall(h, PRINT_TO_COUT, []);
    SpelledCall(h, PRINT_TO_STRING, []);
    SpelledCall(h, SET_INTEGER_VALUE, PutInt(x));
    SpelledCall(h, SET_STRING_VALUE, PutString(s));
    assert forall d: RawData :: d + [] == d;
  }

  /** The creates and the get, spelled out. */
  lemma SpelledObjects(h: int32, x: int32, s: RawData)
    ensures Encode(Create(NoArgs)) == Head() + "#c"
    ensures Encode(Create(OneArg(x))) == Head() + "#c" + PutInt(x)
    ensures Encode(Create(TwoArgs(x, s))) == Head() + "#c" + PutInt(x) + PutString(s)
    ensures Encode(Retrieve(h)) == Head() + PutInt(h) + "#g"
  {
    hide PutInt, PutString;
    var start := ClassPart();
    assert start == Head();
    hide ClassPart, Head;
    assert start + ("#c" + []) == start + "#c";
    assert start + ("#c" + PutInt(x)) == start + "#c" + PutInt(x);
    assert start + ("#c" + (PutInt(x) + PutString(s))) == start + "#c" + PutInt(x) + PutString(s);
    assert start + (PutInt(h) + "#g") == start + PutInt(h) + "#g";
  }

  function Frame(id: int32, cmd: Command): RawData {
    IdPart(id) + Encode(cmd)
  }
}
