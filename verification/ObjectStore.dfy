/** The sequential object store that the server is meant to be: no bytes, no handles table. */
module ObjectStore {
  import opened Wire
  import opened DataSerializer
  import opened CustomClasses
  import opened Requests
  import opened Framing

  // The object with handle h is the h-th object ever created.
  type Store = seq<Obj>

  datatype Result =
    | Silent                                  // nothing is sent back
    | Handle(h: nat)
    | Flag(b: bool)
    | Text(s: RawData)
    | Object(ival: int32, str: RawData)

  predicate Live(store: Store, cmd: Command) {
    HasHandle(cmd) ==> 0 <= cmd.handle < |store|
  }

  // One command; `self` is the address a new object gets.
  function Execute(store: Store, cmd: Command, self: Address): (Store, Result) {
    if !Live(store, cmd) then (store, Silent)
    else
      match cmd
      case SendInt(_) => (store, Silent)
      case SendDouble(_) => (store, Silent)
      case SendText(_) => (store, Silent)
      case Create(args) => (store + [Construct(self, args)], Handle(|store|))
      case PrintToCout(_) => (store, Silent)
      case PrintToString(h) => (store, Text(PrintText(store[h])))
      case SetInteger(h, x) => (store[h := store[h].(ival := x)], Flag(store[h].ival != x))
      case SetString(h, s) => (store[h := store[h].(str := s)], Flag(store[h].str != s))
      case Retrieve(h) => (store, Object(store[h].ival, store[h].str))
  }

  // The value that carries a result, and its bytes.
  function ValueOf(result: Result): Value
    requires !result.Silent?
  {
    match result
    case Handle(h) => IntV(Narrow(h))
    case Flag(b) => BoolV(b)
    case Text(s) => TextV(s)
    case Object(ival, str) => TextV(FieldBytes(ival, str))
  }

  function Reply(id: int32, result: Result): RawData
    requires !result.Silent?
  {
    IdPart(id) + PutValue(ValueOf(result))
  }

  function Replies(id: int32, result: Result): seq<RawData> {
    if result.Silent? then [] else [Reply(id, result)]
  }
}
