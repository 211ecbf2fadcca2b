/** The client's data source: it builds the bytes of each request, with its flag and callback. */
module DemoSimulator {
  import opened Wire
  import opened DataSerializer
  import opened DataDeserializer
  import opened CustomClasses
  import opened Framing
  import opened Requests
  import opened ObjectStore
  import opened ClassRepositories
  import opened ResponseParsers

  // Each demo attaches the callback that knows how to read its own kind of result.
  function CallbackOf(cmd: Command): Callback {
    match cmd
    case Create(_) => OnCreate
    case PrintToString(_) => OnPrintToString
    case SetInteger(_, _) => OnSetInteger
    case SetString(_, _) => OnSetString
    case Retrieve(_) => OnRetrieve
    case _ => NoCallback
  }

  // What a callback ought to see for the result of its command.
  function Seen(result: Result): Observation {
    match result
    case Silent => Ignored
    case Handle(h) => Created(Narrow(h))
    case Flag(b) => Changed(b)
    case Text(s) => Printed(s)
    case Object(ival, str) => Fetched(Fields(ival, str))
  }

  // Results whose text still has an `int` length.
  predicate Fits(result: Result) {
    match result
    case Text(s) => |s| <= INT_MAX
    case Object(_, str) => |str| + 11 <= INT_MAX
    case _ => true
  }

  /** Typed responses: a live command is answered exactly if its request was built to wait, and
   *  then the client decodes its own id and its callback sees the store's result, never the
   *  failed cast. */
  lemma TypedResponse(store: Store, id: int32, cmd: Command, self: Address)
    requires Live(store, cmd)
    ensures var result := Execute(store, cmd, self).1;
            && (!result.Silent? <==> Waits(cmd))
            && (Waits(cmd) <==> CallbackOf(cmd) != NoCallback)
            && (Waits(cmd) && Fits(result) ==>
                  && ScanResponse(Reply(id, result)) == Decoded(id, ValueOf(result))
                  && Observe(CallbackOf(cmd), ValueOf(result)) == Seen(result))
  {
    hide ScanResponse, IdPart, PutValue, FieldBytes, Restore, PrintText;
    var result := Execute(store, cmd, self).1;
    if Waits(cmd) && Fits(result) {
      ValueAdmissible(result);
      ResponseDispatch(id, ValueOf(result));
      if result.Object? {
        FieldsRoundTrip(result.ival, result.str);
      }
    }
  }

  /** An object keeps its fields on the way through a get response, a string inside a framed string,
   *  whatever bytes its own string holds, exactly as long as the outer length fits an `int`. */
  lemma NestedRoundTrip(id: int32, ival: int32, str: RawData)
    ensures var v := TextV(FieldBytes(ival, str));
            var d := ScanResponse(Reply(id, Object(ival, str)));
            && (d == Decoded(id, v) <==> |str| + 11 <= INT_MAX)
            && (d == Decoded(id, v) ==> Observe(OnRetrieve, v) == Fetched(Fields(ival, str)))
  {
    hide ScanResponse, IdPart, PutValue, FieldBytes, Restore;
    ResponseDispatch(id, TextV(FieldBytes(ival, str)));
    FieldsRoundTrip(ival, str);
  }

  lemma ValueAdmissible(result: Result)
    requires !result.Silent? && Fits(result)
    ensures Admissible(ValueOf(result))
  {
  }

  /** The builder of requests, one method for each helper of the demos. */
  class RequestBuilder {
    const stream: Stream

    constructor ()
      ensures stream.contents == [] && fresh(stream)
    {
      stream := new Stream();
    }

    method CreateCustomClassRequest()
      modifies stream
      ensures stream.contents == old(stream.contents) + ClassPart()
    {
      stream.Append("#");
      stream.SerializeString(CLASS_NAME);
    }

    // The recursion over a variadic argument list.
    method SerializeArguments(args: seq<Value>)
      modifies stream
      ensures stream.contents == old(stream.contents) + PutAll(args)
      decreases |args|
    {
      hide PutValue;
      if args != [] {
        SerializeArgument(args[0]);
        SerializeArguments(args[1..]);
      }
    }

    method SerializeArgument(arg: Value)
      modifies stream
      ensures stream.contents == old(stream.contents) + PutValue(arg)
    {
      match arg {
        case IntV(x) => stream.SerializeInt(x);
        case DoubleV(d) => stream.SerializeDouble(d);
        case BoolV(b) => stream.SerializeBool(b);
        case TextV(s) => stream.SerializeString(s);
      }
    }

    method SerializeConstructorArguments(args: CtorArgs)
      modifies stream
      ensures stream.contents == old(stream.contents) + PutArgs(args)
    {
      hide PutInt, PutString;
      match args {
        case NoArgs =>
        case OneArg(x) => stream.SerializeInt(x);
        case TwoArgs(x, s) => stream.SerializeInt(x); stream.SerializeString(s);
      }
    }

    method CreateCallMethodRequest(instance: int32, name: RawData, args: seq<Value>)
      modifies stream
      ensures stream.contents == old(stream.contents) + CallPart(instance, name, PutAll(args))
    {
      hide ClassPart, PutInt, PutString, PutAll;
      CreateCustomClassRequest();
      stream.SerializeInt(instance);
      stream.Append("#m");
      stream.SerializeString(name);
      SerializeArguments(args);
    }

    method CreateRetrieveInstanceRequest(instance: int32)
      modifies stream
      ensures stream.contents == old(stream.contents) + (ClassPart() + (PutInt(instance) + "#g"))
    {
      CreateCustomClassRequest();
      stream.SerializeInt(instance);
      stream.Append("#g");
    }
  }

  // A demo on an object without a handle to choose.
  predicate NoObject(demo: Command) {
    HasHandle(demo) && demo.handle == -1
  }

  function RequestOf(demo: Command): ClientRequest {
    if NoObject(demo) then ClientRequest([], false, NoCallback)
    else ClientRequest(Encode(demo), Waits(demo), CallbackOf(demo))
  }

  function Less(demo: Command, left: nat): nat
    requires left > 0
  {
    if NoObject(demo) then left else left - 1
  }

  // The demos last until `left` of them have been counted.
  predicate Enough(demos: seq<Command>, left: nat)
    decreases |demos|
  {
    left == 0 || (demos != [] && Enough(demos[1..], Less(demos[0], left)))
  }

  /** What a simulator yields until it is no longer good. */
  function Yielded(demos: seq<Command>, left: nat): seq<ClientRequest>
    requires Enough(demos, left)
    decreases |demos|
  {
    if left == 0 then [] else [RequestOf(demos[0])] + Yielded(demos[1..], Less(demos[0], left))
  }

  lemma YieldedNext(demos: seq<Command>, left: nat)
    requires left > 0 && Enough(demos, left)
    ensures demos != [] && Enough(demos[1..], Less(demos[0], left))
    ensures Yielded(demos, left) == [RequestOf(demos[0])] + Yielded(demos[1..], Less(demos[0], left))
    ensures Yielded(demos, left)[1..] == Yielded(demos[1..], Less(demos[0], left))
  {
    hide RequestOf;
  }

  lemma YieldedNone(demos: seq<Command>)
    ensures Enough(demos, 0) && Yielded(demos, 0) == []
  {
  }

  // The requests that carry data.
  function Filled(requests: seq<ClientRequest>): nat {
    if requests == [] then 0 else (if requests[0].data == [] then 0 else 1) + Filled(requests[1..])
  }

  /** A simulator yields exactly as many requests with data as it has iterations left. */
  lemma {:induction false} YieldedIsFilled(demos: seq<Command>, left: nat)
    requires Enough(demos, left)
    ensures Filled(Yielded(demos, left)) == left
    decreases |demos|
  {
    hide RequestOf;
    if left > 0 {
      RequestIsEmpty(demos[0]);
      YieldedIsFilled(demos[1..], Less(demos[0], left));
    }
  }

  lemma RequestIsEmpty(demo: Command)
    ensures RequestOf(demo).data == [] <==> NoObject(demo)
  {
    RequestExactly(demo);
  }

  /** A demo yields its own request, with its flag and callback, unless it is on an object and the handle
   *  is -1; that one is empty. Handle 0, of the first object ever created, is like any other. */
  lemma RequestExactly(demo: Command)
    ensures HasHandle(demo) && demo.handle == -1 ==> RequestOf(demo) == ClientRequest([], false, NoCallback)
    ensures !HasHandle(demo) || demo.handle != -1 ==>
              && RequestOf(demo) == ClientRequest(Encode(demo), Waits(demo), CallbackOf(demo))
              && RequestOf(demo).data != []
  {
  }

  /** A demo on the handle that was chosen at random is sent if and only if there was a handle to choose
   *  from when the size of the list was read. */
  lemma ChosenDemoIsSent(first: seq<int32>, handles: seq<int32>, rand: nat, demo: Command)
    requires first <= handles && forall h :: h in handles ==> 0 <= h
    requires HasHandle(demo) && Choice(|first|, handles, rand) == Some(demo.handle)
    ensures RequestOf(demo).data != [] <==> first != []
    ensures first != [] ==>
              && RequestOf(demo) == ClientRequest(Encode(demo), Waits(demo), CallbackOf(demo))
              && demo.handle in first
    ensures first == [] ==> RequestOf(demo) == ClientRequest([], false, NoCallback)
  {
    hide Encode, RequestOf;
    RequestExactly(demo);
    if first != [] {
      assert handles[rand % |first|] in handles;
    }
  }

  function RequestsOf(demos: seq<Command>): (r: seq<ClientRequest>)
    ensures |r| == |demos|
  {
    if demos == [] then [] else [RequestOf(demos[0])] + RequestsOf(demos[1..])
  }

  /** The demos are enough exactly if as many of them as there are iterations left carry data, and then
   *  the simulator yields their requests in order, empty ones included. */
  lemma {:induction false} YieldedExactly(demos: seq<Command>, left: nat)
    ensures Enough(demos, left) <==> left <= Filled(RequestsOf(demos))
    ensures Enough(demos, left) ==> Yielded(demos, left) <= RequestsOf(demos)
    decreases |demos|
  {
    hide RequestOf;
    if left > 0 && demos != [] {
      RequestIsEmpty(demos[0]);
      YieldedExactly(demos[1..], Less(demos[0], left));
    }
  }

  /** The data source of a client. `demos` are the demos that come up, with the handles that are
   *  chosen for them, from now on. */
  class DemoSimulator {
    const iterations: nat
    var currIteration: nat
    var demos: seq<Command>

    constructor (iterations: nat, demos: seq<Command>)
      ensures this.iterations == iterations && this.demos == demos && currIteration == 0
    {
      this.iterations, this.demos := iterations, demos;
      currIteration := 0;
    }

    predicate IsGood()
      reads this
    {
      currIteration < iterations
    }

    // A demo on an object first picks its handle; without one the request is empty and the
    // iteration is not counted.
    method ReadRequest() returns (request: ClientRequest)
      requires demos != []
      modifies this`currIteration, this`demos
      ensures request == RequestOf(old(demos)[0]) && demos == old(demos)[1..]
      ensures var demo := old(demos)[0];
              if HasHandle(demo) && demo.handle == -1
              then request == ClientRequest([], false, NoCallback) && currIteration == old(currIteration)
              else request == ClientRequest(Encode(demo), Waits(demo), CallbackOf(demo))
                   && currIteration == old(currIteration) + 1
    {
      hide ClassPart, PutInt, PutString, PutArgs, CallPart, PutAll;
      NoArguments();
      var demo := demos[0];
      demos := demos[1..];
      if HasHandle(demo) && demo.handle == -1 {
        return ClientRequest([], false, NoCallback);
      }
      var builder := new RequestBuilder();
      var wait, callback := false, NoCallback;
      match demo {
        case SendInt(x) => builder.stream.SerializeInt(x);
        case SendDouble(d) => builder.stream.SerializeDouble(d);
        case SendText(s) => builder.stream.SerializeString(s);
        case Create(args) =>
          builder.CreateCustomClassRequest();
          builder.stream.Append("#c");
          builder.SerializeConstructorArguments(args);
          wait, callback := true, OnCreate;
        case PrintToCout(h) => builder.CreateCallMethodRequest(h, PRINT_TO_COUT, []);
        case PrintToString(h) =>
          builder.CreateCallMethodRequest(h, PRINT_TO_STRING, []);
          wait, callback := true, OnPrintToString;
        case SetInteger(h, x) =>
          builder.CreateCallMethodRequest(h, SET_INTEGER_VALUE, [IntV(x)]);
          wait, callback := true, OnSetInteger;
          OneArgument(IntV(x));
        case SetString(h, s) =>
          builder.CreateCallMethodRequest(h, SET_STRING_VALUE, [TextV(s)]);
          wait, callback := true, OnSetString;
          OneArgument(TextV(s));
        case Retrieve(h) =>
          builder.CreateRetrieveInstanceRequest(h);
          wait, callback := true, OnRetrieve;
      }
      currIteration := currIteration + 1;
      request := ClientRequest(builder.stream.contents, wait, callback);
    }
  }

  lemma NoArguments()
    ensures PutAll([]) == []
  {
  }

  lemma OneArgument(v: Value)
    ensures PutAll([v]) == PutValue(v)
  {
    assert PutValue(v) + [] == PutValue(v);
  }
}
