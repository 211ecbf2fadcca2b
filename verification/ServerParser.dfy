/** The server's interpreter: what one received message does to the registry, byte by byte. */
module ServerParser {
  import opened Wire
  import opened DataSerializer
  import opened DataDeserializer
  import opened CustomClasses
  import opened ClassRegistries
  import opened Requests
  import opened Framing

  /** A response is sent only when its data is not empty. */
  datatype ServerResponse = ServerResponse(data: RawData, requestId: int32)

  const NO_RESPONSE := ServerResponse([], -1)

  // ---------- what the bytes mean ----------

  function ScanCreate(data: RawData, i: nat): Scan<CtorArgs> {
    if !Keyword(data, i, 'c') then Miss
    else if |data| == i + 2 then Hit(NoArgs, i + 2)
    else
      match ScanInt(data, i + 2)
      case Fault => Fault
      case Miss => Miss
      case Hit(x, j) =>
        if |data| == j then Hit(OneArg(x), j)
        else
          match ScanString(data, j)
          case Fault => Fault
          case Miss => Miss
          case Hit(s, k) => if |data| == k then Hit(TwoArgs(x, s), k) else Miss
  }

  datatype Call = Call(ok: bool, obj: Obj, data: RawData, next: nat) | CallFault

  // A method call on an object. When the argument does not parse, the call has failed but
  // the cursor has already moved past the method name.
  function RunCall(o: Obj, data: RawData, i: nat): Call {
    if !Keyword(data, i, 'm') then Call(false, o, [], i)
    else
      match ScanString(data, i + 2)
      case Fault => CallFault
      case Miss => Call(true, o, [], i + 2)
      case Hit(name, j) =>
        if name == PRINT_TO_COUT then Call(true, o, [], j)
        else if name == PRINT_TO_STRING then Call(true, o, PutString(PrintText(o)), j)
        else if name == SET_INTEGER_VALUE then RunSetInteger(o, data, j)
        else if name == SET_STRING_VALUE then RunSetString(o, data, j)
        else Call(true, o, [], j)
  }

  function RunSetInteger(o: Obj, data: RawData, j: nat): Call {
    match ScanInt(data, j)
    case Fault => CallFault
    case Miss => Call(false, o, PutBool(false), j)
    case Hit(x, k) => Call(true, o.(ival := x), PutBool(x != o.ival), k)
  }

  function RunSetString(o: Obj, data: RawData, j: nat): Call {
    match ScanString(data, j)
    case Fault => CallFault
    case Miss => Call(false, o, PutBool(false), j)
    case Hit(s, k) => Call(true, o.(str := s), PutBool(s != o.str), k)
  }

  datatype Outcome = Outcome(ok: bool, reg: Registry, data: RawData) | Crash

  function RunOnInstance(r: Registry, data: RawData, i: nat): Outcome {
    match ScanInt(data, i)
    case Fault => Crash
    case Miss => RunOnHandle(r, 0, data, i)  // the failed parse still yields handle 0
    case Hit(h, j) => RunOnHandle(r, h, data, j)
  }

  function RunOnHandle(r: Registry, h: int32, data: RawData, i: nat): Outcome {
    if h !in r.objs then Outcome(false, r, [])
    else
      match RunCall(r.objs[h], data, i)
      case CallFault => Crash
      case Call(ok, o, reply, j) =>
        if ok then Outcome(true, r.(objs := r.objs[h := o]), reply)
        else if Keyword(data, j, 'g') then
          Outcome(true, r, PutString(FieldBytes(r.objs[h].ival, r.objs[h].str)))
        else Outcome(true, r, [])
  }

  // `self` is the address that a new object would get.
  function RunCustom(r: Registry, data: RawData, i: nat, self: Address): Outcome {
    if data == [] then Outcome(false, r, [])
    else if i >= |data| then Crash
    else if data[i] != '#' then Outcome(false, r, [])
    else
      match ScanString(data, i + 1)
      case Fault => Crash
      case Miss => Outcome(false, r, [])
      case Hit(name, j) =>
        if name != CLASS_NAME then Outcome(false, r, [])
        else
          match ScanCreate(data, j)
          case Fault => Crash
          case Miss => RunOnInstance(r, data, j)
          case Hit(args, _) =>
            if r.counter >= INT_MAX then Crash  // `handle_counter_++` overflows
            else Outcome(true, WithNew(r, Construct(self, args)), PutInt(r.counter))
  }

  datatype Served = Served(ok: bool, reg: Registry, response: ServerResponse) | ServerFault

  function Plain(r: Registry): Served {
    Served(true, r, NO_RESPONSE)
  }

  // The ordered dispatch on one received message.
  function Serve(r: Registry, data: RawData, self: Address): Served {
    match ScanRequestId(data)
    case Fault => ServerFault
    case Hit(id, i) => ServeBody(r, id, data, i, self)
  }

  function ServeBody(r: Registry, id: int32, data: RawData, i: nat, self: Address): Served {
    match ScanInt(data, i)
    case Fault => ServerFault
    case Hit(_, _) => Plain(r)
    case Miss =>
      match ScanDouble(data, i)
      case Fault => ServerFault
      case Hit(_, _) => Plain(r)
      case Miss =>
        match ScanString(data, i)
        case Fault => ServerFault
        case Hit(_, _) => Plain(r)
        case Miss => ServeCustom(r, id, data, i, self)
  }

  function ServeCustom(r: Registry, id: int32, data: RawData, i: nat, self: Address): Served {
    match RunCustom(r, data, i, self)
    case Crash => ServerFault
    case Outcome(ok, reg, reply) =>
      Served(ok, reg, if ok then ServerResponse(reply, id) else NO_RESPONSE)
  }

  // The message that goes back for a response, if any.
  function Answer(response: ServerResponse): seq<RawData> {
    if response.data == [] then [] else [IdPart(response.requestId) + response.data]
  }

  // ---------- the interpreter as written ----------

  method ParseCreateClass(registry: ClassRegistry, data: RawData, seek: nat, self: Address)
    returns (ok: bool, handle: int32, next: nat)
    requires registry.Valid() && !ScanCreate(data, seek).Fault?
    requires ScanCreate(data, seek).Hit? ==> registry.handleCounter < INT_MAX
    modifies registry
    ensures registry.Valid()
    ensures ok <==> ScanCreate(data, seek).Hit?
    ensures ok ==> handle == old(registry.handleCounter) && next == |data|
    ensures ok ==> registry.View() == WithNew(old(registry.View()), Construct(self, ScanCreate(data, seek).value))
    ensures ok ==> fresh(registry.instances.Values - old(registry.instances.Values))
    ensures !ok ==> unchanged(registry) && handle == -1 && next == seek
  {
    hide ScanInt, ScanString;
    var idx := seek;
    if |data| < idx + 2 || data[idx] != '#' || data[idx + 1] != 'c' {
      return false, -1, seek;
    }
    idx := idx + 2;
    if |data| == idx {
      handle := registry.Create(self, NoArgs);
      return true, handle, idx;
    }
    var gotInt, ival, j := ParseInt(data, idx);
    if !gotInt {
      return false, -1, seek;
    }
    if |data| == j {
      handle := registry.Create(self, OneArg(ival));
      return true, handle, j;
    }
    var gotString, str, k := ParseString(data, j);
    if !gotString {
      return false, -1, seek;
    }
    if |data| == k {
      handle := registry.Create(self, TwoArgs(ival, str));
      return true, handle, k;
    }
    return false, -1, seek;
  }

  method ParseSetIntegerValueMethodCall(instance: CustomClass, data: RawData, seek: nat)
    returns (ok: bool, changed: bool, next: nat)
    requires !ScanInt(data, seek).Fault?
    modifies instance
    ensures RunSetInteger(old(instance.View()), data, seek) == Call(ok, instance.View(), PutBool(changed), next)
  {
    var gotInt, ival, j := ParseInt(data, seek);
    if !gotInt {
      return false, false, seek;
    }
    changed := instance.SetIntegerValue(ival);
    return true, changed, j;
  }

  method ParseSetStringValue(instance: CustomClass, data: RawData, seek: nat)
    returns (ok: bool, changed: bool, next: nat)
    requires !ScanString(data, seek).Fault?
    modifies instance
    ensures RunSetString(old(instance.View()), data, seek) == Call(ok, instance.View(), PutBool(changed), next)
  {
    var gotString, str, j := ParseString(data, seek);
    if !gotString {
      return false, false, seek;
    }
    changed := instance.SetStringValue(str);
    return true, changed, j;
  }

  method ParseMethodCall(instance: CustomClass, data: RawData, seek: nat)
    returns (ok: bool, reply: RawData, next: nat)
    requires !RunCall(instance.View(), data, seek).CallFault?
    modifies instance
    ensures RunCall(old(instance.View()), data, seek) == Call(ok, instance.View(), reply, next)
  {
    if |data| < seek + 2 || data[seek] != '#' || data[seek + 1] != 'm' {
      return false, [], seek;
    }
    var gotName, name, j := ParseString(data, seek + 2);
    if !gotName {
      return true, [], j;
    }
    if name == PRINT_TO_COUT {
      return true, [], j;
    } else if name == PRINT_TO_STRING {
      var text := instance.PrintToString();
      var stream := new Stream();
      stream.SerializeString(text);
      return true, stream.contents, j;
    } else if name == SET_INTEGER_VALUE {
      var done, changed, k := ParseSetIntegerValueMethodCall(instance, data, j);
      return done, PutBool(changed), k;
    } else if name == SET_STRING_VALUE {
      var done, changed, k := ParseSetStringValue(instance, data, j);
      return done, PutBool(changed), k;
    }
    return true, [], j;
  }

  method ParseGetInstance(instance: CustomClass, data: RawData, seek: nat) returns (ok: bool, reply: RawData)
    ensures ok <==> Keyword(data, seek, 'g')
    ensures ok ==> reply == PutString(FieldBytes(instance.ival, instance.str))
  {
    if |data| < seek + 2 || data[seek] != '#' || data[seek + 1] != 'g' {
      return false, [];
    }
    var text := instance.Serialize();
    var stream := new Stream();
    stream.SerializeString(text);
    return true, stream.contents;
  }

  method GetClassInstanceFromRequest(registry: ClassRegistry, data: RawData, seek: nat)
    returns (handle: int32, instance: CustomClass?, next: nat)
    requires registry.Valid() && !ScanInt(data, seek).Fault?
    ensures ScanInt(data, seek).Hit? ==> ScanInt(data, seek) == Hit(handle, next)
    ensures ScanInt(data, seek).Miss? ==> handle == 0 && next == seek
    ensures instance != null <==> handle in registry.View().objs
    ensures instance != null ==> handle in registry.instances && registry.instances[handle] == instance
  {
    var ok;
    ok, handle, next := ParseInt(data, seek);
    instance := registry.GetClassObjectByHandle(handle);
  }

  method ParseCustomClass(registry: ClassRegistry, data: RawData, seek: nat, self: Address)
    returns (ok: bool, reply: RawData)
    requires registry.Valid() && !RunCustom(registry.View(), data, seek, self).Crash?
    modifies registry, registry.instances.Values
    ensures registry.Valid() && fresh(registry.instances.Values - old(registry.instances.Values))
    ensures RunCustom(old(registry.View()), data, seek, self) == Outcome(ok, registry.View(), reply)
  {
    if data == [] || data[seek] != '#' {
      return false, [];
    }
    var gotName, name, idx := ParseString(data, seek + 1);
    if !gotName || name != CLASS_NAME {
      return false, [];
    }
    var created, newHandle, end := ParseCreateClass(registry, data, idx, self);
    if created {
      var stream := new Stream();
      stream.SerializeInt(newHandle);
      return true, stream.contents;
    }
    ok, reply := ParseOnInstance(registry, data, idx);
  }

  method ParseOnInstance(registry: ClassRegistry, data: RawData, seek: nat) returns (ok: bool, reply: RawData)
    requires registry.Valid() && !RunOnInstance(registry.View(), data, seek).Crash?
    modifies registry.instances.Values
    ensures registry.Valid()
    ensures RunOnInstance(old(registry.View()), data, seek) == Outcome(ok, registry.View(), reply)
  {
    hide RunCall, ScanInt, Keyword;
    var handle, instance, idx := GetClassInstanceFromRequest(registry, data, seek);
    if instance == null {
      return false, [];
    }
    ghost var before := registry.View();
    var called, callReply, next := ParseMethodCall(instance, data, idx);
    registry.OneObjectChanged(handle);
    if called {
      return true, callReply;
    }
    FailedCall(before.objs[handle], data, idx);
    assert registry.View().objs == before.objs;
    var got, getReply := ParseGetInstance(instance, data, next);
    if got {
      return true, getReply;
    }
    return true, [];
  }

  lemma FailedCall(o: Obj, data: RawData, i: nat)
    ensures RunCall(o, data, i).Call? && !RunCall(o, data, i).ok ==> RunCall(o, data, i).obj == o
  {
  }

  /** One received message: the byte-level interpreter on the real registry does what `Serve` says. */
  method ParseRequest(registry: ClassRegistry, request: RawData, self: Address)
    returns (ok: bool, response: ServerResponse)
    requires registry.Valid() && !Serve(registry.View(), request, self).ServerFault?
    modifies registry, registry.instances.Values
    ensures registry.Valid() && fresh(registry.instances.Values - old(registry.instances.Values))
    ensures Serve(old(registry.View()), request, self) == Served(ok, registry.View(), response)
  {
    hide ScanInt, ScanDouble, ScanString, ScanRequestId, RunCustom;
    response := NO_RESPONSE;
    var requestId, idx := ParseRequestId(request);
    var isInt, x, i := ParseInt(request, idx);
    if isInt {
      return true, response;
    }
    var isDouble, d, j := ParseDouble(request, idx);
    if isDouble {
      return true, response;
    }
    var isString, s, k := ParseString(request, idx);
    if isString {
      return true, response;
    }
    var isCustom, reply := ParseCustomClass(registry, request, idx, self);
    if isCustom {
      response := ServerResponse(reply, requestId);
      return true, response;
    }
    return false, response;
  }
}
