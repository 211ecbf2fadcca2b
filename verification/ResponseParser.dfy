/** The client's table of requests, and what a received response does to it. */
module ResponseParsers {
  import opened Wire
  import opened DataSerializer
  import opened DataDeserializer
  import opened CustomClasses
  import opened Requests
  import opened Framing
  import opened ClassRepositories

  /** The success callbacks that the demos attach; what they capture goes to the log only. */
  datatype Callback =
    | NoCallback
    | OnCreate
    | OnPrintToString
    | OnSetInteger
    | OnSetString
    | OnRetrieve

  datatype ClientRequest = ClientRequest(data: RawData, waitForResponse: bool, callback: Callback)

  /** What a callback gets to see. */
  datatype Observation =
    | Ignored                  // no callback
    | Created(h: int32)
    | Printed(s: RawData)
    | Changed(b: bool)
    | Fetched(fields: Fields)
    | BadCast                  // std::bad_any_cast
    | Broken                   // CustomClass::Deserialize runs off its input

  function Observe(callback: Callback, v: Value): Observation {
    match callback
    case NoCallback => Ignored
    case OnCreate => if v.IntV? then Created(v.x) else BadCast
    case OnPrintToString => if v.TextV? then Printed(v.s) else BadCast
    case OnSetInteger => if v.BoolV? then Changed(v.b) else BadCast
    case OnSetString => if v.BoolV? then Changed(v.b) else BadCast
    case OnRetrieve =>
      if !v.TextV? then BadCast
      else if Restore(v.s).Hit? then Fetched(Restore(v.s).value) else Broken
  }

  /** The cast fails exactly if the value is not of the callback's own type. */
  lemma BadCastExactly(callback: Callback, v: Value)
    ensures Observe(callback, v) == BadCast <==>
              || (callback.OnCreate? && !v.IntV?)
              || ((callback.OnSetInteger? || callback.OnSetString?) && !v.BoolV?)
              || ((callback.OnPrintToString? || callback.OnRetrieve?) && !v.TextV?)
    ensures Observe(callback, v) == Ignored <==> callback.NoCallback?
  {
    hide Restore;
  }

  datatype Decoded =
    | Decoded(id: int32, value: Value)
    | Notice(handle: int32)    // the custom-class form, which no server sends
    | Unparsed
    | DecodeFault

  function ScanNotice(data: RawData): Scan<int32> {
    if data == [] || data[0] != '#' then Miss
    else
      match ScanString(data, 1)
      case Fault => Fault
      case Miss => Miss
      case Hit(name, j) =>
        if name != CLASS_NAME || !Keyword(data, j, 'i') then Miss else ScanInt(data, j + 2)
  }

  function ScanPayload(id: int32, data: RawData, i: nat): Decoded {
    match ScanBool(data, i)
    case Fault => DecodeFault
    case Hit(b, _) => Decoded(id, BoolV(b))
    case Miss =>
      match ScanInt(data, i)
      case Fault => DecodeFault
      case Hit(x, _) => Decoded(id, IntV(x))
      case Miss =>
        match ScanDouble(data, i)
        case Fault => DecodeFault
        case Hit(d, _) => Decoded(id, DoubleV(d))
        case Miss =>
          match ScanString(data, i)
          case Fault => DecodeFault
          case Hit(s, _) => Decoded(id, TextV(s))
          case Miss => Unparsed
  }

  /** The custom-class form is recognised exactly as "#", the class, "#i" and a handle. */
  lemma NoticeExactly(data: RawData, h: int32, n: nat)
    ensures ScanNotice(data) == Hit(h, n)
       <==> At(data, 0, ClassPart() + ("#i" + PutInt(h))) && n == 31
  {
    hide PutInt, PutString, ScanInt, ScanString, At, Keyword, ClassPart;
    ClassPartIs(data);
    AtInside(data, 0, ClassPart(), "#i" + PutInt(h));
    AtInside(data, 24, "#i", PutInt(h));
    ScanIntExact(data, 26, h, 31);
    KeywordIsAt(data, 24, 'i');
    if ScanNotice(data).Hit? {
      var name := ScanString(data, 1);
      ScanIntExact(data, name.next + 2, ScanNotice(data).value, ScanNotice(data).next);
    }
  }

  lemma ClassPartIs(data: RawData)
    ensures |ClassPart()| == 24
    ensures At(data, 0, ClassPart()) <==> data != [] && data[0] == '#' && ScanString(data, 1) == Hit(CLASS_NAME, 24)
    ensures data != [] && data[0] == '#' && ScanString(data, 1).Hit? && ScanString(data, 1).value == CLASS_NAME ==>
              ScanString(data, 1).next == 24
  {
    hide PutInt, ScanInt, At;
    assert ClassPart() == "#" + PutString(CLASS_NAME);
    AtInside(data, 0, "#", PutString(CLASS_NAME));
    AtTag(data, 0, '#');
    ScanStringExact(data, 1, CLASS_NAME, 24);
    if ScanString(data, 1).Hit? {
      ScanStringExact(data, 1, ScanString(data, 1).value, ScanString(data, 1).next);
    }
  }

  /** The payload decodes to the value that one of the four readers finds; it is unparsed if all of
   *  them miss, and a fault if one of them faults. */
  lemma PayloadExactly(id: int32, data: RawData, i: nat)
    ensures forall v :: ScanPayload(id, data, i) == Decoded(id, v)
                   <==> ScanValue(data, i, KindOf(v)).Hit? && ScanValue(data, i, KindOf(v)).value == v
    ensures ScanPayload(id, data, i).Unparsed? <==> forall k :: ScanValue(data, i, k).Miss?
    ensures ScanPayload(id, data, i).DecodeFault? <==> exists k :: ScanValue(data, i, k).Fault?
  {
    hide IntOf, ScanInt, ScanDouble, ScanString, ScanBool;
    ScanFaultsAtEnd(data, i);
    if i < |data| {
      OtherTagsMiss(data, i);
    }
    assert ScanValue(data, i, BoolK).Fault? <==> ScanBool(data, i).Fault?;
    assert ScanValue(data, i, IntK).Fault? <==> ScanInt(data, i).Fault?;
    assert ScanValue(data, i, DoubleK).Fault? <==> ScanDouble(data, i).Fault?;
    assert ScanValue(data, i, TextK).Fault? <==> ScanString(data, i).Fault?;
  }

  lemma ScanFaultsAtEnd(data: RawData, i: nat)
    ensures i >= |data| ==> ScanBool(data, i).Fault? && ScanInt(data, i).Fault?
    ensures i >= |data| ==> ScanDouble(data, i).Fault? && ScanString(data, i).Fault?
  {
  }

  // The dispatch on a received message.
  function ScanResponse(data: RawData): Decoded {
    match ScanRequestId(data)
    case Fault => DecodeFault
    case Hit(id, i) =>
      match ScanNotice(data)
      case Fault => DecodeFault
      case Hit(h, _) => Notice(h)
      case Miss => ScanPayload(id, data, i)
  }

  /** Every framed value is decoded to that value and that id, exactly as long as a string's length
   *  fits an `int`: the custom-class branch, which starts over at index 0, never fires, and
   *  the one type branch that does is that of the value. */
  lemma ResponseDispatch(id: int32, v: Value)
    ensures ScanResponse(IdPart(id) + PutValue(v)) == Decoded(id, v) <==> Admissible(v)
  {
    hide PutInt, PutDouble, PutString, ScanInt, ScanString, ScanDouble, ScanBool, At, ScanNotice;
    var data := IdPart(id) + PutValue(v);
    IdPartAt(id, PutValue(v));
    NoNotice(id, PutValue(v));
    if Admissible(v) {
      PayloadAt(id, data, 7, v);
    } else if ScanString(data, 7).Hit? {
      ScanStringExact(data, 7, ScanString(data, 7).value, ScanString(data, 7).next);
    }
  }

  lemma NoNotice(id: int32, rest: RawData)
    ensures ScanNotice(IdPart(id) + rest).Miss?
  {
    assert (IdPart(id) + rest)[..2] == "#r";
    assert (IdPart(id) + rest)[1] == 'r';
  }

  lemma PayloadAt(id: int32, data: RawData, i: nat, v: Value)
    requires Admissible(v) && At(data, i, PutValue(v))
    ensures ScanPayload(id, data, i) == Decoded(id, v)
  {
    hide PutValue, At, IntOf, ScanInt, ScanDouble, ScanString, ScanBool;
    ScanValueAt(data, i, v);
    TagOfValue(data, i, v);
    OtherTagsMiss(data, i);
  }

  lemma OtherTagsMiss(data: RawData, i: nat)
    requires i < |data|
    ensures data[i] != 'b' ==> ScanBool(data, i).Miss?
    ensures data[i] != 'i' ==> ScanInt(data, i).Miss?
    ensures data[i] != 'd' ==> ScanDouble(data, i).Miss?
    ensures data[i] != 's' ==> ScanString(data, i).Miss?
  {
  }

  lemma TagOfValue(data: RawData, i: nat, v: Value)
    requires At(data, i, PutValue(v))
    ensures i < |data|
    ensures match v
            case IntV(_) => data[i] == 'i'
            case DoubleV(_) => data[i] == 'd'
            case BoolV(_) => data[i] == 'b'
            case TextV(_) => data[i] == 's'
  {
    assert data[i] == data[i..i + |PutValue(v)|][0];
  }

  /** A callback that ran: the request it belongs to and what it saw. */
  datatype Fired = Fired(id: int32, seen: Observation)

  function Without(requests: map<int32, ClientRequest>, id: int32): map<int32, ClientRequest> {
    map k | k in requests && k != id :: requests[k]
  }

  // `requests_[id] = request`, unless the id is taken.
  function Added(requests: map<int32, ClientRequest>, id: int32, request: ClientRequest): map<int32, ClientRequest> {
    if id in requests then requests else requests[id := request]
  }

  /** The part of a client that responses change: the requests, the callbacks that ran, and the handles. */
  datatype Table = Table(requests: map<int32, ClientRequest>, fired: seq<Fired>, handles: seq<int32>)

  // Running the success callback of a request.
  function Notify(t: Table, id: int32, callback: Callback, v: Value): Table {
    if callback.NoCallback? then t
    else
      t.(fired := t.fired + [Fired(id, Observe(callback, v))],
         handles := if callback.OnCreate? && v.IntV? then Registered(t.handles, v.x) else t.handles)
  }

  /** A response fires the callback of its own request and removes that request; a response for a
   *  request that is not in the table, such as a repeated one, changes nothing. */
  function Deliver(t: Table, d: Decoded): Table {
    match d
    case Decoded(id, v) =>
      if id in t.requests
      then Notify(t.(requests := Without(t.requests, id)), id, t.requests[id].callback, v) else t
    case Notice(h) => t.(handles := Registered(t.handles, h))
    case _ => t
  }

  // Each callback has fired at most once, and only for a request that has left the table.
  ghost predicate Conserved(t: Table, last: nat) {
    && (forall id :: id in t.requests ==> 1 <= id <= last)
    && (forall f :: f in t.fired ==> 1 <= f.id <= last && f.id !in t.requests)
    && (forall i, j :: 0 <= i < j < |t.fired| ==> t.fired[i].id != t.fired[j].id)
  }

  /** Whatever a message decodes to, delivering it keeps the table conserved and the handles
   *  distinct; delivering it again changes nothing. */
  lemma DeliverConserves(t: Table, last: nat, d: Decoded)
    requires Conserved(t, last)
    ensures Conserved(Deliver(t, d), last)
    ensures Distinct(t.handles) ==> Distinct(Deliver(t, d).handles)
    ensures Deliver(Deliver(t, d), d) == Deliver(t, d)
    ensures Deliver(t, d).requests.Keys == t.requests.Keys - (if d.Decoded? then {d.id} else {})
  {
    hide Observe;
  }

  class ResponseParser {
    var requests: map<int32, ClientRequest>
    var fired: seq<Fired>
    const repository: ClassRepository

    function View(): Table
      reads this, repository
    {
      Table(requests, fired, repository.handles)
    }

    constructor (repository: ClassRepository)
      ensures requests == map[] && fired == [] && this.repository == repository
    {
      this.repository := repository;
      requests, fired := map[], [];
    }

    method RegisterRequest(id: int32, request: ClientRequest) returns (added: bool)
      modifies this`requests
      ensures added <==> id !in old(requests)
      ensures requests == Added(old(requests), id, request)
    {
      if id in requests {
        return false;
      }
      requests := requests[id := request];
      return true;
    }

    method ParseNotice(data: RawData) returns (ok: bool)
      requires !ScanNotice(data).Fault?
      modifies repository
      ensures ok <==> ScanNotice(data).Hit?
      ensures repository.handles
           == if ok then Registered(old(repository.handles), ScanNotice(data).value) else old(repository.handles)
    {
      if data == [] || data[0] != '#' {
        return false;
      }
      var gotName, name, j := ParseString(data, 1);
      if !gotName || name != CLASS_NAME {
        return false;
      }
      if |data| < j + 2 || data[j] != '#' || data[j + 1] != 'i' {
        return false;
      }
      var gotHandle, handle, k := ParseInt(data, j + 2);
      if !gotHandle {
        return false;
      }
      var _ := repository.RegisterClassHandle(handle);
      return true;
    }

    method HandleSuccess(id: int32, request: ClientRequest, value: Value)
      modifies this`fired, repository
      ensures View() == Notify(old(View()), id, request.callback, value)
    {
      if request.callback.NoCallback? {
        return;
      }
      if request.callback.OnCreate? && value.IntV? {
        var _ := repository.RegisterClassHandle(value.x);
      }
      fired := fired + [Fired(id, Observe(request.callback, value))];
    }

    method ParseResponse(data: RawData) returns (ok: bool)
      requires !ScanResponse(data).DecodeFault?
      modifies this`requests, this`fired, repository
      ensures ok <==> !ScanResponse(data).Unparsed?
      ensures View() == Deliver(old(View()), ScanResponse(data))
    {
      var id, idx := ParseRequestId(data);
      var isNotice := ParseNotice(data);
      if isNotice {
        return true;
      }
      var value: Value;
      var isBool, b, i := ParseBool(data, idx);
      if isBool {
        value := BoolV(b);
      } else {
        var isInt, x, j := ParseInt(data, idx);
        if isInt {
          value := IntV(x);
        } else {
          var isDouble, d, k := ParseDouble(data, idx);
          if isDouble {
            value := DoubleV(d);
          } else {
            var isString, s, l := ParseString(data, idx);
            if isString {
              value := TextV(s);
            } else {
              return false;
            }
          }
        }
      }
      assert ScanResponse(data) == Decoded(id, value);
      if id in requests {
        HandleSuccess(id, requests[id], value);
        requests := Without(requests, id);
      }
      return true;
    }
  }
}
