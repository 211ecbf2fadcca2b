/** The byte-level server refines the sequential object store. */
module ServerCorrect {
  import opened Wire
  import opened DataSerializer
  import opened DataDeserializer
  import opened CustomClasses
  import opened ClassRegistries
  import opened Requests
  import opened Framing
  import opened ServerParser
  import opened ObjectStore

  ghost predicate Represents(r: Registry, store: Store) {
    && WellFormed(r)
    && r.counter == |store|
    && forall h :: 0 <= h < |store| ==> r.objs[h] == store[h]
  }

  // ---------- reading the parts of a request ----------

  lemma ClassPartLength()
    ensures |ClassPart()| == 24
  {
  }

  lemma ClassPartAt(data: RawData, i: nat, rest: RawData)
    requires At(data, i, ClassPart() + rest)
    ensures i < |data| && data[i] == '#'
    ensures ScanString(data, i + 1) == Hit(CLASS_NAME, i + 24)
    ensures At(data, i + 24, rest)
  {
    hide PutString, ScanString;
    AtInside(data, i, ClassPart(), rest);
    AtInside(data, i, "#", PutString(CLASS_NAME));
    AtTag(data, i, '#');
    ScanStringExact(data, i + 1, CLASS_NAME, i + 24);
  }

  /** `ParseCreateClass` recognises exactly "#c", "#c" int and "#c" int string with nothing after. */
  lemma ScanCreateExact(data: RawData, i: nat, args: CtorArgs, n: nat)
    ensures ScanCreate(data, i) == Hit(args, n)
       <==> Encodable(Create(args)) && At(data, i, "#c" + PutArgs(args))
            && n == |data| == i + 2 + |PutArgs(args)|
  {
    hide PutInt, PutString, ScanInt, ScanString;
    AtInside(data, i, "#c", PutArgs(args));
    KeywordIsAt(data, i, 'c');
    match args
    case NoArgs =>
      assert At(data, i + 2, []) <==> i + 2 <= |data|;
      if ScanInt(data, i + 2).Hit? {
        ScanIntExact(data, i + 2, ScanInt(data, i + 2).value, ScanInt(data, i + 2).next);
      }
    case OneArg(x) =>
      ScanIntExact(data, i + 2, x, i + 7);
      if ScanInt(data, i + 2).Hit? {
        ScanIntExact(data, i + 2, ScanInt(data, i + 2).value, ScanInt(data, i + 2).next);
      }
    case TwoArgs(x, s) =>
      AtInside(data, i + 2, PutInt(x), PutString(s));
      ScanIntExact(data, i + 2, x, i + 7);
      ScanStringExact(data, i + 7, s, i + 13 + |s|);
      if ScanInt(data, i + 2).Hit? {
        var j := ScanInt(data, i + 2).next;
        ScanIntExact(data, i + 2, ScanInt(data, i + 2).value, j);
        if ScanString(data, j).Hit? {
          ScanStringExact(data, j, ScanString(data, j).value, ScanString(data, j).next);
        }
      }
  }

  // ---------- running a request ----------

  lemma HashIsNoValue(data: RawData, i: nat)
    requires i < |data| && data[i] == '#'
    ensures ScanInt(data, i).Miss? && ScanDouble(data, i).Miss? && ScanString(data, i).Miss?
  {
  }

  // A request on an object reaches that object, with the cursor after the handle.
  lemma HandlePartAt(r: Registry, data: RawData, i: nat, handle: int32, rest: RawData, self: Address)
    requires At(data, i, ClassPart() + (PutInt(handle) + rest))
    ensures RunCustom(r, data, i, self) == RunOnHandle(r, handle, data, i + 29)
    ensures At(data, i + 29, rest)
  {
    hide ClassPart, PutInt, ScanString, ScanInt, RunOnHandle;
    ClassPartAt(data, i, PutInt(handle) + rest);
    AtInside(data, i + 24, PutInt(handle), rest);
    ScanIntExact(data, i + 24, handle, i + 29);
    assert ScanCreate(data, i + 24).Miss? by {
      hide At;
      TagOfInt(data, i + 24, handle);
    }
  }

  lemma TagOfInt(data: RawData, i: nat, x: int32)
    requires ScanInt(data, i).Hit?
    ensures i < |data| && data[i] == 'i'
  {
  }

  lemma MethodPartAt(data: RawData, i: nat, name: RawData, args: RawData)
    requires At(data, i, "#m" + (PutString(name) + args)) && |name| <= INT_MAX
    ensures Keyword(data, i, 'm')
    ensures ScanString(data, i + 2) == Hit(name, i + 8 + |name|)
    ensures At(data, i + 8 + |name|, args)
  {
    hide PutString, ScanString;
    KeywordAt(data, i, 'm', PutString(name) + args);
    AtInside(data, i + 2, PutString(name), args);
    ScanStringExact(data, i + 2, name, i + 8 + |name|);
  }

  lemma CallRefines(r: Registry, store: Store, cmd: Command, data: RawData, i: nat, self: Address)
    requires Represents(r, store) && Encodable(cmd)
    requires HasHandle(cmd) && !cmd.Retrieve? && 0 <= cmd.handle < |store|
    requires At(data, i, MethodPart(cmd))
    ensures var (store', result) := Execute(store, cmd, self);
            var out := RunOnHandle(r, cmd.handle, data, i);
            && out.Outcome? && out.ok && Represents(out.reg, store')
            && out.data == if result.Silent? then [] else PutValue(ValueOf(result))
  {
    hide At, PutString, ScanString, PutInt, ScanInt;
    var o := r.objs[cmd.handle];
    match cmd
    case PrintToCout(h) =>
      MethodPartAt(data, i, PRINT_TO_COUT, []);
    case PrintToString(h) =>
      MethodPartAt(data, i, PRINT_TO_STRING, []);
    case SetInteger(h, x) =>
      MethodPartAt(data, i, SET_INTEGER_VALUE, PutInt(x));
      ScanIntExact(data, i + 8 + |SET_INTEGER_VALUE|, x, i + 13 + |SET_INTEGER_VALUE|);
    case SetString(h, s) =>
      MethodPartAt(data, i, SET_STRING_VALUE, PutString(s));
      ScanStringExact(data, i + 8 + |SET_STRING_VALUE|, s, i + 14 + |SET_STRING_VALUE| + |s|);
  }

  lemma RetrieveRefines(r: Registry, store: Store, h: int32, data: RawData, i: nat)
    requires Represents(r, store) && 0 <= h < |store|
    requires At(data, i, "#g" + [])
    ensures RunOnHandle(r, h, data, i) == Outcome(true, r, PutString(FieldBytes(store[h].ival, store[h].str)))
  {
    hide PutString, FieldBytes, At, ScanString;
    KeywordAt(data, i, 'g', []);
  }

  // What follows the handle in a method call.
  function MethodPart(cmd: Command): RawData
    requires HasHandle(cmd) && !cmd.Retrieve?
  {
    match cmd
    case PrintToCout(_) => "#m" + (PutString(PRINT_TO_COUT) + [])
    case PrintToString(_) => "#m" + (PutString(PRINT_TO_STRING) + [])
    case SetInteger(_, x) => "#m" + (PutString(SET_INTEGER_VALUE) + PutInt(x))
    case SetString(_, s) => "#m" + (PutString(SET_STRING_VALUE) + PutString(s))
  }

  lemma CreateRefines(r: Registry, store: Store, args: CtorArgs, data: RawData, i: nat, self: Address)
    requires Represents(r, store) && Encodable(Create(args))
    requires At(data, i, ClassPart() + ("#c" + PutArgs(args))) && |data| == i + |ClassPart() + ("#c" + PutArgs(args))|
    ensures var out := RunCustom(r, data, i, self);
            if |store| >= INT_MAX then out.Crash? else
            && out.Outcome? && out.ok && Represents(out.reg, store + [Construct(self, args)])
            && out.data == PutInt(Narrow(|store|))
  {
    hide At, PutInt, PutArgs, ScanString, ScanCreate;
    ClassPartAt(data, i, "#c" + PutArgs(args));
    ScanCreateExact(data, i + 24, args, |data|);
    assert |ClassPart()| == 24;
  }

  /** For every registry and every command a client can build, interpreting the bytes of the
   *  command changes the registry as one step of the object store does, and the response
   *  carries that step's result under the request's id. No read leaves the message; the only
   *  fault is the overflow of the handle counter. */
  lemma ServeRefines(r: Registry, store: Store, id: int32, cmd: Command, self: Address)
    requires Represents(r, store) && Encodable(cmd)
    ensures Serve(r, Frame(id, cmd), self).Served? <==> (cmd.Create? ==> |store| < INT_MAX)
    ensures var (store', result) := Execute(store, cmd, self);
            var out := Serve(r, Frame(id, cmd), self);
            out.Served? ==>
              && (out.ok <==> Live(store, cmd))
              && Represents(out.reg, store')
              && Answer(out.response) == Replies(id, result)
  {
    hide At, IdPart, ClassPart, PutInt, PutDouble, PutString, ScanInt, ScanDouble, ScanString, RunCustom, RunOnHandle,
         ScanRequestId, FieldBytes;
    var data := Frame(id, cmd);
    IdPartAt(id, Encode(cmd));
    match cmd
    case SendInt(x) => ScanIntExact(data, 7, x, 12);
    case SendDouble(d) => ScanDoubleExact(data, 7, d, 16); TagsDiffer(data, 7);
    case SendText(s) => ScanStringExact(data, 7, s, 13 + |s|); TagsDiffer(data, 7);
    case Create(args) =>
      ClassPartAt(data, 7, "#c" + PutArgs(args));
      HashIsNoValue(data, 7);
      CreateRefines(r, store, args, data, 7, self);
    case Retrieve(h) =>
      ClassPartAt(data, 7, PutInt(h) + "#g");
      HashIsNoValue(data, 7);
      HandlePartAt(r, data, 7, h, "#g", self);
      if 0 <= h < |store| {
        assert "#g" + [] == "#g";
        RetrieveRefines(r, store, h, data, 36);
      } else {
        DanglingHandle(r, store, h, data, 36);
      }
    case _ =>
      ClassPartAt(data, 7, PutInt(cmd.handle) + MethodPart(cmd));
      HashIsNoValue(data, 7);
      HandlePartAt(r, data, 7, cmd.handle, MethodPart(cmd), self);
      if 0 <= cmd.handle < |store| {
        CallRefines(r, store, cmd, data, 36, self);
      } else {
        DanglingHandle(r, store, cmd.handle, data, 36);
      }
  }

  // What a get on a new object answers, as bytes.
  function NewFields(args: CtorArgs): RawData {
    match args
    case NoArgs => PutInt(0) + PutString("")
    case OneArg(x) => PutInt(x) + PutString("")
    case TwoArgs(x, s) => PutInt(x) + PutString(s)
  }

  /** A create followed by a get on its handle, byte for byte: the create answers the next handle, and
   *  the get answers the fields that the create carried, or zero and the empty string. */
  lemma CreateThenGet(r: Registry, store: Store, id: int32, args: CtorArgs, self: Address, id': int32, self': Address)
    requires Represents(r, store) && Encodable(Create(args)) && |store| < INT_MAX
    ensures var created := Serve(r, Frame(id, Create(args)), self);
            && created.Served? && created.ok
            && Answer(created.response) == [IdPart(id) + PutInt(|store|)]
            && var got := Serve(created.reg, Frame(id', Retrieve(|store|)), self');
               && got.Served? && got.ok
               && Answer(got.response) == [IdPart(id') + PutString(NewFields(args))]
               && Represents(got.reg, store + [Obj(self, FirstField(args), SecondField(args))])
  {
    hide Serve, Frame, IdPart, PutInt, PutString;
    ServeRefines(r, store, id, Create(args), self);
    var created := Serve(r, Frame(id, Create(args)), self);
    ServeRefines(created.reg, store + [Construct(self, args)], id', Retrieve(|store|), self');
  }

  function FirstField(args: CtorArgs): int32 {
    match args
    case NoArgs => 0
    case OneArg(x) => x
    case TwoArgs(x, _) => x
  }

  function SecondField(args: CtorArgs): RawData {
    match args
    case NoArgs => ""
    case OneArg(_) => ""
    case TwoArgs(_, s) => s
  }

  lemma DanglingHandle(r: Registry, store: Store, h: int32, data: RawData, i: nat)
    requires Represents(r, store) && !(0 <= h < |store|)
    ensures RunOnHandle(r, h, data, i) == Outcome(false, r, [])
  {
  }

  lemma TagsDiffer(data: RawData, i: nat)
    ensures ScanDouble(data, i).Hit? ==> ScanInt(data, i).Miss?
    ensures ScanString(data, i).Hit? ==> ScanInt(data, i).Miss? && ScanDouble(data, i).Miss?
  {
  }

  // ---------- arbitrary bytes ----------

  // The command that the ordered dispatch reads out of a message, however malformed.
  function Reading(data: RawData): Option<Command> {
    match ScanRequestId(data)
    case Fault => None
    case Hit(_, i) =>
      if ScanInt(data, i).Hit? then Some(SendInt(ScanInt(data, i).value))
      else if ScanDouble(data, i).Hit? then Some(SendDouble(ScanDouble(data, i).value))
      else if ScanString(data, i).Hit? then Some(SendText(ScanString(data, i).value))
      else if i < |data| && data[i] == '#' then ReadingOfClass(data, i + 1)
      else None
  }

  function ReadingOfClass(data: RawData, i: nat): Option<Command> {
    match ScanString(data, i)
    case Hit(name, j) =>
      if name != CLASS_NAME then None
      else
        (match ScanCreate(data, j)
         case Hit(args, _) => Some(Create(args))
         case Fault => None
         case Miss =>
           match ScanInt(data, j)
           case Fault => None
           case Miss => ReadingOfCall(data, 0, j)
           case Hit(h, k) => ReadingOfCall(data, h, k))
    case _ => None
  }

  function ReadingOfCall(data: RawData, h: int32, i: nat): Option<Command> {
    if Keyword(data, i, 'm') then
      match ScanString(data, i + 2)
      case Hit(name, j) =>
        if name == PRINT_TO_COUT then Some(PrintToCout(h))
        else if name == PRINT_TO_STRING then Some(PrintToString(h))
        else if name == SET_INTEGER_VALUE then
          if ScanInt(data, j).Hit? then Some(SetInteger(h, ScanInt(data, j).value)) else ReadingOfGet(data, h, j)
        else if name == SET_STRING_VALUE then
          if ScanString(data, j).Hit? then Some(SetString(h, ScanString(data, j).value)) else ReadingOfGet(data, h, j)
        else None
      case _ => None
    else ReadingOfGet(data, h, i)
  }

  function ReadingOfGet(data: RawData, h: int32, i: nat): Option<Command> {
    if Keyword(data, i, 'g') then Some(Retrieve(h)) else None
  }

  function ExecuteReading(store: Store, reading: Option<Command>, self: Address): (Store, Result) {
    match reading
    case None => (store, Silent)
    case Some(cmd) => Execute(store, cmd, self)
  }

  /** Whatever bytes arrive, as long as they cause no fault, the server performs at most one
   *  step of the object store, that of the command it reads, and answers under the id it reads. */
  lemma ServeAnyBytes(r: Registry, store: Store, data: RawData, self: Address)
    requires Represents(r, store) && Serve(r, data, self).Served?
    ensures var (store', result) := ExecuteReading(store, Reading(data), self);
            var out := Serve(r, data, self);
            && Represents(out.reg, store')
            && Answer(out.response) == Replies(ScanRequestId(data).value, result)
  {
    hide ScanInt, ScanDouble, ScanString, ScanRequestId, ScanCreate, Keyword, PutInt, PutString, FieldBytes,
         IdPart, RunOnHandle, Execute, ReadingOfCall;
    var i := ScanRequestId(data).next;
    if ScanInt(data, i).Miss? && ScanDouble(data, i).Miss? && ScanString(data, i).Miss? {
      var out := RunCustom(r, data, i, self);
      if i < |data| && data[i] == '#' && ScanString(data, i + 1).Hit?
         && ScanString(data, i + 1).value == CLASS_NAME {
        var j := ScanString(data, i + 1).next;
        match ScanCreate(data, j)
        case Hit(args, _) => CreateAnyBytes(r, store, args, self);
        case Miss =>
          if ScanInt(data, j).Hit? {
            CallAnyBytes(r, store, data, ScanInt(data, j).value, ScanInt(data, j).next, self);
          } else {
            CallAnyBytes(r, store, data, 0, j, self);
          }
        case Fault =>
      }
    } else {
      SendAnyBytes(store, Reading(data), self);
    }
  }

  lemma SendAnyBytes(store: Store, reading: Option<Command>, self: Address)
    requires reading.Some? && !HasHandle(reading.value) && !reading.value.Create?
    ensures ExecuteReading(store, reading, self) == (store, Silent)
  {
  }

  lemma CreateAnyBytes(r: Registry, store: Store, args: CtorArgs, self: Address)
    requires Represents(r, store) && |store| < INT_MAX
    ensures Execute(store, Create(args), self) == (store + [Construct(self, args)], Handle(|store|))
    ensures Represents(WithNew(r, Construct(self, args)), store + [Construct(self, args)])
    ensures PutInt(r.counter) == PutValue(ValueOf(Handle(|store|)))
  {
  }

  lemma CallAnyBytes(r: Registry, store: Store, data: RawData, h: int32, i: nat, self: Address)
    requires Represents(r, store) && RunOnHandle(r, h, data, i).Outcome?
    ensures var (store', result) := ExecuteReading(store, ReadingOfCall(data, h, i), self);
            var out := RunOnHandle(r, h, data, i);
            && Represents(out.reg, store')
            && (!out.ok ==> result.Silent?)
            && out.data == if result.Silent? then [] else PutValue(ValueOf(result))
  {
    hide ScanInt, ScanString, Keyword, FieldBytes, PutInt;
    if 0 <= h < |store| {
      assert r.objs[h] == store[h];
    }
  }

  // The interpreter leaves the message on its way through these bytes.
  predicate Overruns(r: Registry, data: RawData) {
    match ScanRequestId(data)
    case Fault => true
    case Hit(_, i) =>
      || ScanInt(data, i).Fault? || ScanDouble(data, i).Fault? || ScanString(data, i).Fault?
      || (i < |data| && data[i] == '#' && OverrunsInClass(r, data, i + 1))
  }

  predicate OverrunsInClass(r: Registry, data: RawData, i: nat) {
    match ScanString(data, i)
    case Fault => true
    case Miss => false
    case Hit(name, j) =>
      && name == CLASS_NAME
      && (ScanCreate(data, j).Fault? || (ScanCreate(data, j).Miss? && OverrunsOnObject(r, data, j)))
  }

  predicate OverrunsOnObject(r: Registry, data: RawData, j: nat) {
    match ScanInt(data, j)
    case Fault => true
    case Miss => 0 in r.objs && OverrunsInCall(data, j)
    case Hit(h, k) => h in r.objs && OverrunsInCall(data, k)
  }

  predicate OverrunsInCall(data: RawData, i: nat) {
    Keyword(data, i, 'm') &&
    match ScanString(data, i + 2)
    case Fault => true
    case Miss => false
    case Hit(name, j) =>
      || (name == SET_INTEGER_VALUE && ScanInt(data, j).Fault?)
      || (name == SET_STRING_VALUE && ScanString(data, j).Fault?)
  }

  /** Exactly which bytes the server has no defined behaviour on: those that a reader leaves, and a create
   *  when there is no handle left. */
  lemma ServeFaultsExactly(r: Registry, data: RawData, self: Address)
    ensures Serve(r, data, self).ServerFault?
       <==> Overruns(r, data) || (r.counter >= INT_MAX && Reading(data).Some? && Reading(data).value.Create?)
  {
    hide ScanRequestId, ScanInt, ScanDouble, ScanString, ScanCreate, Keyword, PutInt, PutString, FieldBytes,
         RunOnHandle, ReadingOfCall, OverrunsInCall;
    if ScanRequestId(data).Hit? {
      TagsExclude(data, ScanRequestId(data).next);
    }
    forall h: int32, k ensures RunOnHandle(r, h, data, k).Crash? <==> h in r.objs && OverrunsInCall(data, k) {
      CallFaultsExactly(r, h, data, k);
    }
    forall h: int32, k ensures ReadingOfCall(data, h, k).Some? ==> !ReadingOfCall(data, h, k).value.Create? {
      CallIsNoCreate(data, h, k);
    }
  }

  lemma TagsExclude(data: RawData, i: nat)
    ensures ScanInt(data, i).Hit? ==> ScanDouble(data, i).Miss? && ScanString(data, i).Miss? && data[i] != '#'
    ensures ScanDouble(data, i).Hit? ==> ScanInt(data, i).Miss? && ScanString(data, i).Miss? && data[i] != '#'
    ensures ScanString(data, i).Hit? ==> ScanInt(data, i).Miss? && ScanDouble(data, i).Miss? && data[i] != '#'
    ensures i >= |data| ==> ScanInt(data, i).Fault?
  {
  }

  lemma CallFaultsExactly(r: Registry, h: int32, data: RawData, k: nat)
    ensures RunOnHandle(r, h, data, k).Crash? <==> h in r.objs && OverrunsInCall(data, k)
  {
    hide ScanInt, ScanString, Keyword, PutString, FieldBytes, PrintText;
  }

  lemma CallIsNoCreate(data: RawData, h: int32, k: nat)
    ensures ReadingOfCall(data, h, k).Some? ==> !ReadingOfCall(data, h, k).value.Create?
  {
    hide ScanInt, ScanString, Keyword;
  }

  // A plain value, or a message for the class that creates an object or names one that exists.
  predicate Acceptable(r: Registry, data: RawData, i: nat) {
    || ScanInt(data, i).Hit? || ScanDouble(data, i).Hit? || ScanString(data, i).Hit?
    || (i < |data| && data[i] == '#' && ScanString(data, i + 1).Hit? && ScanString(data, i + 1).value == CLASS_NAME
        && var j := ScanString(data, i + 1).next;
           || ScanCreate(data, j).Hit?
           || (if ScanInt(data, j).Hit? then ScanInt(data, j).value in r.objs else 0 in r.objs))
  }

  /** Exactly which bytes the server accepts. One that it does not accept changes nothing and is not
   *  answered. */
  lemma AcceptsExactly(r: Registry, data: RawData, self: Address)
    requires Serve(r, data, self).Served?
    ensures Serve(r, data, self).ok <==> Acceptable(r, data, ScanRequestId(data).next)
    ensures !Serve(r, data, self).ok ==> Serve(r, data, self) == Served(false, r, NO_RESPONSE)
  {
    hide ScanRequestId, ScanInt, ScanDouble, ScanString, ScanCreate, Keyword, PutInt, PutString, FieldBytes, RunCall;
  }

  /** The dispatch recovers exactly the command that a client encoded. */
  lemma ReadingOfFrame(id: int32, cmd: Command)
    requires Encodable(cmd)
    ensures ScanRequestId(Frame(id, cmd)) == Hit(id, 7)
    ensures Reading(Frame(id, cmd)) == Some(cmd)
  {
    hide At, IdPart, ClassPart, PutInt, PutDouble, PutString, ScanInt, ScanDouble, ScanString, ScanRequestId,
         ScanCreate, PutArgs, Keyword;
    var data := Frame(id, cmd);
    IdPartAt(id, Encode(cmd));
    match cmd
    case SendInt(x) => ScanIntExact(data, 7, x, 12);
    case SendDouble(d) => ScanDoubleExact(data, 7, d, 16); TagsDiffer(data, 7);
    case SendText(s) => ScanStringExact(data, 7, s, 13 + |s|); TagsDiffer(data, 7);
    case Create(args) =>
      ClassPartAt(data, 7, "#c" + PutArgs(args));
      HashIsNoValue(data, 7);
      ClassPartLength();
      ScanCreateExact(data, 31, args, |data|);
    case Retrieve(h) =>
      HandleReadingAt(data, 7, h, "#g");
      assert "#g" + [] == "#g";
      KeywordAt(data, 36, 'g', []);
    case _ =>
      HandleReadingAt(data, 7, cmd.handle, MethodPart(cmd));
      MethodReadingAt(data, 36, cmd);
  }

  lemma HandleReadingAt(data: RawData, i: nat, handle: int32, rest: RawData)
    requires At(data, i, ClassPart() + (PutInt(handle) + rest))
    ensures i < |data| && data[i] == '#'
    ensures ScanInt(data, i).Miss? && ScanDouble(data, i).Miss? && ScanString(data, i).Miss?
    ensures ReadingOfClass(data, i + 1) == ReadingOfCall(data, handle, i + 29)
    ensures At(data, i + 29, rest)
  {
    hide ClassPart, PutInt, ScanString, ScanInt, ReadingOfCall, ScanDouble;
    ClassPartAt(data, i, PutInt(handle) + rest);
    HashIsNoValue(data, i);
    AtInside(data, i + 24, PutInt(handle), rest);
    ScanIntExact(data, i + 24, handle, i + 29);
    assert ScanCreate(data, i + 24).Miss? by {
      hide At;
      TagOfInt(data, i + 24, handle);
    }
  }

  lemma MethodReadingAt(data: RawData, i: nat, cmd: Command)
    requires HasHandle(cmd) && !cmd.Retrieve? && Encodable(cmd)
    requires At(data, i, MethodPart(cmd))
    ensures ReadingOfCall(data, cmd.handle, i) == Some(cmd)
  {
    hide At, PutString, ScanString, PutInt, ScanInt, Keyword;
    match cmd
    case PrintToCout(h) =>
      MethodPartAt(data, i, PRINT_TO_COUT, []);
    case PrintToString(h) =>
      MethodPartAt(data, i, PRINT_TO_STRING, []);
    case SetInteger(h, x) =>
      MethodPartAt(data, i, SET_INTEGER_VALUE, PutInt(x));
      ScanIntExact(data, i + 8 + |SET_INTEGER_VALUE|, x, i + 13 + |SET_INTEGER_VALUE|);
    case SetString(h, s) =>
      MethodPartAt(data, i, SET_STRING_VALUE, PutString(s));
      ScanStringExact(data, i + 8 + |SET_STRING_VALUE|, s, i + 14 + |SET_STRING_VALUE| + |s|);
  }

  /** Distinct requests have distinct bytes. */
  lemma UniqueDecoding(id: int32, cmd: Command, id': int32, cmd': Command)
    requires Encodable(cmd) && Encodable(cmd')
    ensures Frame(id, cmd) == Frame(id', cmd') <==> id == id' && cmd == cmd'
  {
    hide Frame, Reading, ScanRequestId;
    ReadingOfFrame(id, cmd);
    ReadingOfFrame(id', cmd');
  }

  // ---------- requests that name no handle ----------

  // A message for the class that is no create, and has no handle where one belongs.
  predicate NamesNoHandle(data: RawData) {
    ScanRequestId(data).Hit? && NoHandleAt(data, ScanRequestId(data).next)
  }

  predicate NoHandleAt(data: RawData, i: nat) {
    && i < |data| && data[i] == '#'
    && ScanString(data, i + 1).Hit? && ScanString(data, i + 1).value == CLASS_NAME
    && ScanCreate(data, ScanString(data, i + 1).next).Miss?
    && ScanInt(data, ScanString(data, i + 1).next).Miss?
  }

  /** Such a message is rejected if and only if there is no object 0. If there is one, the message
   *  acts on that object, as far as it can be read. */
  lemma MissingHandleMeansZero(r: Registry, data: RawData, self: Address)
    requires NamesNoHandle(data)
    ensures 0 !in r.objs ==> Serve(r, data, self) == Served(false, r, NO_RESPONSE)
    ensures 0 in r.objs && Serve(r, data, self).Served? ==> Serve(r, data, self).ok
    ensures Reading(data).Some? ==> HasHandle(Reading(data).value) && Reading(data).value.handle == 0
  {
    hide ScanRequestId, ScanString, ScanCreate, Keyword, FieldBytes, PutString, RunCall;
    HashIsNoValue(data, ScanRequestId(data).next);
  }

  // What follows the handle in a request on an object.
  function InstancePart(cmd: Command): RawData
    requires HasHandle(cmd)
  {
    if cmd.Retrieve? then "#g" + [] else MethodPart(cmd)
  }

  // The request for a command on an object, with the handle left out.
  function Handleless(id: int32, cmd: Command): RawData
    requires HasHandle(cmd)
  {
    IdPart(id) + (ClassPart() + InstancePart(cmd))
  }

  /** Every method call and every get without a handle does what the same request does on handle 0:
   *  it prints, changes or returns object 0, and it is rejected exactly if there is none. */
  lemma HandlelessRefines(r: Registry, store: Store, id: int32, cmd: Command, self: Address)
    requires Represents(r, store) && Encodable(cmd) && HasHandle(cmd) && cmd.handle == 0
    ensures Handleless(id, cmd) != Frame(id, cmd) && NamesNoHandle(Handleless(id, cmd))
    ensures var (store', result) := Execute(store, cmd, self);
            var out := Serve(r, Handleless(id, cmd), self);
            && out.Served? && (out.ok <==> 0 in r.objs)
            && Represents(out.reg, store')
            && Answer(out.response) == Replies(id, result)
  {
    hide At, IdPart, ClassPart, PutInt, PutString, ScanInt, ScanDouble, ScanString, ScanRequestId, ScanCreate,
         FieldBytes, RunOnHandle, MethodPart, Keyword;
    var data := Handleless(id, cmd);
    IdPartAt(id, ClassPart() + InstancePart(cmd));
    ClassPartAt(data, 7, InstancePart(cmd));
    HashIsNoValue(data, 7);
    InstancePartAt(data, 31, cmd);
    HashIsNoValue(data, 31);
    assert RunCustom(r, data, 7, self) == RunOnHandle(r, 0, data, 31);
    if 0 < |store| {
      if cmd.Retrieve? {
        RetrieveRefines(r, store, 0, data, 31);
      } else {
        CallRefines(r, store, cmd, data, 31, self);
      }
    } else {
      DanglingHandle(r, store, 0, data, 31);
    }
    LongerFrame(id, cmd);
  }

  lemma InstancePartAt(data: RawData, i: nat, cmd: Command)
    requires HasHandle(cmd) && Encodable(cmd) && At(data, i, InstancePart(cmd))
    ensures i < |data| && data[i] == '#' && ScanCreate(data, i).Miss?
  {
    hide At, PutString, PutInt, ScanString, ScanInt;
    match cmd
    case Retrieve(_) => KeywordAt(data, i, 'g', []);
    case PrintToCout(_) => KeywordAt(data, i, 'm', PutString(PRINT_TO_COUT) + []);
    case PrintToString(_) => KeywordAt(data, i, 'm', PutString(PRINT_TO_STRING) + []);
    case SetInteger(_, x) => KeywordAt(data, i, 'm', PutString(SET_INTEGER_VALUE) + PutInt(x));
    case SetString(_, s) => KeywordAt(data, i, 'm', PutString(SET_STRING_VALUE) + PutString(s));
  }

  lemma LongerFrame(id: int32, cmd: Command)
    requires HasHandle(cmd)
    ensures |Frame(id, cmd)| == |Handleless(id, cmd)| + 5
  {
    hide ClassPart, PutString;
  }
}
