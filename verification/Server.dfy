/** One server thread: it reads the requests of one connection and writes the responses. */
module Server {
  import opened Wire
  import opened DataSerializer
  import opened CustomClasses
  import opened ClassRegistries
  import opened Requests
  import opened Framing
  import opened ServerParser
  import opened ObjectStore
  import opened ServerCorrect

  /** The server's end of a connection. `inbox` are the messages it will still get to read before
   *  reading fails; `room` is how many more writes succeed. */
  class PipeEnd {
    var inbox: seq<RawData>
    var outbox: seq<RawData>
    var room: nat

    method ReadFile() returns (success: bool, message: RawData)
      modifies this`inbox
      ensures success <==> old(inbox) != []
      ensures success ==> message == old(inbox)[0] && inbox == old(inbox)[1..]
      ensures !success ==> inbox == []
    {
      if inbox == [] {
        return false, [];
      }
      success, message := true, inbox[0];
      inbox := inbox[1..];
    }

    method WriteFile(message: RawData) returns (success: bool)
      modifies this`outbox, this`room
      ensures success <==> old(room) > 0
      ensures success ==> outbox == old(outbox) + [message] && room == old(room) - 1
      ensures !success ==> outbox == old(outbox) && room == old(room)
    {
      if room == 0 {
        return false;
      }
      outbox, room := outbox + [message], room - 1;
      return true;
    }
  }

  // A message that another thread serves, and the address that an object it creates would get.
  datatype Aside<M> = Aside(message: M, self: Address)

  /** What one turn of the loop finds around it: whether the server is closed when the turn begins,
   *  what other threads serve until its own message is parsed, and the address for a new object. */
  datatype Turn<M> = Turn(closed: bool, others: seq<Aside<M>>, self: Address)

  function ServeAside(r: Registry, others: seq<Aside<RawData>>): Option<Registry>
    decreases |others|
  {
    if others == [] then Some(r)
    else
      match Serve(r, others[0].message, others[0].self)
      case ServerFault => None
      case Served(_, r', _) => ServeAside(r', others[1..])
  }

  /** What one thread sees of the registry and writes back over its whole life. */
  datatype Session = Session(reg: Registry, sent: seq<RawData>) | SessionFault

  function ServeAll(r: Registry, inbox: seq<RawData>, room: nat, turns: seq<Turn<RawData>>): Session
    requires |turns| == |inbox|
    decreases |inbox|
  {
    if inbox == [] || turns[0].closed then Session(r, [])
    else
      match ServeAside(r, turns[0].others)
      case None => SessionFault
      case Some(r1) =>
        if inbox[0] == [] then Session(r1, [])  // an empty read ends the thread, too
        else
          match Serve(r1, inbox[0], turns[0].self)
          case ServerFault => SessionFault
          case Served(_, r', response) =>
            if response.data == [] then ServeAll(r', inbox[1..], room, turns[1..])
            else if room == 0 then Session(r', [])
            else Sent(IdPart(response.requestId) + response.data, ServeAll(r', inbox[1..], room - 1, turns[1..]))
  }

  function Sent(message: RawData, rest: Session): Session {
    match rest
    case SessionFault => SessionFault
    case Session(r, sent) => Session(r, [message] + sent)
  }

  method SendResponseToClient(pipe: PipeEnd, response: ServerResponse) returns (success: bool)
    modifies pipe`outbox, pipe`room
    ensures success <==> old(pipe.room) > 0
    ensures success ==> pipe.outbox == old(pipe.outbox) + [IdPart(response.requestId) + response.data]
    ensures success ==> pipe.room == old(pipe.room) - 1
    ensures !success ==> pipe.outbox == old(pipe.outbox)
  {
    var dataToSend := CreateRequestIdData(response.requestId);
    dataToSend := dataToSend + response.data;
    success := pipe.WriteFile(dataToSend);
  }

  // What other threads do to the registry while this one waits for its next message.
  method OtherThreads(registry: ClassRegistry, others: seq<Aside<RawData>>)
    requires registry.Valid() && ServeAside(registry.View(), others).Some?
    modifies registry, registry.instances.Values
    ensures registry.Valid() && fresh(registry.instances.Values - old(registry.instances.Values))
    ensures Some(registry.View()) == ServeAside(old(registry.View()), others)
  {
    hide Serve;
    var rest := others;
    while rest != []
      invariant registry.Valid()
      invariant fresh(registry.instances.Values - old(registry.instances.Values))
      invariant ServeAside(registry.View(), rest) == ServeAside(old(registry.View()), others)
      decreases |rest|
    {
      var _, _ := ParseRequest(registry, rest[0].message, rest[0].self);
      rest := rest[1..];
    }
  }

  method HandleClientConnection(registry: ClassRegistry, pipe: PipeEnd, turns: seq<Turn<RawData>>)
    requires registry.Valid() && |turns| == |pipe.inbox|
    requires !ServeAll(registry.View(), pipe.inbox, pipe.room, turns).SessionFault?
    modifies registry, registry.instances.Values, pipe
    ensures registry.Valid()
    ensures var session := ServeAll(old(registry.View()), old(pipe.inbox), old(pipe.room), turns);
            registry.View() == session.reg && pipe.outbox == old(pipe.outbox) + session.sent
  {
    hide Serve, ServeAside, IdPart;
    var rest := turns;
    ghost var sent: seq<RawData> := [];
    ghost var all := ServeAll(registry.View(), pipe.inbox, pipe.room, turns);
    while rest == [] || !rest[0].closed
      invariant registry.Valid() && |rest| == |pipe.inbox|
      invariant fresh(registry.instances.Values - old(registry.instances.Values))
      invariant pipe.outbox == old(pipe.outbox) + sent
      invariant all == Before(sent, ServeAll(registry.View(), pipe.inbox, pipe.room, rest))
      decreases |pipe.inbox|
    {
      var success, data := pipe.ReadFile();
      if !success {
        return;
      }
      OtherThreads(registry, rest[0].others);
      if data == [] {
        return;
      }
      var _, response := ParseRequest(registry, data, rest[0].self);
      rest := rest[1..];
      if response.data != [] {
        var done := SendResponseToClient(pipe, response);
        if !done {
          return;
        }
        ghost var message := IdPart(response.requestId) + response.data;
        SentBefore(sent, message, ServeAll(registry.View(), pipe.inbox, pipe.room, rest));
        sent := sent + [message];
      }
    }
  }

  ghost function Before(sent: seq<RawData>, rest: Session): Session {
    match rest
    case SessionFault => SessionFault
    case Session(r, more) => Session(r, sent + more)
  }

  lemma SentBefore(sent: seq<RawData>, message: RawData, rest: Session)
    ensures Before(sent, Sent(message, rest)) == Before(sent + [message], rest)
  {
    if rest.Session? {
      assert sent + ([message] + rest.sent) == sent + [message] + rest.sent;
    }
  }

  // ---------- what a whole session means ----------

  datatype Request = Request(id: int32, cmd: Command)

  function Frames(requests: seq<Request>): (r: seq<RawData>)
    ensures |r| == |requests|
  {
    if requests == [] then [] else [Frame(requests[0].id, requests[0].cmd)] + Frames(requests[1..])
  }

  function FrameAsides(others: seq<Aside<Request>>): seq<Aside<RawData>> {
    if others == [] then []
    else [Aside(Frame(others[0].message.id, others[0].message.cmd), others[0].self)] + FrameAsides(others[1..])
  }

  function FrameTurns(turns: seq<Turn<Request>>): (r: seq<Turn<RawData>>)
    ensures |r| == |turns|
  {
    if turns == [] then []
    else [Turn(turns[0].closed, FrameAsides(turns[0].others), turns[0].self)] + FrameTurns(turns[1..])
  }

  function ExecuteAside(store: Store, others: seq<Aside<Request>>): Store
    decreases |others|
  {
    if others == [] then store
    else ExecuteAside(Execute(store, others[0].message.cmd, others[0].self).0, others[1..])
  }

  function ExecuteAll(store: Store, requests: seq<Request>, room: nat, turns: seq<Turn<Request>>): (Store, seq<RawData>)
    requires |turns| == |requests|
    decreases |requests|
  {
    if requests == [] || turns[0].closed then (store, [])
    else
      var (store', result) := Execute(ExecuteAside(store, turns[0].others), requests[0].cmd, turns[0].self);
      if result.Silent? then ExecuteAll(store', requests[1..], room, turns[1..])
      else if room == 0 then (store', [])
      else
        var (last, replies) := ExecuteAll(store', requests[1..], room - 1, turns[1..]);
        (last, [Reply(requests[0].id, result)] + replies)
  }

  // No more objects than this can be created in the given turns.
  function Load(turns: seq<Turn<Request>>): nat {
    if turns == [] then 0 else |turns[0].others| + 1 + Load(turns[1..])
  }

  predicate AllEncodable(others: seq<Aside<Request>>) {
    forall o :: o in others ==> Encodable(o.message.cmd)
  }

  lemma {:induction false} AsideRefines(r: Registry, store: Store, others: seq<Aside<Request>>)
    requires Represents(r, store) && |store| + |others| <= INT_MAX && AllEncodable(others)
    ensures var r' := ServeAside(r, FrameAsides(others));
            r'.Some? && Represents(r'.value, ExecuteAside(store, others))
    ensures |ExecuteAside(store, others)| <= |store| + |others|
    decreases |others|
  {
    hide Serve, Execute, Frame, Represents;
    if others != [] {
      var q := others[0].message;
      ServeRefines(r, store, q.id, q.cmd, others[0].self);
      StoreGrowth(store, q.cmd, others[0].self);
      AsideRefines(Serve(r, Frame(q.id, q.cmd), others[0].self).reg,
                   Execute(store, q.cmd, others[0].self).0, others[1..]);
      assert FrameAsides(others)[1..] == FrameAsides(others[1..]);
    }
  }

  /** A whole session of well-formed requests, with whatever other threads serve in between, is a run
   *  of the object store, with one reply for each result of its own that is not silent, in
   *  order, until the client stops accepting writes or the server closes. */
  lemma {:induction false} SessionRefines(r: Registry, store: Store, requests: seq<Request>, room: nat,
                                          turns: seq<Turn<Request>>)
    requires Represents(r, store) && |turns| == |requests|
    requires |store| + Load(turns) <= INT_MAX
    requires forall q :: q in requests ==> Encodable(q.cmd)
    requires forall t :: t in turns ==> AllEncodable(t.others)
    ensures var session := ServeAll(r, Frames(requests), room, FrameTurns(turns));
            var (store', replies) := ExecuteAll(store, requests, room, turns);
            session.Session? && Represents(session.reg, store') && session.sent == replies
    decreases |requests|
  {
    hide Serve, Execute, Frame, Represents, ServeAside, ExecuteAside, AllEncodable;
    if requests != [] && !turns[0].closed {
      var q, others, self := requests[0], turns[0].others, turns[0].self;
      AsideRefines(r, store, others);
      var r1, store1 := ServeAside(r, FrameAsides(others)).value, ExecuteAside(store, others);
      ServeRefines(r1, store1, q.id, q.cmd, self);
      StoreGrowth(store1, q.cmd, self);
      var r', store' := Serve(r1, Frame(q.id, q.cmd), self).reg, Execute(store1, q.cmd, self).0;
      SessionRefines(r', store', requests[1..], room, turns[1..]);
      if room > 0 {
        SessionRefines(r', store', requests[1..], room - 1, turns[1..]);
      }
      FrameIsNotEmpty(q.id, q.cmd);
      assert Frames(requests)[0] == Frame(q.id, q.cmd) && Frames(requests)[1..] == Frames(requests[1..]);
      assert FrameTurns(turns)[1..] == FrameTurns(turns[1..]);
    }
  }

  function ReadAside(store: Store, others: seq<Aside<RawData>>): Store
    decreases |others|
  {
    if others == [] then store
    else ReadAside(ExecuteReading(store, Reading(others[0].message), others[0].self).0, others[1..])
  }

  // The replies to a message, under the id that it carries.
  function RepliesTo(message: RawData, result: Result): seq<RawData> {
    match ScanRequestId(message)
    case Hit(id, _) => Replies(id, result)
    case Fault => []
  }

  function ReadAll(store: Store, inbox: seq<RawData>, room: nat, turns: seq<Turn<RawData>>): (Store, seq<RawData>)
    requires |turns| == |inbox|
    decreases |inbox|
  {
    if inbox == [] || turns[0].closed then (store, [])
    else
      var store1 := ReadAside(store, turns[0].others);
      var (store', result) := ExecuteReading(store1, Reading(inbox[0]), turns[0].self);
      if inbox[0] == [] then (store1, [])
      else if result.Silent? then ReadAll(store', inbox[1..], room, turns[1..])
      else if room == 0 then (store', [])
      else
        var (last, replies) := ReadAll(store', inbox[1..], room - 1, turns[1..]);
        (last, RepliesTo(inbox[0], result) + replies)
  }

  lemma {:induction false} AsideAnyBytes(r: Registry, store: Store, others: seq<Aside<RawData>>)
    requires Represents(r, store) && ServeAside(r, others).Some?
    ensures Represents(ServeAside(r, others).value, ReadAside(store, others))
    decreases |others|
  {
    hide Serve, ExecuteReading, Reading, Represents;
    if others != [] {
      ServeAnyBytes(r, store, others[0].message, others[0].self);
      AsideAnyBytes(Serve(r, others[0].message, others[0].self).reg,
                    ExecuteReading(store, Reading(others[0].message), others[0].self).0, others[1..]);
    }
  }

  /** A session of arbitrary bytes, as long as it causes no fault: a run of the store on the commands that
   *  are read from them, up to the first empty message. */
  lemma {:induction false} SessionAnyBytes(r: Registry, store: Store, inbox: seq<RawData>, room: nat,
                                           turns: seq<Turn<RawData>>)
    requires Represents(r, store) && |turns| == |inbox| && ServeAll(r, inbox, room, turns).Session?
    ensures var session := ServeAll(r, inbox, room, turns);
            var (store', replies) := ReadAll(store, inbox, room, turns);
            Represents(session.reg, store') && session.sent == replies
    decreases |inbox|
  {
    hide Serve, ExecuteReading, Reading, Represents, ServeAside, ReadAside, IdPart, PutValue;
    if inbox != [] && !turns[0].closed {
      AsideAnyBytes(r, store, turns[0].others);
      var r1, store1 := ServeAside(r, turns[0].others).value, ReadAside(store, turns[0].others);
      if inbox[0] != [] {
        ServeAnyBytes(r1, store1, inbox[0], turns[0].self);
        ServedHasId(r1, inbox[0], turns[0].self);
        var r' := Serve(r1, inbox[0], turns[0].self).reg;
        var (store', result) := ExecuteReading(store1, Reading(inbox[0]), turns[0].self);
        if result.Silent? {
          SessionAnyBytes(r', store', inbox[1..], room, turns[1..]);
        } else if room > 0 {
          SessionAnyBytes(r', store', inbox[1..], room - 1, turns[1..]);
        }
      }
    }
  }

  lemma ServedHasId(r: Registry, data: RawData, self: Address)
    requires Serve(r, data, self).Served?
    ensures ScanRequestId(data).Hit?
  {
    hide ServeBody, ScanRequestId;
  }

  /** An empty message ends the thread, once the others have done what they do meanwhile; an empty inbox
   *  or a closed server ends it at once. */
  lemma SessionEnds(r: Registry, inbox: seq<RawData>, room: nat, turns: seq<Turn<RawData>>)
    requires |turns| == |inbox|
    ensures inbox == [] || turns[0].closed ==> ServeAll(r, inbox, room, turns) == Session(r, [])
    ensures inbox != [] && !turns[0].closed && inbox[0] == [] ==>
              ServeAll(r, inbox, room, turns)
              == match ServeAside(r, turns[0].others)
                 case Some(r1) => Session(r1, [])
                 case None => SessionFault
  {
    hide Serve, ServeAside;
  }

  lemma FrameIsNotEmpty(id: int32, cmd: Command)
    ensures Frame(id, cmd) != []
  {
    hide Encode;
  }

  lemma StoreGrowth(store: Store, cmd: Command, self: Address)
    ensures |Execute(store, cmd, self).0| == |store| + if cmd.Create? then 1 else 0
  {
  }
}
