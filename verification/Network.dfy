/** The whole system as a transition system: any number of clients, one server thread for each
 *  connection, one shared store. The shape of the system is generic in what the server keeps (S)
 *  and in what requests (Q) and responses (R) are, so that the same steps can run on bytes
 *  and on abstract messages. */
module Network {
  import opened Wire
  import opened DataSerializer
  import opened CustomClasses
  import opened Framing
  import opened Requests
  import opened ClassRepositories
  import opened ResponseParsers
  import opened DemoSimulator
  import opened ClientPipe
  import opened Client

  // Where the main thread of a client stands between two turns of its loop.
  datatype Phase =
    | Ready
    | Choosing(size: nat)       // has read the size of the handle list
    | Chosen(handle: int32)     // has read a handle from it
    | Awaiting(id: int32)       // blocked in a synchronous read
    | Disconnected              // a write failed
    | Stopped

  // The thread that holds the mutex of the response parser: it has found the request in the
  // table and, for a create callback, done the check but not yet the push.
  datatype Delivery = Delivery(id: int32, value: Value, isNew: bool)

  // A request that was given an id: the command, and the connection it was written to.
  datatype Sent = Sent(cmd: Command, link: nat)

  /** One client process. The id counter is the number of issued requests. */
  datatype Peer = Peer(
    policy: ExecutionPolicy,
    phase: Phase,
    link: nat,
    issued: seq<Sent>,
    pending: map<int32, Callback>,
    handles: seq<int32>,
    busy: Option<Delivery>,
    fired: seq<Fired>)

  /** One connection: whose it is, whether it still carries messages to and from the client, and
   *  whether its server thread is still running. */
  datatype Link = Link(owner: nat, live: bool, serving: bool)

  datatype State<S, Q, R> = State(
    server: S,
    peers: seq<Peer>,
    links: seq<Link>,
    requests: seq<seq<Q>>,      // written by the client, not yet read by the server, per connection
    responses: seq<seq<R>>,     // written by the server, not yet read, per connection
    arrived: seq<seq<R>>,       // read, but not yet parsed, per client
    crashed: bool)

  predicate Shaped<S, Q, R>(s: State<S, Q, R>) {
    && |s.requests| == |s.responses| == |s.links|
    && |s.arrived| == |s.peers|
    && (forall c :: 0 <= c < |s.peers| ==> s.peers[c].link < |s.links|)
    && (forall k :: 0 <= k < |s.links| ==> s.links[k].owner < |s.peers|)
  }

  datatype Event =
    | Send(c: nat, cmd: Command, noticed: bool)
    | Pick(c: nat)
    | Choose(c: nat, rand: nat)
    | Read(c: nat)
    | ReadFails(c: nat)
    | Repeat(c: nat, i: nat)
    | Begin(c: nat, i: nat)
    | Finish(c: nat)
    | Reconnect(c: nat)
    | Stop(c: nat)
    | Serve(k: nat, self: Address)
    | Drop(k: nat)
    | Quit(k: nat)

  // The server reads each request into a buffer of this size, in one piece.
  const READ_SIZE := 4096

  predicate Buildable(cmd: Command) {
    7 + |Encode(cmd)| <= READ_SIZE
  }

  /** Exactly the commands whose frame fits one read of the server. */
  lemma BuildableExactly(id: int32, cmd: Command)
    ensures Buildable(cmd) <==> |Frame(id, cmd)| <= 4096
  {
    hide Encode;
  }

  // ---------- the steps that look at messages, given what they found ----------

  predicate MaySend(p: Peer, cmd: Command) {
    && p.phase == (if HasHandle(cmd) then Chosen(cmd.handle) else Ready)
    && p.busy.None?             // registering takes the mutex
    && Buildable(cmd)
  }

  predicate CanSend(p: Peer, cmd: Command) {
    MaySend(p, cmd) && |p.issued| < INT_MAX
  }

  // `++request_id_counter_` overflows.
  predicate IdOverflows(p: Peer, cmd: Command) {
    MaySend(p, cmd) && |p.issued| >= INT_MAX
  }

  function NextId(p: Peer): int32
    requires |p.issued| < INT_MAX
  {
    |p.issued| + 1
  }

  // Number and register a request, then write it. A write to a dead connection fails, but an
  // asynchronous one may only fail later, unnoticed.
  function SendPeer(p: Peer, live: bool, cmd: Command, noticed: bool): Peer
    requires |p.issued| < INT_MAX
  {
    var id := NextId(p);
    p.(phase :=
         (if !live then (if p.policy.Sync? || noticed then Disconnected else Ready)
          else if p.policy.Sync? && Waits(cmd) then Awaiting(id) else Ready),
       issued := p.issued + [Sent(cmd, p.link)],
       pending := if id in p.pending then p.pending else p.pending[id := CallbackOf(cmd)])
  }

  function SendOn<S, Q, R>(s: State<S, Q, R>, c: nat, cmd: Command, noticed: bool, q: Q): State<S, Q, R>
    requires Shaped(s) && c < |s.peers| && CanSend(s.peers[c], cmd)
  {
    var p := s.peers[c];
    var live := s.links[p.link].live;
    s.(peers := s.peers[c := SendPeer(p, live, cmd, noticed)],
       requests := if live then s.requests[p.link := s.requests[p.link] + [q]] else s.requests)
  }

  predicate CanServe<S, Q, R>(s: State<S, Q, R>, k: nat)
    requires Shaped(s)
  {
    k < |s.links| && s.links[k].serving && s.requests[k] != []
  }

  // The first request of connection k leaves the server in `server` and is answered by
  // `replies`, at most one. If the client is gone, writing fails and the thread ends.
  function ServeOn<S, Q, R>(s: State<S, Q, R>, k: nat, server: S, replies: seq<R>): State<S, Q, R>
    requires Shaped(s) && CanServe(s, k)
  {
    var s' := s.(server := server, requests := s.requests[k := s.requests[k][1..]]);
    if |replies| == 0 then s'
    else if s.links[k].live then s'.(responses := s.responses[k := s.responses[k] + replies])
    else s'.(links := s.links[k := s.links[k].(serving := false)])
  }

  predicate CanBegin<S, Q, R>(s: State<S, Q, R>, c: nat, i: nat)
    requires Shaped(s)
  {
    c < |s.peers| && i < |s.arrived[c]| && s.peers[c].busy.None?
  }

  function Remove<T>(xs: seq<T>, i: nat): seq<T>
    requires i < |xs|
  {
    xs[..i] + xs[i + 1..]
  }

  // ParseResponse up to the check of the callback; `d` is what the bytes decode to.
  function BeginOn<S, Q, R>(s: State<S, Q, R>, c: nat, i: nat, d: Decoded): State<S, Q, R>
    requires Shaped(s) && CanBegin(s, c, i)
  {
    var p := s.peers[c];
    var s' := s.(arrived := s.arrived[c := Remove(s.arrived[c], i)]);
    var done := p.(phase := Returned(p));
    match d
    case DecodeFault => s'.(crashed := true)
    case Unparsed => s'.(peers := s.peers[c := done])
    case Notice(h) => s'.(peers := s.peers[c := done.(handles := Registered(p.handles, h))])
    case Decoded(id, v) =>
      if id !in p.pending then s'.(peers := s.peers[c := done])
      else
        var isNew := p.pending[id].OnCreate? && v.IntV? && v.x !in p.handles;
        s'.(peers := s.peers[c := p.(busy := Some(Delivery(id, v, isNew)))])
  }

  // A blocking caller goes on with its loop once ParseResponse returns.
  function Returned(p: Peer): Phase {
    if p.policy.Sync? && p.phase.Awaiting? then Ready else p.phase
  }

  // ---------- the other steps ----------

  // The push of a create callback, the erasure from the table, and the release of the mutex.
  function FinishPeer(p: Peer): Peer
    requires p.busy.Some? && p.busy.value.id in p.pending
  {
    var d := p.busy.value;
    var callback := p.pending[d.id];
    p.(phase := Returned(p),
       handles := if d.isNew && d.value.IntV? then p.handles + [d.value.x] else p.handles,
       pending := p.pending - {d.id},
       busy := None,
       fired := if callback.NoCallback? then p.fired else p.fired + [Fired(d.id, Observe(callback, d.value))])
  }

  function PickPeer(p: Peer): Peer {
    if p.phase != Ready || |p.handles| == 0 then p else p.(phase := Choosing(|p.handles|))
  }

  function ChoosePeer(p: Peer, rand: nat): Option<Peer> {
    if !p.phase.Choosing? then Some(p)
    else
      match Choice(p.phase.size, p.handles, rand)
      case None => None
      case Some(h) => Some(p.(phase := if h == -1 then Ready else Chosen(h)))
  }

  predicate CanRead<S, Q, R>(s: State<S, Q, R>, c: nat)
    requires Shaped(s)
  {
    c < |s.peers| &&
    var p := s.peers[c];
    && s.links[p.link].live && s.responses[p.link] != []
    && (p.policy.Sync? ==> p.phase.Awaiting? && s.arrived[c] == [] && p.busy.None?)
  }

  function ReadOn<S, Q, R>(s: State<S, Q, R>, c: nat): State<S, Q, R>
    requires Shaped(s) && CanRead(s, c)
  {
    var k := s.peers[c].link;
    s.(responses := s.responses[k := s.responses[k][1..]],
       arrived := s.arrived[c := s.arrived[c] + [s.responses[k][0]]])
  }

  predicate CanFailRead<S, Q, R>(s: State<S, Q, R>, c: nat)
    requires Shaped(s)
  {
    c < |s.peers| &&
    var p := s.peers[c];
    p.policy.Sync? && p.phase.Awaiting? && !s.links[p.link].live && s.arrived[c] == [] && p.busy.None?
  }

  function WithPeer<S, Q, R>(s: State<S, Q, R>, c: nat, p: Peer): State<S, Q, R>
    requires c < |s.peers|
  {
    s.(peers := s.peers[c := p])
  }

  function ReconnectOn<S, Q, R>(s: State<S, Q, R>, c: nat): State<S, Q, R>
    requires c < |s.peers|
  {
    s.(peers := s.peers[c := s.peers[c].(phase := Ready, link := |s.links|)],
       links := s.links + [Link(c, true, true)],
       requests := s.requests + [[]],
       responses := s.responses + [[]])
  }

  function DropOn<S, Q, R>(s: State<S, Q, R>, k: nat): State<S, Q, R>
    requires Shaped(s) && k < |s.links|
  {
    s.(links := s.links[k := s.links[k].(live := false)], responses := s.responses[k := []])
  }

  /** The steps that are the same whatever messages are. A step that is not enabled does nothing. */
  function PlainStep<S, Q, R>(s: State<S, Q, R>, e: Event): State<S, Q, R>
    requires Shaped(s)
  {
    match e
    case Pick(c) => if c < |s.peers| then WithPeer(s, c, PickPeer(s.peers[c])) else s
    case Choose(c, rand) =>
      if c >= |s.peers| then s
      else
        (match ChoosePeer(s.peers[c], rand)
         case Some(p) => WithPeer(s, c, p)
         case None => s.(crashed := true))  // index out of range
    case Read(c) => if CanRead(s, c) then ReadOn(s, c) else s
    case ReadFails(c) => if CanFailRead(s, c) then WithPeer(s, c, s.peers[c].(phase := Ready)) else s
    case Repeat(c, i) =>
      if c < |s.peers| && s.peers[c].policy.Async? && i < |s.arrived[c]|
      then s.(arrived := s.arrived[c := s.arrived[c] + [s.arrived[c][i]]]) else s
    case Finish(c) =>
      if c < |s.peers| && s.peers[c].busy.Some? && s.peers[c].busy.value.id in s.peers[c].pending then
        var d := s.peers[c].busy.value;
        var s' := WithPeer(s, c, FinishPeer(s.peers[c]));
        if Observe(s.peers[c].pending[d.id], d.value) == Broken then s'.(crashed := true) else s'
      else s
    case Reconnect(c) => if c < |s.peers| && s.peers[c].phase.Disconnected? then ReconnectOn(s, c) else s
    case Stop(c) =>
      if c < |s.peers| && (s.peers[c].phase.Ready? || s.peers[c].phase.Disconnected?)
      then WithPeer(s, c, s.peers[c].(phase := Stopped)) else s
    case Drop(k) => if k < |s.links| then DropOn(s, k) else s
    case Quit(k) =>
      if k < |s.links| && !s.links[k].live
      then s.(links := s.links[k := s.links[k].(serving := false)]) else s
    case _ => s
  }

  // Every client starts on a connection of its own.
  function Start<S, Q, R>(server: S, policies: seq<ExecutionPolicy>): State<S, Q, R> {
    var n := |policies|;
    State(
      server,
      seq(n, c requires 0 <= c < n => Peer(policies[c], Ready, c, [], map[], [], None, [])),
      seq(n, c requires 0 <= c < n => Link(c, true, true)),
      seq(n, c => []), seq(n, c => []), seq(n, c => []),
      false)
  }

  lemma PlainStepShaped<S, Q, R>(s: State<S, Q, R>, e: Event)
    requires Shaped(s)
    ensures Shaped(PlainStep(s, e))
  {
  }

  // ---------- the steps of one client are those of its methods ----------

  // The peer stands for this state of the client's parser and repository.
  ghost predicate Stands(p: Peer, t: Table) {
    && p.pending.Keys == t.requests.Keys
    && (forall id :: id in p.pending ==> p.pending[id] == t.requests[id].callback)
    && p.fired == t.fired && p.handles == t.handles
  }

  /** The two steps of a delivery, with nothing in between, are one call of
   *  `ResponseParser.ParseResponse`. */
  lemma DeliveryIsParseResponse<S, Q, R>(s: State<S, Q, R>, c: nat, i: nat, d: Decoded, t: Table)
    requires Shaped(s) && CanBegin(s, c, i) && !d.DecodeFault? && Stands(s.peers[c], t)
    ensures var s1 := BeginOn(s, c, i, d);
            var found := d.Decoded? && d.id in s.peers[c].pending;
            var p' := (if found then PlainStep(s1, Finish(c)) else s1).peers[c];
            Stands(p', Deliver(t, d)) && p'.busy.None? && p'.phase == Returned(s.peers[c])
  {
    hide Observe;
  }

  // The process is where client c of the system is, before a send.
  ghost predicate Mirrors<S>(s: State<S, RawData, RawData>, c: nat, process: Process)
    requires Shaped(s) && c < |s.peers|
  {
    var p := s.peers[c];
    && Stands(p, process.table) && process.counter == |p.issued|
    && process.accepted == s.requests[p.link]
    && Next(process.writes) == if s.links[p.link].live then Written else NoData
  }

  // The client may send a command, and the process is about to do the same.
  ghost predicate AboutToSend<S>(s: State<S, RawData, RawData>, c: nat, cmd: Command, process: Process) {
    && Shaped(s) && c < |s.peers| && CanSend(s.peers[c], cmd) && Mirrors(s, c, process)
    && (HasHandle(cmd) ==> cmd.handle != -1)
  }

  function AfterSend<S>(s: State<S, RawData, RawData>, c: nat, cmd: Command, noticed: bool)
    : (s': State<S, RawData, RawData>)
    requires Shaped(s) && c < |s.peers| && CanSend(s.peers[c], cmd)
    ensures Shaped(s') && |s'.peers| == |s.peers|
  {
    SendOn(s, c, cmd, noticed, Frame(NextId(s.peers[c]), cmd))
  }

  /** A send is one turn of `Client.Start` up to the wait for the reply: the same id, table and
   *  frame, and a client that has to wait for the reply is left waiting for that id. */
  lemma SendIsSubmit<S>(s: State<S, RawData, RawData>, c: nat, cmd: Command, noticed: bool, process: Process)
    requires AboutToSend(s, c, cmd, process)
    ensures var p := s.peers[c];
            var s' := AfterSend(s, c, cmd, noticed);
            var sent := Turn(p.policy, process.(replies := []), RequestOf(cmd));
            var p' := s'.peers[c];
            && Stands(p', sent.table) && sent.counter == |p'.issued|
            && sent.accepted == s'.requests[p.link]
            && (p'.phase.Awaiting? <==> p.policy.Sync? && s.links[p.link].live && Waits(cmd))
            && (p'.phase.Awaiting? ==> p'.phase.id == sent.counter)
            && (!p'.phase.Awaiting? ==> Stands(p', Turn(p.policy, process, RequestOf(cmd)).table))
  {
    hide Encode, Buildable, IdPart, Waits, CallbackOf, RequestOf, Deliver;
    RequestExactly(cmd);
    TurnWaits(s.peers[c].policy, process, RequestOf(cmd));
  }

  /** Read, parse and finish, with nothing in between, are what a blocking client does with a reply in
   *  `ExecuteRequestSync`: it reassembles the message from its chunks, delivers it, and goes on. */
  lemma ReplyIsTaken<S>(s: State<S, RawData, RawData>, c: nat, process: Process)
    requires Shaped(s) && CanRead(s, c) && s.peers[c].policy.Sync?
    requires Stands(s.peers[c], process.table) && process.replies == s.responses[s.peers[c].link]
    requires !ScanResponse(s.responses[s.peers[c].link][0]).DecodeFault?
    ensures var p := s.peers[c];
            var m := s.responses[p.link][0];
            && Reassembled(Chunks(m), true) == Some(m)
            && CanBegin(PlainStep(s, Read(c)), c, |s.arrived[c]|)
            && var s' := ReadAndDeliver(s, c);
               && Stands(s'.peers[c], TakeReply(process).table) && s'.peers[c].phase == Ready
               && s'.responses[p.link] == TakeReply(process).replies
  {
    hide ScanResponse, Deliver, Stands, Chunks, Reassembled, Observe;
    var p := s.peers[c];
    var m := s.responses[p.link][0];
    ChunksReassemble(m);
    DeliveryIsParseResponse(PlainStep(s, Read(c)), c, 0, ScanResponse(m), process.table);
  }

  // Client c reads one message, parses it and finishes its delivery, with nothing in between.
  function ReadAndDeliver<S>(s: State<S, RawData, RawData>, c: nat): (s': State<S, RawData, RawData>)
    requires Shaped(s) && CanRead(s, c) && s.peers[c].busy.None?
    ensures Shaped(s') && |s'.peers| == |s.peers| && |s'.responses| == |s.responses|
  {
    var s1 := ReadOn(s, c);
    var d := ScanResponse(s.responses[s.peers[c].link][0]);
    var s2 := BeginOn(s1, c, |s.arrived[c]|, d);
    BeginKeepsShape(s1, c, |s.arrived[c]|, d);
    FinishKeepsShape(s2, c);
    PlainStep(s2, Finish(c))
  }

  lemma BeginKeepsShape<S, Q, R>(s: State<S, Q, R>, c: nat, i: nat, d: Decoded)
    requires Shaped(s) && CanBegin(s, c, i)
    ensures var s' := BeginOn(s, c, i, d);
            Shaped(s') && |s'.peers| == |s.peers| && s'.responses == s.responses
  {
  }

  lemma FinishKeepsShape<S, Q, R>(s: State<S, Q, R>, c: nat)
    requires Shaped(s)
    ensures var s' := PlainStep(s, Finish(c));
            Shaped(s') && |s'.peers| == |s.peers| && s'.responses == s.responses
  {
    hide Observe;
  }

  /** A whole turn of a blocking client that has to wait: a send, whatever the others do until the reply is
   *  there, and then read, parse and finish, leave a client that stands for that one turn of the
   *  loop, with its reply taken. */
  lemma WaitingTurnIsSteps<S>(s: State<S, RawData, RawData>, later: State<S, RawData, RawData>, c: nat, cmd: Command,
                              noticed: bool, process: Process)
    requires AboutToSend(s, c, cmd, process)
    requires s.peers[c].policy.Sync? && s.links[s.peers[c].link].live && Waits(cmd)
    requires Shaped(later) && c < |later.peers| && later.peers[c] == AfterSend(s, c, cmd, noticed).peers[c]
    requires CanRead(later, c) && process.replies == later.responses[later.peers[c].link]
    requires !ScanResponse(process.replies[0]).DecodeFault?
    ensures var turn := Turn(Sync, process, RequestOf(cmd));
            var s' := ReadAndDeliver(later, c);
            && Stands(s'.peers[c], turn.table) && s'.peers[c].phase == Ready
            && s'.responses[later.peers[c].link] == turn.replies == process.replies[1..]
  {
    hide ScanResponse, Deliver, Encode, RequestOf, Stands, Turn, TakeReply, Waits, AfterSend, CanSend, ReadAndDeliver;
    SendIsSubmit(s, c, cmd, noticed, process);
    SentPeer(s, c, cmd, noticed);
    RequestExactly(cmd);
    TurnWaits(Sync, process, RequestOf(cmd));
    var sent := Turn(Sync, process.(replies := []), RequestOf(cmd)).(replies := process.replies);
    ReplyIsTaken(later, c, sent);
    TakenReplies(sent);
  }

  lemma TakenReplies(p: Process)
    requires p.replies != []
    ensures TakeReply(p).replies == p.replies[1..]
  {
  }

  lemma SentPeer<S>(s: State<S, RawData, RawData>, c: nat, cmd: Command, noticed: bool)
    requires Shaped(s) && c < |s.peers| && CanSend(s.peers[c], cmd)
    ensures var s' := AfterSend(s, c, cmd, noticed);
            && s'.links == s.links
            && s'.peers[c].link == s.peers[c].link && s'.peers[c].policy == s.peers[c].policy
            && (!s.links[s.peers[c].link].live && noticed ==>
                  s'.peers[c].phase == Disconnected && s'.requests == s.requests)
  {
    hide MaySend, Frame, Waits, CallbackOf;
  }

  /** Read, parse and finish are what an asynchronous client does when a read under way ends. In particular,
   *  a response for a request in the table takes it out and fires its callback, and the handle of
   *  a create is registered. */
  lemma CompletionIsTaken<S>(s: State<S, RawData, RawData>, c: nat, process: Process)
    requires Shaped(s) && CanRead(s, c) && s.peers[c].policy.Async? && s.peers[c].busy.None?
    requires Stands(s.peers[c], process.table) && process.readings > 0
    requires !ScanResponse(s.responses[s.peers[c].link][0]).DecodeFault?
    ensures var p := s.peers[c];
            var m := s.responses[p.link][0];
            var process' := Complete(process, ReadDone(m));
            var p' := ReadAndDeliver(s, c).peers[c];
            && Stands(p', process'.table) && process'.readings == process.readings - 1 && p'.phase == p.phase
            && match ScanResponse(m)
               case Decoded(id, v) =>
                 && id !in process'.table.requests
                 && (id in process.table.requests && !process.table.requests[id].callback.NoCallback? ==>
                       var callback := process.table.requests[id].callback;
                       && process'.table.fired == process.table.fired + [Fired(id, Observe(callback, v))]
                       && (callback.OnCreate? && v.IntV? ==> v.x in process'.table.handles))
                 && (id !in process.table.requests ==> process'.table == process.table)
               case _ =>
                 && process'.table.requests == process.table.requests
                 && process'.table.fired == process.table.fired
  {
    hide ScanResponse, Observe, Stands;
    var m := s.responses[s.peers[c].link][0];
    DeliveryIsParseResponse(ReadOn(s, c), c, |s.arrived[c]|, ScanResponse(m), process.table);
    if !(ScanResponse(m).Decoded? && ScanResponse(m).id in s.peers[c].pending) {
      NothingToFinish(BeginOn(ReadOn(s, c), c, |s.arrived[c]|, ScanResponse(m)), c);
    }
    StandsKeys(s.peers[c], process.table);
  }

  lemma NothingToFinish<S, Q, R>(s: State<S, Q, R>, c: nat)
    requires Shaped(s) && c < |s.peers| && s.peers[c].busy.None?
    ensures PlainStep(s, Finish(c)) == s
  {
  }

  lemma StandsKeys(p: Peer, t: Table)
    requires Stands(p, t)
    ensures p.pending.Keys == t.requests.Keys
  {
  }

  /** A write that fails because the server closed the pipe, and the reconnect after it, are a pass through
   *  the loop: the request keeps its id and its place in the table, nothing is written, and the
   *  client is ready on a new connection exactly if connecting succeeds. */
  lemma ReconnectIsPass<S>(s: State<S, RawData, RawData>, c: nat, cmd: Command, process: Process)
    requires AboutToSend(s, c, cmd, process) && !s.links[s.peers[c].link].live
    ensures var (process', goesOn) := Pass(s.peers[c].policy, process, RequestOf(cmd));
            && (goesOn <==> exists i :: 0 <= i < 100 && Connects(process.connects, i))
            && process'.connected == goesOn
            && var s1 := AfterSend(s, c, cmd, true);
               && s1.peers[c].phase == Disconnected && s1.requests == s.requests
               && var s2 := PlainStep(s1, if goesOn then Reconnect(c) else Stop(c));
                  && c < |s2.peers|
                  && Stands(s2.peers[c], process'.table) && process'.counter == |s2.peers[c].issued|
                  && (if goesOn then s2.peers[c].phase == Ready && s2.peers[c].link == |s.links|
                      else s2.peers[c].phase == Stopped)
  {
    hide Encode, RequestOf, Turn, Pass, Waits, Connects, Stands, AfterSend, CanSend, AfterAttempt, PlainStep;
    SendIsSubmit(s, c, cmd, true, process);
    SentPeer(s, c, cmd, true);
    RequestExactly(cmd);
    PassExactly(s.peers[c].policy, process, RequestOf(cmd));
    TurnWaits(s.peers[c].policy, process, RequestOf(cmd));
    var s1 := AfterSend(s, c, cmd, true);
    var goesOn := Pass(s.peers[c].policy, process, RequestOf(cmd)).1;
    AfterDisconnect(s1, c, goesOn);
    SameStands(s1.peers[c], PlainStep(s1, if goesOn then Reconnect(c) else Stop(c)).peers[c]);
  }

  lemma AfterDisconnect<S, Q, R>(s: State<S, Q, R>, c: nat, goesOn: bool)
    requires Shaped(s) && c < |s.peers| && s.peers[c].phase.Disconnected?
    ensures var s' := PlainStep(s, if goesOn then Reconnect(c) else Stop(c));
            && c < |s'.peers|
            && s'.peers[c] == if goesOn then s.peers[c].(phase := Ready, link := |s.links|)
                              else s.peers[c].(phase := Stopped)
  {
  }

  lemma SameStands(p: Peer, p': Peer)
    requires p' == p.(phase := p'.phase, link := p'.link)
    ensures forall t :: Stands(p, t) <==> Stands(p', t)
  {
  }
}
