/** The system twice: on bytes, as it runs, and on messages, as it is meant. */
module Machines {
  import opened Wire
  import opened CustomClasses
  import opened ClassRegistries
  import opened Requests
  import opened ServerParser
  import opened ObjectStore
  import opened ServerCorrect
  import opened Server
  import opened ResponseParsers
  import opened Client
  import opened Network

  // ---------- the system on bytes ----------

  type ByteState = State<Registry, RawData, RawData>

  // A create needs a handle; every other request is served also when the handles are used up.
  predicate Creates(data: RawData) {
    Reading(data).Some? && Reading(data).value.Create?
  }

  predicate CanServeBytes(s: ByteState, k: nat)
    requires Shaped(s)
  {
    CanServe(s, k) && (Creates(s.requests[k][0]) ==> s.server.counter < INT_MAX)
  }

  function ByteStep(s: ByteState, e: Event): ByteState
    requires Shaped(s)
  {
    match e
    case Send(c, cmd, noticed) =>
      if c < |s.peers| && CanSend(s.peers[c], cmd)
      then SendOn(s, c, cmd, noticed, Frame(NextId(s.peers[c]), cmd))
      else if c < |s.peers| && IdOverflows(s.peers[c], cmd) then s.(crashed := true) else s
    case Serve(k, self) =>
      if CanServe(s, k) then
        (match ServerParser.Serve(s.server, s.requests[k][0], self)
         case ServerFault => s.(crashed := true)
         case Served(_, reg, response) => ServeOn(s, k, reg, Answer(response)))
      else s
    case Begin(c, i) =>
      if CanBegin(s, c, i) then BeginOn(s, c, i, ScanResponse(s.arrived[c][i])) else s
    case _ => PlainStep(s, e)
  }

  /** A serve step is one turn of the thread in `Server.HandleClientConnection` whose connection this is:
   *  the same registry and the same messages written, and the thread goes on with the rest of its
   *  queue unless it had to write to a client that is gone. */
  lemma ServeStepIsTurn(s: ByteState, k: nat, self: Address, rest: seq<Server.Turn<RawData>>)
    requires Shaped(s) && CanServe(s, k) && s.requests[k][0] != []
    requires |rest| == |s.requests[k]| - 1 && ServerParser.Serve(s.server, s.requests[k][0], self).Served?
    ensures var s' := ByteStep(s, Serve(k, self));
            var room := |s.requests[k]|;
            var turns := [Server.Turn(false, [], self)] + rest;
            var sent := Answer(ServerParser.Serve(s.server, s.requests[k][0], self).response);
            && s'.requests[k] == s.requests[k][1..]
            && (s.links[k].live ==> s'.responses[k] == s.responses[k] + sent)
            && (s'.links[k].serving <==> s.links[k].live || sent == [])
            && (s'.links[k].serving ==>
                  ServeAll(s.server, s.requests[k], room, turns)
                  == (if sent == [] then ServeAll(s'.server, s'.requests[k], room, rest)
                      else Server.Sent(sent[0], ServeAll(s'.server, s'.requests[k], room - 1, rest))))
            && (!s'.links[k].serving ==> ServeAll(s.server, s.requests[k], 0, turns) == Session(s'.server, []))
  {
    hide ServerParser.Serve;
    assert ([Server.Turn(false, [], self)] + rest)[1..] == rest;
  }

  // The events at which the code leaves defined behaviour: a counter passes INT_MAX.
  predicate Overflows(s: ByteState, e: Event)
    requires Shaped(s)
  {
    match e
    case Send(c, cmd, _) => c < |s.peers| && IdOverflows(s.peers[c], cmd)
    case Serve(k, _) => CanServe(s, k) && !CanServeBytes(s, k)
    case _ => false
  }

  // ---------- the system on messages ----------

  datatype Response = Response(id: int32, result: Result)

  datatype Key = Key(client: nat, id: int32)

  // One request the store has executed: whose, on which connection, and with what result.
  datatype Entry = Entry(client: nat, link: nat, id: int32, cmd: Command, self: Address, result: Result)

  /** The object store, with the history of what it executed and its results by request. */
  datatype Ledger = Ledger(store: Store, history: seq<Entry>, answers: map<Key, Result>)

  type SpecState = State<Ledger, Request, Response>

  function Enter(l: Ledger, client: nat, link: nat, q: Request, self: Address): Ledger {
    var (store, result) := Execute(l.store, q.cmd, self);
    Ledger(store,
           l.history + [Entry(client, link, q.id, q.cmd, self, result)],
           l.answers[Key(client, q.id) := result])
  }

  function ResultOf(l: Ledger, q: Request, self: Address): Result {
    Execute(l.store, q.cmd, self).1
  }

  predicate CanServeMessage(s: SpecState, k: nat)
    requires Shaped(s)
  {
    CanServe(s, k) && (s.requests[k][0].cmd.Create? ==> |s.server.store| < INT_MAX)
  }

  function SpecStep(s: SpecState, e: Event): SpecState
    requires Shaped(s)
  {
    match e
    case Send(c, cmd, noticed) =>
      if c < |s.peers| && CanSend(s.peers[c], cmd)
      then SendOn(s, c, cmd, noticed, Request(NextId(s.peers[c]), cmd))
      else if c < |s.peers| && IdOverflows(s.peers[c], cmd) then s.(crashed := true) else s
    case Serve(k, self) =>
      if CanServeMessage(s, k) then
        var q := s.requests[k][0];
        var result := ResultOf(s.server, q, self);
        ServeOn(s, k, Enter(s.server, s.links[k].owner, k, q, self),
                if result.Silent? then [] else [Response(q.id, result)])
      else if CanServe(s, k) then s.(crashed := true)  // no handle left for a create
      else s
    case Begin(c, i) =>
      if CanBegin(s, c, i) && !s.arrived[c][i].result.Silent?
      then BeginOn(s, c, i, Decoded(s.arrived[c][i].id, ValueOf(s.arrived[c][i].result))) else s
    case _ => PlainStep(s, e)
  }

  // ---------- runs ----------

  // Once it has left defined behaviour, the system does nothing that could be relied on.
  function ByteNext(s: ByteState, e: Event): ByteState
    requires Shaped(s)
  {
    if s.crashed then s else ByteStep(s, e)
  }

  function SpecNext(s: SpecState, e: Event): SpecState
    requires Shaped(s)
  {
    if s.crashed then s else SpecStep(s, e)
  }

  lemma ByteStepShaped(s: ByteState, e: Event)
    requires Shaped(s)
    ensures Shaped(ByteStep(s, e))
  {
    hide ServerParser.Serve, Reading, ScanResponse, Frame, Buildable;
    PlainStepShaped(s, e);
  }

  lemma SpecStepShaped(s: SpecState, e: Event)
    requires Shaped(s)
    ensures Shaped(SpecStep(s, e))
  {
    hide Execute, Buildable, ValueOf;
    PlainStepShaped(s, e);
  }

  function ByteRun(policies: seq<ExecutionPolicy>, events: seq<Event>): (s: ByteState)
    ensures Shaped(s)
  {
    if events == [] then Start(EMPTY_REGISTRY, policies)
    else
      var s' := ByteRun(policies, events[..|events| - 1]);
      ByteStepShaped(s', events[|events| - 1]);
      ByteNext(s', events[|events| - 1])
  }

  function SpecRun(policies: seq<ExecutionPolicy>, events: seq<Event>): (s: SpecState)
    ensures Shaped(s)
  {
    if events == [] then Start(Ledger([], [], map[]), policies)
    else
      var s' := SpecRun(policies, events[..|events| - 1]);
      SpecStepShaped(s', events[|events| - 1]);
      SpecNext(s', events[|events| - 1])
  }
}
