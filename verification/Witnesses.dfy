/** Concrete runs: the system does get somewhere, and the table does keep what does not wait. */
module Witnesses {
  import opened Wire
  import opened DataSerializer
  import opened CustomClasses
  import opened Requests
  import opened ObjectStore
  import opened ServerCorrect
  import opened Server
  import opened ResponseParsers
  import opened Client
  import opened Network
  import opened Machines
  import opened Invariant
  import opened Simulation
  import opened Theorems

  // A system with one blocking client on one live connection.
  predicate Lone(s: SpecState, p: Peer, qs: seq<Request>, rs: seq<Response>, arrived: seq<Response>) {
    && !s.crashed && |s.peers| == |s.links| == |s.requests| == |s.responses| == |s.arrived| == 1
    && s.peers[0] == p && s.links[0] == Link(0, true, true)
    && s.requests[0] == qs && s.responses[0] == rs && s.arrived[0] == arrived
  }

  function LonePeer(phase: Phase, cmd: Command, busy: Option<Delivery>): Peer {
    Peer(Sync, phase, 0, [Sent(cmd, 0)], map[1 := OnCreate], [], busy, [])
  }

  lemma LoneSend(s: SpecState, cmd: Command)
    requires Lone(s, Peer(Sync, Ready, 0, [], map[], [], None, []), [], [], []) && Shaped(s)
    requires Buildable(cmd) && cmd.Create?
    ensures var s' := SpecStep(s, Send(0, cmd, false));
            Lone(s', LonePeer(Awaiting(1), cmd, None), [Request(1, cmd)], [], []) && s'.server == s.server
  {
    hide Buildable;
  }

  lemma LoneServe(s: SpecState, args: CtorArgs, self: Address)
    requires Lone(s, LonePeer(Awaiting(1), Create(args), None), [Request(1, Create(args))], [], []) && Shaped(s)
    requires s.server.store == []
    ensures var s' := SpecStep(s, Serve(0, self));
            && Lone(s', LonePeer(Awaiting(1), Create(args), None), [], [Response(1, Handle(0))], [])
            && s'.server.store == [Construct(self, args)]
  {
    hide Construct;
  }

  lemma LoneRead(s: SpecState, cmd: Command)
    requires Lone(s, LonePeer(Awaiting(1), cmd, None), [], [Response(1, Handle(0))], []) && Shaped(s)
    ensures var s' := SpecStep(s, Read(0));
            Lone(s', LonePeer(Awaiting(1), cmd, None), [], [], [Response(1, Handle(0))]) && s'.server == s.server
  {
  }

  lemma LoneBegin(s: SpecState, cmd: Command)
    requires Lone(s, LonePeer(Awaiting(1), cmd, None), [], [], [Response(1, Handle(0))]) && Shaped(s)
    ensures var s' := SpecStep(s, Begin(0, 0));
            && Lone(s', LonePeer(Awaiting(1), cmd, Some(Delivery(1, IntV(0), true))), [], [], [])
            && s'.server == s.server
  {
  }

  lemma LoneFinish(s: SpecState, cmd: Command)
    requires Lone(s, LonePeer(Awaiting(1), cmd, Some(Delivery(1, IntV(0), true))), [], [], []) && Shaped(s)
    ensures var s' := SpecStep(s, Finish(0));
            && Lone(s', Peer(Sync, Ready, 0, [Sent(cmd, 0)], map[], [0], None, [Fired(1, Created(0))]), [], [], [])
            && s'.server == s.server
  {
    assert map[1 := OnCreate] - {1} == map[];
  }

  /** Runs do get somewhere: a lone blocking client that creates an object is told handle 0, and
   *  goes on. */
  lemma FirstCreate(args: CtorArgs, self: Address)
    requires Buildable(Create(args))
    ensures var b := ByteRun([Sync], [Send(0, Create(args), false), Serve(0, self), Read(0), Begin(0, 0), Finish(0)]);
            && b.peers == [Peer(Sync, Ready, 0, [Sent(Create(args), 0)], map[], [0], None, [Fired(1, Created(0))])]
            && Represents(b.server, [Construct(self, args)])
  {
    hide Buildable, Construct, SpecStep, ByteStep, ByteRun, Inv, LonePeer, Represents, Shaped;
    var cmd := Create(args);
    var e0, e1, e2, e3, e4 := Send(0, cmd, false), Serve(0, self), Read(0), Begin(0, 0), Finish(0);
    LoneSend(SpecRun([Sync], []), cmd);
    OneStepLater([Sync], [], e0);
    hide SpecRun, Lone;
    assert [] + [e0] == [e0];
    LoneServe(SpecRun([Sync], [e0]), args, self);
    OneStepLater([Sync], [e0], e1);
    assert [e0] + [e1] == [e0, e1];
    LoneRead(SpecRun([Sync], [e0, e1]), cmd);
    OneStepLater([Sync], [e0, e1], e2);
    assert [e0, e1] + [e2] == [e0, e1, e2];
    LoneBegin(SpecRun([Sync], [e0, e1, e2]), cmd);
    OneStepLater([Sync], [e0, e1, e2], e3);
    assert [e0, e1, e2] + [e3] == [e0, e1, e2, e3];
    LoneFinish(SpecRun([Sync], [e0, e1, e2, e3]), cmd);
    OneStepLater([Sync], [e0, e1, e2, e3], e4);
    assert [e0, e1, e2, e3] + [e4] == [e0, e1, e2, e3, e4];
    RunSimulates([Sync], [e0, e1, e2, e3, e4]);
    LonePeers(SpecRun([Sync], [e0, e1, e2, e3, e4]), cmd);
  }

  lemma LonePeers(s: SpecState, cmd: Command)
    requires Lone(s, Peer(Sync, Ready, 0, [Sent(cmd, 0)], map[], [0], None, [Fired(1, Created(0))]), [], [], [])
    ensures s.peers == [Peer(Sync, Ready, 0, [Sent(cmd, 0)], map[], [0], None, [Fired(1, Created(0))])]
  {
  }

  /** A plain integer, once sent and served, is in the client's table for ever. */
  lemma PlainValueStays(policy: ExecutionPolicy, x: int32, self: Address, more: seq<Event>)
    ensures var sent := [Send(0, SendInt(x), false), Serve(0, self)];
            && |ByteRun([policy], sent).requests| == 1 && ByteRun([policy], sent).requests[0] == []
            && |ByteRun([policy], sent + more).peers| > 0
            && 1 in ByteRun([policy], sent + more).peers[0].pending
  {
    hide ByteRun, SpecRun, ByteNext, SpecNext, Inv, Represents, SameReplies, Frame, Waits;
    var e0, e1 := Send(0, SendInt(x), false), Serve(0, self);
    OneStepLater([policy], [], e0);
    assert [] + [e0] == [e0];
    OneStepLater([policy], [e0], e1);
    assert [e0] + [e1] == [e0, e1];
    PlainIsSent(policy, x, self);
    RunSimulates([policy], [e0, e1]);
    var b, s := ByteRun([policy], [e0, e1]), SpecRun([policy], [e0, e1]);
    assert SameRequests(b.requests[0], s.requests[0]);
    PlainDoesNotWait(x);
    StaysForEver([policy], [e0, e1], more, 0, 1);
  }

  lemma PlainDoesNotWait(x: int32)
    ensures !Waits(SendInt(x))
  {
  }

  lemma PlainIsSent(policy: ExecutionPolicy, x: int32, self: Address)
    ensures var s1 := SpecNext(SpecRun([policy], []), Send(0, SendInt(x), false));
            var s2 := SpecNext(s1, Serve(0, self));
            && Shaped(s2) && |s2.peers| == 1 && s2.peers[0].issued == [Sent(SendInt(x), 0)]
            && |s2.requests| == 1 && s2.requests[0] == []
  {
    hide IntBytes;
    var s := SpecRun([policy], []);
    assert Buildable(SendInt(x));
    hide Buildable;
    var s1 := SpecStep(s, Send(0, SendInt(x), false));
    assert s1.requests[0] == [Request(1, SendInt(x))] && !s1.crashed;
  }
}
