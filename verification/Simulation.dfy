/** The system on bytes follows the system on messages, step by step. */
module Simulation {
  import opened Wire
  import opened CustomClasses
  import opened Requests
  import opened ServerParser
  import opened ObjectStore
  import opened ServerCorrect
  import opened Server
  import opened ResponseParsers
  import opened DemoSimulator
  import opened Client
  import opened Network
  import opened Machines
  import opened Invariant
  import opened InvariantPeers
  import opened InvariantServing
  import opened InvariantSteps

  ghost predicate SameRequests(bytes: seq<RawData>, qs: seq<Request>) {
    |bytes| == |qs| && forall j :: 0 <= j < |qs| ==> bytes[j] == Frame(qs[j].id, qs[j].cmd)
  }

  ghost predicate SameReplies(bytes: seq<RawData>, rs: seq<Response>) {
    && |bytes| == |rs|
    && forall j :: 0 <= j < |rs| ==> !rs[j].result.Silent? && bytes[j] == Reply(rs[j].id, rs[j].result)
  }

  // Same clients and connections; the bytes on the way encode the messages on the way; the
  // registry represents the store.
  ghost predicate Simulates(b: ByteState, s: SpecState) {
    && Shaped(b) && Shaped(s)
    && b.peers == s.peers && b.links == s.links && b.crashed == s.crashed
    && Represents(b.server, s.server.store)
    && (forall k :: 0 <= k < |s.links| ==> SameRequests(b.requests[k], s.requests[k]))
    && (forall k :: 0 <= k < |s.links| ==> SameReplies(b.responses[k], s.responses[k]))
    && (forall c :: 0 <= c < |s.peers| ==> SameReplies(b.arrived[c], s.arrived[c]))
  }

  lemma RequestsPush(bytes: seq<RawData>, qs: seq<Request>, q: Request)
    requires SameRequests(bytes, qs)
    ensures SameRequests(bytes + [Frame(q.id, q.cmd)], qs + [q])
  {
    hide Frame;
  }

  lemma RequestsPop(bytes: seq<RawData>, qs: seq<Request>)
    requires SameRequests(bytes, qs) && qs != []
    ensures SameRequests(bytes[1..], qs[1..]) && bytes[0] == Frame(qs[0].id, qs[0].cmd)
  {
    hide Frame;
  }

  lemma RepliesPush(bytes: seq<RawData>, rs: seq<Response>, r: Response)
    requires SameReplies(bytes, rs) && !r.result.Silent?
    ensures SameReplies(bytes + [Reply(r.id, r.result)], rs + [r])
  {
    hide Reply;
  }

  lemma RepliesPop(bytes: seq<RawData>, rs: seq<Response>, i: nat)
    requires SameReplies(bytes, rs) && i < |rs|
    ensures SameReplies(Remove(bytes, i), Remove(rs, i)) && SameReplies(bytes[1..], rs[1..])
    ensures !rs[i].result.Silent? && bytes[i] == Reply(rs[i].id, rs[i].result)
  {
    hide Reply;
    var bs', rs' := Remove(bytes, i), Remove(rs, i);
    forall j | 0 <= j < |rs'| ensures !rs'[j].result.Silent? && bs'[j] == Reply(rs'[j].id, rs'[j].result) {
      assert rs'[j] == rs[if j < i then j else j + 1] && bs'[j] == bytes[if j < i then j else j + 1];
    }
  }

  lemma BuildableIsEncodable(cmd: Command)
    requires Buildable(cmd)
    ensures Encodable(cmd)
  {
    hide Encode, TextOf;
    TextInFrame(cmd);
  }

  lemma SendSimulates(b: ByteState, s: SpecState, c: nat, cmd: Command, noticed: bool)
    requires Simulates(b, s)
    ensures Simulates(ByteStep(b, Send(c, cmd, noticed)), SpecStep(s, Send(c, cmd, noticed)))
  {
    hide SameRequests, SameReplies, Represents, SendPeer, Frame, CanSend;
    ByteStepShaped(b, Send(c, cmd, noticed));
    SpecStepShaped(s, Send(c, cmd, noticed));
    if c < |s.peers| && CanSend(s.peers[c], cmd) {
      var k := s.peers[c].link;
      CanSendRoom(s.peers[c], cmd);
      RequestsPush(b.requests[k], s.requests[k], Request(NextId(s.peers[c]), cmd));
    }
  }

  lemma CanSendRoom(p: Peer, cmd: Command)
    requires CanSend(p, cmd)
    ensures |p.issued| < INT_MAX && Buildable(cmd)
  {
  }

  lemma ServeSimulates(b: ByteState, s: SpecState, k: nat, self: Address)
    requires Simulates(b, s) && Inv(s)
    ensures Simulates(ByteStep(b, Serve(k, self)), SpecStep(s, Serve(k, self)))
  {
    hide SameRequests, SameReplies, Inv, Frame, ServerParser.Serve, Reading, Execute, Reply, Answer;
    ByteStepShaped(b, Serve(k, self));
    SpecStepShaped(s, Serve(k, self));
    if k < |s.links| {
      SameLength(b.requests[k], s.requests[k]);
    }
    if CanServe(s, k) {
      var q := s.requests[k][0];
      var result := ResultOf(s.server, q, self);
      NextRequest(s, k);
      BuildableIsEncodable(q.cmd);
      RequestsPop(b.requests[k], s.requests[k]);
      ReadingOfFrame(q.id, q.cmd);
      ServeRefines(b.server, s.server.store, q.id, q.cmd, self);
      if !result.Silent? {
        RepliesPush(b.responses[k], s.responses[k], Response(q.id, result));
      }
    }
  }

  // Both systems run out of handles at the same requests.
  lemma SameServable(b: ByteState, s: SpecState, k: nat)
    requires Simulates(b, s) && Inv(s)
    ensures CanServe(b, k) <==> CanServe(s, k)
    ensures CanServeBytes(b, k) <==> CanServeMessage(s, k)
  {
    hide Frame, Reading, SameReplies, Inv;
    if k < |s.links| {
      SameLength(b.requests[k], s.requests[k]);
      if CanServe(s, k) {
        var q := s.requests[k][0];
        NextRequest(s, k);
        BuildableIsEncodable(q.cmd);
        ReadingOfFrame(q.id, q.cmd);
        assert SameRequests(b.requests[k], s.requests[k]);
      }
    }
  }

  lemma SameLength(bytes: seq<RawData>, qs: seq<Request>)
    requires SameRequests(bytes, qs)
    ensures bytes == [] <==> qs == []
  {
  }

  lemma BeginSimulates(b: ByteState, s: SpecState, c: nat, i: nat)
    requires Simulates(b, s) && Inv(s)
    ensures Simulates(ByteStep(b, Begin(c, i)), SpecStep(s, Begin(c, i)))
  {
    hide SameRequests, Represents, Inv, ScanResponse, Reply, ValueOf;
    ByteStepShaped(b, Begin(c, i));
    SpecStepShaped(s, Begin(c, i));
    if CanBegin(s, c, i) {
      var r := s.arrived[c][i];
      RepliesPop(b.arrived[c], s.arrived[c], i);
      ArrivedDecodes(s, c, i);
    }
  }

  /** A response that has arrived decodes to its own id and the value of its result. */
  lemma ArrivedDecodes(s: SpecState, c: nat, i: nat)
    requires Inv(s) && c < |s.peers| && i < |s.arrived[c]|
    ensures var r := s.arrived[c][i];
            !r.result.Silent? && ScanResponse(Reply(r.id, r.result)) == Decoded(r.id, ValueOf(r.result))
  {
    hide Inv, ScanResponse, Reply, ValueOf, PeerOk, SyncAt, Observe, Seen;
    InvShaped(s);
    PeerFacts(s, c);
    var r := s.arrived[c][i];
    assert ReplyOk(c, r, s.server.answers);
    AnswerTyped(s, Key(c, r.id));
  }

  lemma ReadSimulates(b: ByteState, s: SpecState, c: nat)
    requires Simulates(b, s)
    ensures Simulates(PlainStep(b, Read(c)), PlainStep(s, Read(c)))
  {
    hide SameRequests, Represents, Reply;
    if CanRead(s, c) {
      var k := s.peers[c].link;
      RepliesPop(b.responses[k], s.responses[k], 0);
      RepliesPush(b.arrived[c], s.arrived[c], s.responses[k][0]);
      assert b.responses[k] != [];
    }
  }

  lemma RepeatSimulates(b: ByteState, s: SpecState, c: nat, i: nat)
    requires Simulates(b, s)
    ensures Simulates(PlainStep(b, Repeat(c, i)), PlainStep(s, Repeat(c, i)))
  {
    hide SameRequests, Represents, Reply;
    if c < |s.peers| && i < |s.arrived[c]| {
      RepliesPush(b.arrived[c], s.arrived[c], s.arrived[c][i]);
    }
  }

  lemma ReconnectSimulates(b: ByteState, s: SpecState, c: nat)
    requires Simulates(b, s)
    ensures Simulates(PlainStep(b, Reconnect(c)), PlainStep(s, Reconnect(c)))
  {
    hide SameRequests, SameReplies, Represents;
    NothingIsSame();
  }

  lemma NothingIsSame()
    ensures SameRequests([], []) && SameReplies([], [])
  {
  }

  lemma DropSimulates(b: ByteState, s: SpecState, k: nat)
    requires Simulates(b, s)
    ensures Simulates(PlainStep(b, Drop(k)), PlainStep(s, Drop(k)))
  {
    hide SameRequests, Represents, Reply;
  }

  lemma QuitSimulates(b: ByteState, s: SpecState, k: nat)
    requires Simulates(b, s)
    ensures Simulates(PlainStep(b, Quit(k)), PlainStep(s, Quit(k)))
  {
    hide SameRequests, SameReplies, Represents;
  }

  // The remaining steps change one client only, and do not look at messages that are still bytes.
  lemma PeerSimulates(b: ByteState, s: SpecState, e: Event)
    requires Simulates(b, s) && (e.Pick? || e.Choose? || e.Finish? || e.Stop?)
    ensures Simulates(PlainStep(b, e), PlainStep(s, e))
  {
    hide SameRequests, SameReplies, Represents, PickPeer, ChoosePeer, FinishPeer, Observe;
    PlainStepShaped(b, e);
    PlainStepShaped(s, e);
  }

  lemma ReadFailsSimulates(b: ByteState, s: SpecState, c: nat)
    requires Simulates(b, s)
    ensures Simulates(PlainStep(b, ReadFails(c)), PlainStep(s, ReadFails(c)))
  {
    hide SameRequests, Represents, Reply;
    assert c < |s.peers| ==> |b.arrived[c]| == |s.arrived[c]|;
  }

  /** Whatever happens to the bytes is what happens to the messages they encode. */
  lemma StepSimulates(b: ByteState, s: SpecState, e: Event)
    requires Simulates(b, s) && Inv(s)
    ensures Simulates(ByteStep(b, e), SpecStep(s, e))
  {
    hide Simulates, Inv, PlainStep;
    match e
    case Send(c, cmd, noticed) => SendSimulates(b, s, c, cmd, noticed);
    case Serve(k, self) => ServeSimulates(b, s, k, self);
    case Begin(c, i) => BeginSimulates(b, s, c, i);
    case Read(c) => ReadSimulates(b, s, c);
    case ReadFails(c) => ReadFailsSimulates(b, s, c);
    case Repeat(c, i) => RepeatSimulates(b, s, c, i);
    case Reconnect(c) => ReconnectSimulates(b, s, c);
    case Drop(k) => DropSimulates(b, s, k);
    case Quit(k) => QuitSimulates(b, s, k);
    case _ => PeerSimulates(b, s, e);
  }

  /** Over every run, with any number of clients and any interleaving: the bytes follow the
   *  messages, and the messages keep the invariant. */
  lemma {:induction false} RunSimulates(policies: seq<ExecutionPolicy>, events: seq<Event>)
    ensures Inv(SpecRun(policies, events))
    ensures Simulates(ByteRun(policies, events), SpecRun(policies, events))
  {
    hide Inv, ByteStep, SpecStep;
    if events == [] {
      InvStart(policies);
    } else {
      var n := |events| - 1;
      RunSimulates(policies, events[..n]);
      hide Simulates;
      StepKeepsInv(SpecRun(policies, events[..n]), events[n]);
      StepSimulates(ByteRun(policies, events[..n]), SpecRun(policies, events[..n]), events[n]);
    }
  }
}
