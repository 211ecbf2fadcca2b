/** While a connection lives, every request that waits on it is somewhere on its way. */
module NoLoss {
  import opened Wire
  import opened CustomClasses
  import opened Requests
  import opened ObjectStore
  import opened Server
  import opened ResponseParsers
  import opened Network
  import opened Machines
  import opened Invariant
  import opened InvariantPeers
  import opened InvariantLinks
  import opened InvariantServing

  predicate Queued(qs: seq<Request>, id: int32) {
    exists j :: 0 <= j < |qs| && qs[j].id == id
  }

  predicate Replied(rs: seq<Response>, id: int32) {
    exists j :: 0 <= j < |rs| && rs[j].id == id
  }

  // Unserved, answered, read, or being delivered.
  predicate OnItsWay(p: Peer, qs: seq<Request>, rs: seq<Response>, arrived: seq<Response>, id: int32) {
    Queued(qs, id) || Replied(rs, id) || Replied(arrived, id) || (p.busy.Some? && p.busy.value.id == id)
  }

  predicate WaitsOn(p: Peer, k: nat, id: int32) {
    && id in p.pending && 1 <= id <= |p.issued|
    && Waits(p.issued[id - 1].cmd) && p.issued[id - 1].link == k
  }

  ghost predicate Accounted(p: Peer, qs: seq<Request>, rs: seq<Response>, arrived: seq<Response>) {
    forall id :: WaitsOn(p, p.link, id) ==> OnItsWay(p, qs, rs, arrived, id)
  }

  ghost predicate AccountedAt(s: SpecState, c: nat)
    requires Shaped(s) && c < |s.peers|
  {
    var k := s.peers[c].link;
    && (s.links[k].live ==> Accounted(s.peers[c], s.requests[k], s.responses[k], s.arrived[c]))
    && (forall i :: 0 <= i < |s.peers[c].issued| ==> s.peers[c].issued[i].link < |s.links|)
  }

  ghost predicate NothingLost(s: SpecState)
    requires Shaped(s)
  {
    forall c :: 0 <= c < |s.peers| ==> AccountedAt(s, c)
  }

  lemma SendAccounts(p: Peer, qs: seq<Request>, rs: seq<Response>, arrived: seq<Response>, cmd: Command, noticed: bool)
    requires Accounted(p, qs, rs, arrived) && TableOk(p) && |p.issued| < INT_MAX
    ensures Accounted(SendPeer(p, true, cmd, noticed), qs + [Request(NextId(p), cmd)], rs, arrived)
  {
    var p', qs' := SendPeer(p, true, cmd, noticed), qs + [Request(NextId(p), cmd)];
    assert qs'[|qs|].id == NextId(p);
    assert forall j :: 0 <= j < |qs| ==> qs'[j] == qs[j];
    forall id | WaitsOn(p', p'.link, id) ensures OnItsWay(p', qs', rs, arrived, id) {
      if id != NextId(p) {
        assert WaitsOn(p, p.link, id);
      }
    }
  }

  lemma ReadAccounts(p: Peer, qs: seq<Request>, rs: seq<Response>, arrived: seq<Response>)
    requires Accounted(p, qs, rs, arrived) && rs != []
    ensures Accounted(p, qs, rs[1..], arrived + [rs[0]])
  {
    hide WaitsOn;
    var rest, more := rs[1..], arrived + [rs[0]];
    assert more[|arrived|] == rs[0];
    assert forall j :: 0 <= j < |arrived| ==> more[j] == arrived[j];
    assert forall j :: 0 < j < |rs| ==> rest[j - 1] == rs[j];
  }

  lemma MoreArrivedAccounts(p: Peer, qs: seq<Request>, rs: seq<Response>, arrived: seq<Response>, r: Response)
    requires Accounted(p, qs, rs, arrived)
    ensures Accounted(p, qs, rs, arrived + [r])
  {
    hide WaitsOn;
    assert forall j :: 0 <= j < |arrived| ==> (arrived + [r])[j] == arrived[j];
  }

  lemma BeginAccounts(p: Peer, p': Peer, qs: seq<Request>, rs: seq<Response>, arrived: seq<Response>, i: nat)
    requires Accounted(p, qs, rs, arrived) && i < |arrived| && p.busy.None?
    requires p'.link == p.link && p'.issued == p.issued && p'.pending == p.pending
    requires arrived[i].id in p.pending ==> p'.busy.Some? && p'.busy.value.id == arrived[i].id
    ensures Accounted(p', qs, rs, Remove(arrived, i))
  {
    var rest := Remove(arrived, i);
    assert forall j :: 0 <= j < |arrived| && j != i ==> rest[if j < i then j else j - 1] == arrived[j];
    forall id | WaitsOn(p', p'.link, id) ensures OnItsWay(p', qs, rs, rest, id) {
      assert WaitsOn(p, p.link, id);
    }
  }

  lemma FinishAccounts(p: Peer, qs: seq<Request>, rs: seq<Response>, arrived: seq<Response>)
    requires Accounted(p, qs, rs, arrived) && p.busy.Some? && p.busy.value.id in p.pending
    ensures Accounted(FinishPeer(p), qs, rs, arrived)
  {
    hide Observe;
    var p' := FinishPeer(p);
    forall id | WaitsOn(p', p'.link, id) ensures OnItsWay(p', qs, rs, arrived, id) {
      assert WaitsOn(p, p.link, id);
    }
  }

  lemma ServeAccounts(p: Peer, qs: seq<Request>, rs: seq<Response>, arrived: seq<Response>, result: Result)
    requires Accounted(p, qs, rs, arrived) && qs != []
    requires 1 <= qs[0].id <= |p.issued| && p.issued[qs[0].id - 1].cmd == qs[0].cmd
    requires !result.Silent? <==> Waits(qs[0].cmd)
    ensures Accounted(p, qs[1..], if result.Silent? then rs else rs + [Response(qs[0].id, result)], arrived)
  {
    var rest, more := qs[1..], rs + [Response(qs[0].id, result)];
    assert more[|rs|].id == qs[0].id;
    assert forall j :: 0 <= j < |rs| ==> more[j] == rs[j];
    assert forall j :: 0 < j < |qs| ==> rest[j - 1] == qs[j];
  }

  lemma SamePeerAccounts(p: Peer, p': Peer, qs: seq<Request>, rs: seq<Response>, arrived: seq<Response>)
    requires Accounted(p, qs, rs, arrived) && p' == p.(phase := p'.phase)
    ensures Accounted(p', qs, rs, arrived)
  {
    forall id | WaitsOn(p', p'.link, id) ensures OnItsWay(p', qs, rs, arrived, id) {
      assert WaitsOn(p, p.link, id);
    }
  }

  lemma SendKeepsAccounts(s: SpecState, c: nat, cmd: Command, noticed: bool, d: nat)
    requires Inv(s) && NothingLost(s) && d < |s.peers|
    ensures var s' := SpecStep(s, Send(c, cmd, noticed)); Shaped(s') && |s'.peers| == |s.peers| && AccountedAt(s', d)
  {
    hide Inv, Accounted, TableOk, FiredOk, HandlesOk, PhaseOk, BusyOk, SendPeer, CanSend;
    InvShaped(s);
    SpecStepShaped(s, Send(c, cmd, noticed));
    assert AccountedAt(s, d);
    if c < |s.peers| && CanSend(s.peers[c], cmd) {
      CanSendHas(s.peers[c], cmd);
      SendFields(s.peers[c], s.links[s.peers[c].link].live, cmd, noticed);
      PeerFacts(s, c);
      PeerFacts(s, d);
      var k := s.peers[c].link;
      if d == c && s.links[k].live {
        SendAccounts(s.peers[c], s.requests[k], s.responses[k], s.arrived[c], cmd, noticed);
      }
    }
  }

  lemma CanSendHas(p: Peer, cmd: Command)
    requires CanSend(p, cmd)
    ensures |p.issued| < INT_MAX
  {
  }

  lemma ServeKeepsAccounts(s: SpecState, k: nat, self: Address, d: nat)
    requires Inv(s) && NothingLost(s) && d < |s.peers|
    ensures var s' := SpecStep(s, Serve(k, self)); Shaped(s') && |s'.peers| == |s.peers| && AccountedAt(s', d)
  {
    hide Inv, Accounted, PeerOk, Enter, ResultOf, Buildable, Live, Waits;
    InvShaped(s);
    assert AccountedAt(s, d);
    if CanServeMessage(s, k) {
      NextRequest(s, k);
      PeerFacts(s, d);
      var q := s.requests[k][0];
      WaitsIffAnswered(s.server, q, self);
      if s.peers[d].link == k && s.links[k].live {
        ServeAccounts(s.peers[d], s.requests[k], s.responses[k], s.arrived[d], ResultOf(s.server, q, self));
      }
    }
  }

  lemma BeginKeepsAccounts(s: SpecState, c: nat, i: nat, d: nat)
    requires Inv(s) && NothingLost(s) && d < |s.peers|
    ensures var s' := SpecStep(s, Begin(c, i)); Shaped(s') && |s'.peers| == |s.peers| && AccountedAt(s', d)
  {
    hide Inv, Accounted, ValueOf;
    InvShaped(s);
    assert AccountedAt(s, d);
    if CanBegin(s, c, i) && d == c {
      var k := s.peers[c].link;
      var s' := SpecStep(s, Begin(c, i));
      if s.links[k].live && !s.arrived[c][i].result.Silent? {
        BeginAccounts(s.peers[c], s'.peers[c], s.requests[k], s.responses[k], s.arrived[c], i);
      }
    }
  }

  lemma ReadKeepsAccounts(s: SpecState, c: nat, d: nat)
    requires Inv(s) && NothingLost(s) && d < |s.peers|
    ensures var s' := PlainStep(s, Read(c)); Shaped(s') && |s'.peers| == |s.peers| && AccountedAt(s', d)
  {
    hide Inv, Accounted, PeerOk, SyncAt;
    InvShaped(s);
    assert AccountedAt(s, d);
    if CanRead(s, c) {
      PeerFacts(s, c);
      PeerFacts(s, d);
      var k := s.peers[d].link;
      if d == c {
        ReadAccounts(s.peers[d], s.requests[k], s.responses[k], s.arrived[d]);
      }
    }
  }

  lemma RepeatKeepsAccounts(s: SpecState, c: nat, i: nat, d: nat)
    requires Inv(s) && NothingLost(s) && d < |s.peers|
    ensures var s' := PlainStep(s, Repeat(c, i)); Shaped(s') && |s'.peers| == |s.peers| && AccountedAt(s', d)
  {
    hide Inv, Accounted;
    InvShaped(s);
    assert AccountedAt(s, d);
    var k := s.peers[d].link;
    if d == c && s.links[k].live && i < |s.arrived[d]| {
      MoreArrivedAccounts(s.peers[d], s.requests[k], s.responses[k], s.arrived[d], s.arrived[d][i]);
    }
  }

  lemma FinishKeepsAccounts(s: SpecState, c: nat, d: nat)
    requires Inv(s) && NothingLost(s) && d < |s.peers|
    ensures var s' := PlainStep(s, Finish(c)); Shaped(s') && |s'.peers| == |s.peers| && AccountedAt(s', d)
  {
    hide Inv, Accounted, FinishPeer, Observe;
    InvShaped(s);
    PlainStepShaped(s, Finish(c));
    assert AccountedAt(s, d);
    var p, k := s.peers[d], s.peers[d].link;
    if d == c && p.busy.Some? && p.busy.value.id in p.pending {
      FinishFields(p);
      if s.links[k].live {
        FinishAccounts(p, s.requests[k], s.responses[k], s.arrived[d]);
      }
    }
  }

  lemma ReconnectKeepsAccounts(s: SpecState, c: nat, d: nat)
    requires Inv(s) && NothingLost(s) && d < |s.peers|
    ensures var s' := PlainStep(s, Reconnect(c)); Shaped(s') && |s'.peers| == |s.peers| && AccountedAt(s', d)
  {
    hide Inv, Accounted;
    InvShaped(s);
    assert AccountedAt(s, d);
    if d == c && s.peers[d].phase.Disconnected? {
      NewLinkAccounts(s, d, ReconnectOn(s, c).peers[d]);
    }
  }

  lemma LinkKeepsAccounts(s: SpecState, e: Event, d: nat)
    requires Inv(s) && NothingLost(s) && d < |s.peers| && (e.Drop? || e.Quit?)
    ensures var s' := PlainStep(s, e); Shaped(s') && |s'.peers| == |s.peers| && AccountedAt(s', d)
  {
    hide Inv, Accounted;
    InvShaped(s);
    assert AccountedAt(s, d);
  }

  // Some steps change the phase of a client and nothing else.
  lemma PhaseOnly<S, Q, R>(s: State<S, Q, R>, e: Event, c: nat)
    requires Shaped(s) && c < |s.peers| && (e.Pick? || e.Choose? || e.ReadFails? || e.Stop?)
    ensures var s' := PlainStep(s, e);
            && s' == s.(peers := s'.peers, crashed := s'.crashed) && |s'.peers| == |s.peers|
            && s'.peers[c] == s.peers[c].(phase := s'.peers[c].phase)
  {
    match e
    case Pick(_) =>
    case Choose(_, _) =>
    case _ =>
  }

  // Steps that only change the phase of a client.
  lemma PhaseKeepsAccounts(s: SpecState, e: Event, d: nat)
    requires Inv(s) && NothingLost(s) && d < |s.peers|
    requires e.Pick? || e.Choose? || e.ReadFails? || e.Stop?
    ensures var s' := PlainStep(s, e); Shaped(s') && |s'.peers| == |s.peers| && AccountedAt(s', d)
  {
    hide Inv, Accounted, PlainStep;
    InvShaped(s);
    PlainStepShaped(s, e);
    PhaseOnly(s, e, d);
    assert AccountedAt(s, d);
    var k, s' := s.peers[d].link, PlainStep(s, e);
    if s.links[k].live {
      SamePeerAccounts(s.peers[d], s'.peers[d], s.requests[k], s.responses[k], s.arrived[d]);
    }
  }

  lemma NewLinkAccounts(s: SpecState, c: nat, p: Peer)
    requires Shaped(s) && c < |s.peers| && AccountedAt(s, c)
    requires p.link == |s.links| && p.issued == s.peers[c].issued
    ensures Accounted(p, [], [], s.arrived[c])
  {
  }

  lemma StepLosesNothing(s: SpecState, e: Event)
    requires Inv(s) && NothingLost(s)
    ensures Shaped(SpecStep(s, e)) && NothingLost(SpecStep(s, e))
  {
    hide Inv, AccountedAt, PlainStep, CanSend, CanServe, CanBegin;
    InvShaped(s);
    SpecStepShaped(s, e);
    forall d | 0 <= d < |SpecStep(s, e).peers| ensures AccountedAt(SpecStep(s, e), d) {
      SamePeerCount(s, e);
      match e
      case Send(c, cmd, noticed) => SendKeepsAccounts(s, c, cmd, noticed, d);
      case Serve(k, self) => ServeKeepsAccounts(s, k, self, d);
      case Begin(c, i) => BeginKeepsAccounts(s, c, i, d);
      case Read(c) => ReadKeepsAccounts(s, c, d);
      case Repeat(c, i) => RepeatKeepsAccounts(s, c, i, d);
      case Finish(c) => FinishKeepsAccounts(s, c, d);
      case Reconnect(c) => ReconnectKeepsAccounts(s, c, d);
      case Drop(_) => LinkKeepsAccounts(s, e, d);
      case Quit(_) => LinkKeepsAccounts(s, e, d);
      case _ => PhaseKeepsAccounts(s, e, d);
    }
  }

  lemma SamePeerCount(s: SpecState, e: Event)
    requires Shaped(s)
    ensures |SpecStep(s, e).peers| == |s.peers|
  {
    hide Buildable, Execute, ValueOf, SendPeer, FinishPeer, Observe;
  }
}
