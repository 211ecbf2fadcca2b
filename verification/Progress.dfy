/** Which callbacks can still fire: for each waiting request, either some continuation of the run
 *  delivers its reply, or no continuation does. */
module Progress {
  import opened Wire
  import opened CustomClasses
  import opened Requests
  import opened ObjectStore
  import opened Server
  import opened ClassRepositories
  import opened ResponseParsers
  import opened DemoSimulator
  import opened Client
  import opened Network
  import opened Machines
  import opened Invariant
  import opened InvariantPeers
  import opened InvariantServing
  import opened InvariantSteps
  import opened Simulation
  import opened NoLoss
  import opened Theorems

  // ---------- requests and responses keep to their connections ----------

  ghost predicate OwnLink(s: SpecState, k: nat)
    requires Shaped(s) && k < |s.links|
  {
    var issued := s.peers[s.links[k].owner].issued;
    forall r :: r in s.responses[k] ==> 1 <= r.id <= |issued| && issued[r.id - 1].link == k
  }

  predicate Owns(s: SpecState, c: nat)
    requires Shaped(s) && c < |s.peers|
  {
    forall sent :: sent in s.peers[c].issued ==> sent.link < |s.links| && s.links[sent.link].owner == c
  }

  ghost predicate OwnLinks(s: SpecState)
    requires Shaped(s)
  {
    && (forall k :: 0 <= k < |s.links| ==> OwnLink(s, k))
    && (forall c :: 0 <= c < |s.peers| ==> Owns(s, c))
  }

  lemma StepKeepsOwnLinks(s: SpecState, e: Event)
    requires Inv(s) && OwnLinks(s)
    ensures Shaped(SpecStep(s, e)) && OwnLinks(SpecStep(s, e))
  {
    hide Inv, SpecStep, OwnLink, Owns;
    InvShaped(s);
    SpecStepShaped(s, e);
    forall k | 0 <= k < |SpecStep(s, e).links| ensures OwnLink(SpecStep(s, e), k) {
      if k < |s.links| {
        match e
        case Serve(j, _) => ServeKeepsOwnLink(s, e, k);
        case Send(_, _, _) => SendKeepsOwnLink(s, e, k);
        case _ => ElseKeepsOwnLink(s, e, k);
      } else {
        NewLinkIsEmpty(s, e, k);
      }
    }
    SamePeerCount(s, e);
    forall c | 0 <= c < |SpecStep(s, e).peers| ensures Owns(SpecStep(s, e), c) {
      StepKeepsOwner(s, e, c);
    }
  }

  lemma StepKeepsOwner(s: SpecState, e: Event, c: nat)
    requires Inv(s) && c < |s.peers| && Owns(s, c)
    ensures Shaped(SpecStep(s, e)) && c < |SpecStep(s, e).peers| && Owns(SpecStep(s, e), c)
  {
    hide Inv, PeerOk, RepliesOk, SyncAt, SpecStep;
    InvShaped(s);
    SpecStepShaped(s, e);
    PeerFacts(s, c);
    SamePeerCount(s, e);
    StepIssues(s, e, c);
    StepKeepsOwners(s, e);
  }

  // A client's requests grow by at most one, written to its current connection.
  lemma StepIssues(s: SpecState, e: Event, c: nat)
    requires Shaped(s) && c < |s.peers|
    ensures c < |SpecStep(s, e).peers|
    ensures var p, p' := s.peers[c], SpecStep(s, e).peers[c];
            p'.issued == p.issued || exists cmd :: p'.issued == p.issued + [Sent(cmd, p.link)]
  {
    hide PlainStep, MaySend, Execute, ValueOf, Waits, CallbackOf;
    PlainKeepsIssued(s, e, c);
  }

  lemma StepKeepsOwners(s: SpecState, e: Event)
    requires Shaped(s)
    ensures |s.links| <= |SpecStep(s, e).links|
    ensures forall k :: 0 <= k < |s.links| ==> SpecStep(s, e).links[k].owner == s.links[k].owner
  {
    hide MaySend, Execute, Observe, ChoosePeer, PickPeer, FinishPeer, SendPeer, ValueOf;
  }

  lemma ServeKeepsOwnLink(s: SpecState, e: Event, k: nat)
    requires Inv(s) && k < |s.links| && OwnLink(s, k) && e.Serve?
    ensures Shaped(SpecStep(s, e)) && k < |SpecStep(s, e).links| && OwnLink(SpecStep(s, e), k)
  {
    hide Inv, Enter, ResultOf, Waits, Live, Buildable;
    InvShaped(s);
    SpecStepShaped(s, e);
    if CanServe(s, e.k) {
      NextRequest(s, e.k);
    }
  }

  lemma SendKeepsOwnLink(s: SpecState, e: Event, k: nat)
    requires Shaped(s) && k < |s.links| && OwnLink(s, k) && e.Send?
    ensures Shaped(SpecStep(s, e)) && k < |SpecStep(s, e).links| && OwnLink(SpecStep(s, e), k)
  {
    hide MaySend, Waits, CallbackOf;
    SpecStepShaped(s, e);
  }

  lemma ElseKeepsOwnLink(s: SpecState, e: Event, k: nat)
    requires Shaped(s) && k < |s.links| && OwnLink(s, k) && !e.Serve? && !e.Send?
    ensures Shaped(SpecStep(s, e)) && k < |SpecStep(s, e).links| && OwnLink(SpecStep(s, e), k)
  {
    hide SpecStep;
    SpecStepShaped(s, e);
    StepIssues(s, e, s.links[k].owner);
    StepKeepsOwners(s, e);
    ResponsesOnlyLeave(s, e, k);
  }

  lemma ResponsesOnlyLeave(s: SpecState, e: Event, k: nat)
    requires Shaped(s) && k < |s.links| && !e.Serve? && !e.Send?
    ensures k < |SpecStep(s, e).responses|
    ensures forall r :: r in SpecStep(s, e).responses[k] ==> r in s.responses[k]
  {
    hide Observe, ChoosePeer, PickPeer, FinishPeer, ValueOf;
  }

  lemma NewLinkIsEmpty(s: SpecState, e: Event, k: nat)
    requires Shaped(s) && |s.links| <= k < |SpecStep(s, e).links| && Shaped(SpecStep(s, e))
    ensures OwnLink(SpecStep(s, e), k)
  {
    hide MaySend, Execute, Observe, Choice, ValueOf;
  }

  lemma {:induction false} OwnLinksInRun(policies: seq<ExecutionPolicy>, events: seq<Event>)
    ensures OwnLinks(SpecRun(policies, events))
  {
    hide Inv, SpecStep, OwnLink, Owns;
    if events == [] {
      StartKeepsOwnLinks(policies);
    } else {
      var n := |events| - 1;
      OwnLinksInRun(policies, events[..n]);
      RunSimulates(policies, events[..n]);
      StepKeepsOwnLinks(SpecRun(policies, events[..n]), events[n]);
    }
  }

  lemma StartKeepsOwnLinks(policies: seq<ExecutionPolicy>)
    ensures OwnLinks(SpecRun(policies, []))
  {
  }

  // ---------- one step closer ----------

  function Creations(qs: seq<Request>): nat {
    if qs == [] then 0 else (if qs[0].cmd.Create? then 1 else 0) + Creations(qs[1..])
  }

  // Request `id` is in the queue, and with n handles given out the rest does not last until it is served.
  predicate ShortOf(n: nat, qs: seq<Request>, id: int32) {
    exists j :: 0 <= j < |qs| && qs[j].id == id && n + Creations(qs[..j + 1]) > INT_MAX
  }

  predicate Short(s: SpecState, k: nat, id: int32)
    requires Shaped(s) && k < |s.links|
  {
    ShortOf(|s.server.store|, s.requests[k], id)
  }

  predicate Delivering(p: Peer, id: int32) {
    p.busy.Some? && p.busy.value.id == id
  }

  // Request `id` of p is in the table and waits.
  predicate Awaited(p: Peer, id: int32) {
    id in p.pending && 1 <= id <= |p.issued| && Waits(p.issued[id - 1].cmd)
  }

  predicate Reachable(s: SpecState, c: nat, id: int32)
    requires Shaped(s) && c < |s.peers| && Awaited(s.peers[c], id)
  {
    var k := s.peers[c].issued[id - 1].link;
    Delivering(s.peers[c], id) || Replied(s.arrived[c], id) || (k < |s.links| && s.links[k].live && !Short(s, k, id))
  }

  // An upper bound on the steps that are left.
  function Remaining<S, Q, R>(s: State<S, Q, R>, c: nat): nat
    requires Shaped(s) && c < |s.peers|
  {
    var p := s.peers[c];
    4 * |s.requests[p.link]| + 3 * |s.responses[p.link]| + 2 * |s.arrived[c]| + Count(p.busy.Some?)
  }

  // The steps of the client itself and of the server thread of its connection.
  predicate Concerns(e: Event, c: nat, k: nat) {
    match e
    case Serve(j, _) => j == k
    case Read(d) => d == c
    case ReadFails(d) => d == c
    case Begin(d, _) => d == c
    case Finish(d) => d == c
    case _ => false
  }

  // After one step the callback of request `id` has fired, or that is closer.
  ghost predicate Closer(s: SpecState, s': SpecState, c: nat, id: int32)
    requires Shaped(s) && Shaped(s') && c < |s.peers| && Awaited(s.peers[c], id)
  {
    && !s'.crashed && |s'.peers| == |s.peers|
    && var p, p' := s.peers[c], s'.peers[c];
       && p'.link == p.link && p'.policy == p.policy && p'.issued == p.issued
       && (p.policy.Sync? && p.phase == Awaiting(id) ==>
             p'.phase == if id in FiredIds(p'.fired) then Ready else p.phase)
       && (id !in FiredIds(p'.fired) ==>
             Awaited(p', id) && Reachable(s', c, id) && Remaining(s', c) < Remaining(s, c))
  }

  lemma FinishIsCloser(s: SpecState, c: nat, id: int32)
    requires Inv(s) && !s.crashed && c < |s.peers| && Awaited(s.peers[c], id) && Reachable(s, c, id)
    requires s.peers[c].busy.Some?
    ensures Shaped(SpecStep(s, Finish(c))) && Closer(s, SpecStep(s, Finish(c)), c, id)
  {
    hide LedgerOk, HistoryOk, QueueOk, RepliesOk, TableOk, FiredOk, HandlesOk, BusyOk, Seen, Observe, Inv, Waits,
         ShortOf;
    InvShaped(s);
    PeerFacts(s, c);
    FinishDelivers(s, c);
    StepFaults(s, Finish(c));
    FiredIdsAppend(s.peers[c].fired, FinishPeer(s.peers[c]).fired[|s.peers[c].fired|]);
  }

  lemma BeginIsCloser(s: SpecState, c: nat, id: int32, i: nat)
    requires Inv(s) && !s.crashed && c < |s.peers| && Awaited(s.peers[c], id) && id !in FiredIds(s.peers[c].fired)
    requires s.peers[c].busy.None? && i < |s.arrived[c]| && s.arrived[c][i].id == id
    ensures Shaped(SpecStep(s, Begin(c, i))) && Closer(s, SpecStep(s, Begin(c, i)), c, id)
  {
    hide LedgerOk, HistoryOk, QueueOk, TableOk, FiredOk, HandlesOk, BusyOk, ValueOf, Inv, Waits, ShortOf, FiredIds;
    InvShaped(s);
    PeerFacts(s, c);
    assert ReplyOk(c, s.arrived[c][i], s.server.answers);
  }

  lemma ReadIsCloser(s: SpecState, c: nat, id: int32)
    requires Inv(s) && !s.crashed && c < |s.peers| && Awaited(s.peers[c], id) && id !in FiredIds(s.peers[c].fired)
    requires Reachable(s, c, id) && s.peers[c].busy.None? && !Replied(s.arrived[c], id)
    requires s.responses[s.peers[c].link] != [] && s.links[s.peers[c].link].live
    requires s.peers[c].issued[id - 1].link == s.peers[c].link
    ensures Shaped(SpecStep(s, Read(c))) && Closer(s, SpecStep(s, Read(c)), c, id)
  {
    hide LedgerOk, HistoryOk, QueueOk, RepliesOk, PeerOk, Inv, Waits, ShortOf, FiredIds;
    InvShaped(s);
    PeerFacts(s, c);
    assert s.peers[c].policy.Sync? ==> s.peers[c].phase == Awaiting(s.responses[s.peers[c].link][0].id);
  }

  // The counts when the first of the queue is served.
  lemma CreationsPop(qs: seq<Request>, j: nat)
    requires j < |qs|
    ensures Creations(qs[..j + 1]) == (if qs[0].cmd.Create? then 1 else 0) + Creations(qs[1..][..j])
  {
    assert qs[..j + 1][1..] == qs[1..][..j];
  }

  lemma ShortPop(n: nat, qs: seq<Request>, id: int32)
    requires qs != []
    ensures var n' := n + if qs[0].cmd.Create? then 1 else 0;
            && (ShortOf(n', qs[1..], id) ==> ShortOf(n, qs, id))
            && (ShortOf(n, qs, id) && qs[0].id != id ==> ShortOf(n', qs[1..], id))
  {
    hide Creations;
    var n' := n + if qs[0].cmd.Create? then 1 else 0;
    var rest := qs[1..];
    if ShortOf(n', rest, id) {
      var j :| 0 <= j < |rest| && rest[j].id == id && n' + Creations(rest[..j + 1]) > INT_MAX;
      CreationsPop(qs, j + 1);
      assert qs[j + 1].id == id;
    }
    if ShortOf(n, qs, id) && qs[0].id != id {
      var j :| 0 <= j < |qs| && qs[j].id == id && n + Creations(qs[..j + 1]) > INT_MAX;
      CreationsPop(qs, j);
      assert rest[j - 1].id == id;
    }
  }

  lemma ServeIsCloser(s: SpecState, c: nat, id: int32, self: Address)
    requires Inv(s) && !s.crashed && c < |s.peers| && Awaited(s.peers[c], id) && id !in FiredIds(s.peers[c].fired)
    requires var k := s.peers[c].link;
             && s.peers[c].issued[id - 1].link == k && s.links[k].live
             && Queued(s.requests[k], id) && !Short(s, k, id)
    ensures var k := s.peers[c].link;
            && CanServeMessage(s, k)
            && Shaped(SpecStep(s, Serve(k, self))) && Closer(s, SpecStep(s, Serve(k, self)), c, id)
  {
    hide Inv, LedgerOk, HistoryOk, PeerOk, RepliesOk, Execute, Buildable, Live, Waits, FiredIds, ShortOf;
    InvShaped(s);
    PeerFacts(s, c);
    var k := s.peers[c].link;
    LinkFacts(s, k);
    var qs := s.requests[k];
    NextRequest(s, k);
    WaitsIffAnswered(s.server, qs[0], self);
    StoreGrowth(s.server.store, qs[0].cmd, self);
    EnoughForHead(|s.server.store|, qs, id);
    ShortPop(|s.server.store|, qs, id);
    SpecStepShaped(s, Serve(k, self));
  }

  lemma EnoughForHead(n: nat, qs: seq<Request>, id: int32)
    requires Queued(qs, id) && !ShortOf(n, qs, id)
    ensures qs[0].cmd.Create? ==> n < INT_MAX
  {
    hide Creations;
    var j :| 0 <= j < |qs| && qs[j].id == id;
    CreationsPop(qs, j);
  }

  // The next step towards the callback of request `id`.
  lemma FiresOrCloser(s: SpecState, c: nat, id: int32) returns (e: Event)
    requires Inv(s) && NothingLost(s) && OwnLinks(s) && !s.crashed
    requires c < |s.peers| && Awaited(s.peers[c], id) && id !in FiredIds(s.peers[c].fired) && Reachable(s, c, id)
    ensures Concerns(e, c, s.peers[c].link)
    ensures Shaped(SpecStep(s, e)) && Closer(s, SpecStep(s, e), c, id)
  {
    hide Inv, SpecStep, Closer, Short, FiredIds, PeerOk, SyncAt, QueueOk, RepliesOk;
    InvShaped(s);
    var p := s.peers[c];
    if p.busy.Some? {
      e := Finish(c);
      FinishIsCloser(s, c, id);
    } else if Replied(s.arrived[c], id) {
      var i :| 0 <= i < |s.arrived[c]| && s.arrived[c][i].id == id;
      e := Begin(c, i);
      BeginIsCloser(s, c, id, i);
    } else {
      LinkFacts(s, p.issued[id - 1].link);
      PeerFacts(s, c);
      assert Owns(s, c) && p.issued[id - 1] in p.issued;
      assert p.issued[id - 1].link == p.link;
      if s.responses[p.link] != [] {
        e := Read(c);
        ReadIsCloser(s, c, id);
      } else {
        assert AccountedAt(s, c);
        assert WaitsOn(p, p.link, id);
        e := Serve(p.link, "");
        ServeIsCloser(s, c, id, "");
      }
    }
  }
}
