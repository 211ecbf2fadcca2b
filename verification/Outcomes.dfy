/** On bytes, in every run: exactly which callbacks can still fire, and that a blocking client goes on. */
module Outcomes {
  import opened Wire
  import opened Requests
  import opened ObjectStore
  import opened ServerCorrect
  import opened Server
  import opened ResponseParsers
  import opened Client
  import opened Network
  import opened Machines
  import opened Invariant
  import opened InvariantPeers
  import opened Simulation
  import opened NoLoss
  import opened Theorems
  import opened Progress
  import opened DeadEnds

  function CreationsIn(messages: seq<RawData>): nat {
    if messages == [] then 0 else (if Creates(messages[0]) then 1 else 0) + CreationsIn(messages[1..])
  }

  // Message m waits on connection k, and the handles do not last until it is served.
  predicate ShortOfHandles(b: ByteState, k: nat, m: RawData)
    requires Shaped(b) && k < |b.links|
  {
    var queue := b.requests[k];
    exists j :: 0 <= j < |queue| && queue[j] == m && b.server.counter + CreationsIn(queue[..j + 1]) > INT_MAX
  }

  /** The reply to request `id` is being delivered, or has been read, or the connection lives and there
   *  are enough handles for the creates up to it. */
  predicate CanStillFire(b: ByteState, c: nat, id: int32)
    requires Shaped(b) && c < |b.peers| && Awaited(b.peers[c], id)
  {
    var p := b.peers[c];
    var sent := p.issued[id - 1];
    || Delivering(p, id) || Carries(b.arrived[c], id)
    || (sent.link < |b.links| && b.links[sent.link].live && !ShortOfHandles(b, sent.link, Frame(id, sent.cmd)))
  }

  // ---------- the same on messages ----------

  lemma CreatesOf(q: Request)
    requires Encodable(q.cmd)
    ensures Creates(Frame(q.id, q.cmd)) <==> q.cmd.Create?
  {
    hide Reading, Frame;
    ReadingOfFrame(q.id, q.cmd);
  }

  lemma {:induction false} SameCreations(bytes: seq<RawData>, qs: seq<Request>)
    requires SameRequests(bytes, qs) && forall q :: q in qs ==> Encodable(q.cmd)
    ensures CreationsIn(bytes) == Creations(qs)
    decreases |qs|
  {
    hide Creates, Frame;
    if qs != [] {
      CreatesOf(qs[0]);
      SameCreations(bytes[1..], qs[1..]);
    }
  }

  lemma QueueEncodable(s: SpecState, k: nat)
    requires Inv(s) && k < |s.links|
    ensures forall q :: q in s.requests[k] ==> Encodable(q.cmd)
    ensures s.links[k].owner < |s.peers|
    ensures var issued := s.peers[s.links[k].owner].issued;
            forall q :: q in s.requests[k] ==> 1 <= q.id <= |issued| && issued[q.id - 1].cmd == q.cmd
  {
    hide Inv, PeerOk, RepliesOk, SyncAt, Encodable;
    InvShaped(s);
    LinkFacts(s, k);
    forall q | q in s.requests[k] ensures Encodable(q.cmd) {
      PeerEncodable(s, s.links[k].owner, q.id);
    }
  }

  lemma PeerEncodable(s: SpecState, c: nat, id: int32)
    requires Inv(s) && c < |s.peers| && 1 <= id <= |s.peers[c].issued|
    ensures Encodable(s.peers[c].issued[id - 1].cmd)
  {
    hide Inv, Buildable, Encodable, Live, TableOk, FiredOk, PhaseOk, BusyOk;
    PeerFacts(s, c);
    BuildableIsEncodable(s.peers[c].issued[id - 1].cmd);
  }

  lemma SameShort(b: ByteState, s: SpecState, c: nat, id: int32)
    requires Simulates(b, s) && Inv(s) && c < |s.peers| && 1 <= id <= |s.peers[c].issued|
    requires var k := s.peers[c].issued[id - 1].link; k < |s.links| && s.links[k].owner == c
    ensures var sent := s.peers[c].issued[id - 1];
            ShortOfHandles(b, sent.link, Frame(id, sent.cmd)) <==> Short(s, sent.link, id)
  {
    hide Inv, Frame, Encodable, CreationsIn, Creations, SameReplies;
    var sent := s.peers[c].issued[id - 1];
    var bytes, qs := b.requests[sent.link], s.requests[sent.link];
    assert SameRequests(bytes, qs);
    QueueEncodable(s, sent.link);
    PeerEncodable(s, c, id);
    RoomIsShared(b.server, s.server.store);
    forall j | 0 <= j < |qs|
      ensures bytes[j] == Frame(id, sent.cmd) <==> qs[j].id == id
      ensures CreationsIn(bytes[..j + 1]) == Creations(qs[..j + 1])
    {
      assert qs[j] in qs;
      UniqueDecoding(id, sent.cmd, qs[j].id, qs[j].cmd);
      SameCreations(bytes[..j + 1], qs[..j + 1]);
    }
  }

  lemma SameArrived(b: ByteState, s: SpecState, c: nat, id: int32)
    requires Simulates(b, s) && Inv(s) && c < |s.peers|
    ensures Carries(b.arrived[c], id) <==> Replied(s.arrived[c], id)
  {
    hide Inv, ScanResponse, Reply, Represents, SameRequests;
    forall j | 0 <= j < |s.arrived[c]| ensures DecodesAs(b.arrived[c][j], id) <==> s.arrived[c][j].id == id {
      ArrivedDecodes(s, c, j);
    }
  }

  lemma SameReachable(b: ByteState, s: SpecState, c: nat, id: int32)
    requires Simulates(b, s) && Inv(s) && OwnLinks(s) && c < |s.peers| && Awaited(s.peers[c], id)
    ensures CanStillFire(b, c, id) <==> Reachable(s, c, id)
  {
    hide Inv, Waits, ShortOfHandles, Short, Carries, Replied, SameRequests, SameReplies, Represents, Frame, OwnLink;
    SameArrived(b, s, c, id);
    var p := s.peers[c];
    assert Owns(s, c) && p.issued[id - 1] in p.issued;
    SameShort(b, s, c, id);
  }

  lemma SameRemaining(b: ByteState, s: SpecState, c: nat)
    requires Simulates(b, s) && c < |s.peers|
    ensures Remaining(b, c) == Remaining(s, c)
  {
    hide Represents, Reply, Frame;
  }

  // Everything that is known of a run at this point.
  lemma RunFacts(policies: seq<ExecutionPolicy>, events: seq<Event>)
    ensures var b, s := ByteRun(policies, events), SpecRun(policies, events);
            Inv(s) && Simulates(b, s) && NothingLost(s) && OwnLinks(s)
  {
    hide Inv, ByteRun, SpecRun, Simulates, NothingLost, OwnLinks;
    RunSimulates(policies, events);
    NothingLostInRun(policies, events);
    OwnLinksInRun(policies, events);
  }

  // ---------- the outcomes ----------

  // The callback of request `id` of client c has fired.
  predicate HasFired(policies: seq<ExecutionPolicy>, events: seq<Event>, c: nat, id: int32) {
    c < |ByteRun(policies, events).peers| && id in FiredIds(ByteRun(policies, events).peers[c].fired)
  }

  lemma AwaitedHasNotFired(s: SpecState, c: nat, id: int32)
    requires Inv(s) && c < |s.peers| && Awaited(s.peers[c], id)
    ensures id !in FiredIds(s.peers[c].fired)
  {
    hide Inv, FiredOk, HandlesOk, PhaseOk, BusyOk, RepliesOk, SyncAt, Waits;
    PeerFacts(s, c);
  }

  /** A callback that can still fire does so after finitely many steps of its client and the server
   *  thread of its connection alone, for clients of either kind. */
  lemma {:induction false} CallbackFires(policies: seq<ExecutionPolicy>, events: seq<Event>, c: nat, id: int32)
    returns (more: seq<Event>)
    requires c < |ByteRun(policies, events).peers| && Awaited(ByteRun(policies, events).peers[c], id)
    requires !ByteRun(policies, events).crashed && CanStillFire(ByteRun(policies, events), c, id)
    ensures HasFired(policies, events + more, c, id)
    ensures var b, b' := ByteRun(policies, events), ByteRun(policies, events + more);
            && (forall e :: e in more ==> Concerns(e, c, b.peers[c].link))
            && !b'.crashed && c < |b'.peers|
            && (b.peers[c].policy.Sync? && b.peers[c].phase == Awaiting(id) ==> b'.peers[c].phase == Ready)
    decreases Remaining(ByteRun(policies, events), c)
  {
    hide ByteRun, SpecRun, Inv, NothingLost, OwnLinks, CanStillFire, Reachable, Waits, ByteStep, SpecStep, FiredIds,
         SameRequests, SameReplies, Represents, Remaining;
    RunFacts(policies, events);
    var s := SpecRun(policies, events);
    AwaitedHasNotFired(s, c, id);
    SameReachable(ByteRun(policies, events), s, c, id);
    var e := FiresOrCloser(s, c, id);
    OneStepLater(policies, events, e);
    RunFacts(policies, events + [e]);
    var s' := SpecRun(policies, events + [e]);
    if id in FiredIds(s'.peers[c].fired) {
      more := [e];
    } else {
      SameReachable(ByteRun(policies, events + [e]), s', c, id);
      SameRemaining(ByteRun(policies, events), s, c);
      SameRemaining(ByteRun(policies, events + [e]), s', c);
      var rest := CallbackFires(policies, events + [e], c, id);
      more := [e] + rest;
      assert events + more == events + [e] + rest;
    }
  }

  // One of the two reasons why no reply will be delivered.
  ghost predicate DeadEnd(s: SpecState, c: nat, id: int32)
    requires Shaped(s)
  {
    c < |s.peers| && ((exists k: nat :: Stalled(s, c, k, id)) || Lost(s, c, id))
  }

  lemma {:induction false} DeadEndStays(policies: seq<ExecutionPolicy>, events: seq<Event>, more: seq<Event>, c: nat,
                                        id: int32)
    requires DeadEnd(SpecRun(policies, events), c, id)
    ensures DeadEnd(SpecRun(policies, events + more), c, id)
    decreases |more|
  {
    hide SpecRun, ByteRun, SpecNext, ByteNext, Inv, Simulates, Stalled, Lost;
    if more == [] {
      assert events + more == events;
    } else {
      var n := |more| - 1;
      var before := events + more[..n];
      DeadEndStays(policies, events, more[..n], c, id);
      assert events + more == before + [more[n]];
      OneStepLater(policies, before, more[n]);
      RunSimulates(policies, before);
      var s := SpecRun(policies, before);
      if k: nat :| Stalled(s, c, k, id) {
        StalledStays(s, more[n], c, k, id);
        NextPeers(s, more[n]);
      } else {
        LostStays(s, more[n], c, id);
        NextPeers(s, more[n]);
      }
    }
  }

  lemma NextPeers(s: SpecState, e: Event)
    requires Shaped(s)
    ensures |SpecNext(s, e).peers| == |s.peers|
  {
    hide SpecStep;
    SamePeerCount(s, e);
  }

  lemma DeadEndHasNotFired(s: SpecState, c: nat, id: int32)
    requires Inv(s) && DeadEnd(s, c, id)
    ensures id !in FiredIds(s.peers[c].fired)
  {
    hide Inv, Stalled, FiredIds;
    InvShaped(s);
    if k: nat :| Stalled(s, c, k, id) {
      StalledHasNotFired(s, c, k, id);
    }
  }

  lemma UnreachableIsDeadEnd(s: SpecState, c: nat, id: int32)
    requires Inv(s) && OwnLinks(s) && c < |s.peers| && Awaited(s.peers[c], id) && !Reachable(s, c, id)
    ensures DeadEnd(s, c, id)
  {
    hide Inv, Waits, Short, FiredIds, OwnLink, Lost, Replied;
    var p := s.peers[c];
    var k := p.issued[id - 1].link;
    InvShaped(s);
    assert Owns(s, c) && p.issued[id - 1] in p.issued;
    if s.links[k].live {
      assert Stalled(s, c, k, id);
    } else {
      AwaitedHasNotFired(s, c, id);
      GoneIsLost(s, c, id);
    }
  }

  /** A callback that cannot fire any more does not, whatever happens, and its request stays in the table. */
  lemma CallbackNeverFires(policies: seq<ExecutionPolicy>, events: seq<Event>, more: seq<Event>, c: nat, id: int32)
    requires c < |ByteRun(policies, events).peers| && Awaited(ByteRun(policies, events).peers[c], id)
    requires ByteRun(policies, events).crashed || !CanStillFire(ByteRun(policies, events), c, id)
    ensures !HasFired(policies, events + more, c, id)
    ensures c < |ByteRun(policies, events + more).peers|
    ensures id in ByteRun(policies, events + more).peers[c].pending
  {
    hide ByteRun, SpecRun, Inv, NothingLost, OwnLinks, CanStillFire, Reachable, DeadEnd, Waits, FiredIds,
         SameRequests, SameReplies, Represents;
    RunFacts(policies, events);
    var s := SpecRun(policies, events);
    IssuedGrows(policies, events, more, c);
    RunFacts(policies, events + more);
    if s.crashed {
      CrashedStays(policies, events, more);
      AwaitedHasNotFired(s, c, id);
    } else {
      SameReachable(ByteRun(policies, events), s, c, id);
      UnreachableIsDeadEnd(s, c, id);
      DeadEndStays(policies, events, more, c, id);
      DeadEndHasNotFired(SpecRun(policies, events + more), c, id);
    }
    TableConserved(policies, events + more, c);
  }

  lemma {:induction false} CrashedStays(policies: seq<ExecutionPolicy>, events: seq<Event>, more: seq<Event>)
    requires ByteRun(policies, events).crashed
    ensures ByteRun(policies, events + more) == ByteRun(policies, events)
    decreases |more|
  {
    hide ByteRun, SpecRun, ByteStep, SpecStep;
    if more == [] {
      assert events + more == events;
    } else {
      var n := |more| - 1;
      CrashedStays(policies, events, more[..n]);
      assert events + more == (events + more[..n]) + [more[n]];
      OneStepLater(policies, events + more[..n], more[n]);
    }
  }

  /** The callback of a waiting request fires in some continuation of the run if and only if it can
   *  still fire and the run has not left defined behaviour. */
  lemma FiresExactlyIf(policies: seq<ExecutionPolicy>, events: seq<Event>, c: nat, id: int32)
    requires c < |ByteRun(policies, events).peers| && Awaited(ByteRun(policies, events).peers[c], id)
    ensures (exists more: seq<Event> :: HasFired(policies, events + more, c, id))
       <==> !ByteRun(policies, events).crashed && CanStillFire(ByteRun(policies, events), c, id)
  {
    hide ByteRun, HasFired, CanStillFire, Waits;
    if !ByteRun(policies, events).crashed && CanStillFire(ByteRun(policies, events), c, id) {
      var more := CallbackFires(policies, events, c, id);
      assert HasFired(policies, events + more, c, id);
    } else if more: seq<Event> :| HasFired(policies, events + more, c, id) {
      CallbackNeverFires(policies, events, more, c, id);
    }
  }

  // ---------- blocking clients ----------

  // Client c blocks in a read.
  predicate Waiting<S, Q, R>(s: State<S, Q, R>, c: nat) {
    c < |s.peers| && s.peers[c].policy.Sync? && s.peers[c].phase.Awaiting?
  }

  // The client waits on a live connection for a create that there is no handle for.
  predicate OutOfHandles(b: ByteState, c: nat)
    requires Shaped(b) && Waiting(b, c)
  {
    var p := b.peers[c];
    var id := p.phase.id;
    && b.links[p.link].live && 1 <= id <= |p.issued|
    && ShortOfHandles(b, p.link, Frame(id, p.issued[id - 1].cmd))
  }

  lemma WaitingIsAwaited(s: SpecState, c: nat)
    requires Inv(s) && OwnLinks(s) && Waiting(s, c)
    requires var p := s.peers[c]; s.links[p.link].live || p.busy.Some? || s.arrived[c] != []
    ensures var p := s.peers[c];
            && Awaited(p, p.phase.id)
            && (Delivering(p, p.phase.id) || Replied(s.arrived[c], p.phase.id)
                || (s.links[p.link].live && p.issued[p.phase.id - 1].link == p.link))
  {
    hide Inv, LedgerOk, HistoryOk, PeerOk, QueueOk, Waits;
    InvShaped(s);
    PeerFacts(s, c);
    var p, k := s.peers[c], s.peers[c].link;
    WaitingIsPending(s, c);
    if p.busy.Some? {
      DeliveredIsAnswered(s, c);
      AnsweredWaits(s, c, p.busy.value.id);
    } else if s.arrived[c] != [] {
      assert ReplyOk(c, s.arrived[c][0], s.server.answers);
      AnsweredWaits(s, c, s.arrived[c][0].id);
    } else if s.responses[k] != [] {
      LinkFacts(s, k);
      assert OwnLink(s, k);
      assert ReplyOk(c, s.responses[k][0], s.server.answers) && s.responses[k][0] in s.responses[k];
      AnsweredWaits(s, c, s.responses[k][0].id);
    } else {
      QueueIsIssued(s, k);
    }
  }

  lemma WaitingIsPending(s: SpecState, c: nat)
    requires Inv(s) && Waiting(s, c)
    ensures s.peers[c].phase.id in s.peers[c].pending && 1 <= s.peers[c].phase.id <= |s.peers[c].issued|
  {
    hide Inv, HandlesOk, FiredOk, BusyOk, RepliesOk, SyncAt;
    PeerFacts(s, c);
  }

  lemma DeliveredIsAnswered(s: SpecState, c: nat)
    requires Inv(s) && c < |s.peers| && s.peers[c].busy.Some?
    ensures var key := Key(c, s.peers[c].busy.value.id);
            key in s.server.answers && !s.server.answers[key].Silent?
  {
    hide Inv, HandlesOk, FiredOk, TableOk, PhaseOk, RepliesOk, SyncAt, ValueOf;
    PeerFacts(s, c);
  }

  lemma AnsweredWaits(s: SpecState, c: nat, id: int32)
    requires Inv(s) && c < |s.peers| && Key(c, id) in s.server.answers && !s.server.answers[Key(c, id)].Silent?
    ensures 1 <= id <= |s.peers[c].issued| && Waits(s.peers[c].issued[id - 1].cmd)
  {
    hide Inv, Waits, Observe, ScanResponse;
    AnswerTyped(s, Key(c, id));
  }

  lemma QueueIsIssued(s: SpecState, k: nat)
    requires Inv(s) && k < |s.links|
    ensures s.links[k].owner < |s.peers|
    ensures var issued := s.peers[s.links[k].owner].issued;
            forall j :: 0 <= j < |s.requests[k]| ==>
              var q := s.requests[k][j];
              1 <= q.id <= |issued| && issued[q.id - 1] == Sent(q.cmd, k)
  {
    hide Inv, PeerOk, RepliesOk, SyncAt;
    InvShaped(s);
    LinkFacts(s, k);
  }

  /** A blocking client is never stuck: the server can serve its connection, or the reply can be
   *  read, parsed or delivered, or the read fails because the connection is gone. */
  lemma SyncNeverStuck(policies: seq<ExecutionPolicy>, events: seq<Event>, c: nat)
    requires Waiting(ByteRun(policies, events), c) && !ByteRun(policies, events).crashed
    ensures var b := ByteRun(policies, events);
            var p := b.peers[c];
            || CanServe(b, p.link) || CanRead(b, c) || CanBegin(b, c, 0) || CanFailRead(b, c)
            || (p.busy.Some? && p.busy.value.id in p.pending)
  {
    hide ByteRun, SpecRun, Inv, TableOk, FiredOk, HandlesOk, Represents, QueueOk, RepliesOk, Frame;
    RunSimulates(policies, events);
    var s := SpecRun(policies, events);
    InvShaped(s);
    PeerFacts(s, c);
    LinkFacts(s, s.peers[c].link);
  }

  /** Every wait can be ended by steps of the client and its own server thread alone, unless it is
   *  for a create and the handles are used up. If the connection lives, it ends with the
   *  client's callback. */
  lemma WaitEnds(policies: seq<ExecutionPolicy>, events: seq<Event>, c: nat) returns (more: seq<Event>)
    requires Waiting(ByteRun(policies, events), c) && !ByteRun(policies, events).crashed
    requires !OutOfHandles(ByteRun(policies, events), c)
    ensures var b, b' := ByteRun(policies, events), ByteRun(policies, events + more);
            var p := b.peers[c];
            && (forall e :: e in more ==> Concerns(e, c, p.link))
            && c < |b'.peers| && b'.peers[c].phase == Ready
            && (b.links[p.link].live ==> HasFired(policies, events + more, c, p.phase.id))
  {
    hide ByteRun, SpecRun, Inv, ShortOfHandles, Waits, ByteStep, FiredIds, SameRequests, SameReplies, Represents,
         NothingLost, OwnLinks, Replied, Carries;
    RunFacts(policies, events);
    var b, s := ByteRun(policies, events), SpecRun(policies, events);
    InvShaped(s);
    var p := b.peers[c];
    ArrivedCount(b, s, c);
    if b.links[p.link].live || p.busy.Some? || b.arrived[c] != [] {
      WaitingIsAwaited(s, c);
      SameArrived(b, s, c, p.phase.id);
      more := CallbackFires(policies, events, c, p.phase.id);
    } else {
      more := [ReadFails(c)];
      OneStepLater(policies, events, ReadFails(c));
      FailedReadReturns(b, c);
    }
  }

  lemma ArrivedCount(b: ByteState, s: SpecState, c: nat)
    requires Simulates(b, s) && c < |s.peers|
    ensures b.arrived[c] == [] <==> s.arrived[c] == []
  {
    hide Reply, Represents, SameRequests;
    assert SameReplies(b.arrived[c], s.arrived[c]);
  }

  lemma FailedReadReturns(b: ByteState, c: nat)
    requires Shaped(b) && Waiting(b, c) && CanFailRead(b, c)
    ensures c < |ByteStep(b, ReadFails(c)).peers| && ByteStep(b, ReadFails(c)).peers[c].phase == Ready
  {
  }

  // ---------- sending ----------

  // Client c is between two turns of its loop and may send this command, on an object it knows.
  predicate CanAsk(b: ByteState, c: nat, cmd: Command) {
    && !b.crashed && c < |b.peers|
    && var p := b.peers[c];
       && p.phase == Ready && p.busy.None? && |p.issued| < INT_MAX && Buildable(cmd)
       && (HasHandle(cmd) ==> cmd.handle in p.handles)
  }

  /** Every command that fits one read can be sent by every client that is ready: a plain value or a create
   *  at once, a command on an object after choosing any handle that the client knows. */
  lemma AnyCommandCanBeSent(policies: seq<ExecutionPolicy>, events: seq<Event>, c: nat, cmd: Command)
    returns (more: seq<Event>)
    requires CanAsk(ByteRun(policies, events), c, cmd)
    ensures var b, b' := ByteRun(policies, events), ByteRun(policies, events + more);
            var p := b.peers[c];
            && !b'.crashed && c < |b'.peers|
            && b'.peers[c].issued == p.issued + [Sent(cmd, p.link)] && b'.server == b.server
            && p.link < |b'.requests|
            && b'.requests[p.link] == b.requests[p.link] + if b.links[p.link].live then [Frame(NextId(p), cmd)] else []
  {
    hide ByteRun, SpecRun, Frame, Buildable, ByteStep, SpecStep;
    var b := ByteRun(policies, events);
    if HasHandle(cmd) {
      HandlesAreLive(policies, events, c);
      var i :| 0 <= i < |b.peers[c].handles| && b.peers[c].handles[i] == cmd.handle;
      var e1, e2, e3 := Pick(c), Choose(c, i), Send(c, cmd, false);
      OneStepLater(policies, events, e1);
      OneStepLater(policies, events + [e1], e2);
      OneStepLater(policies, events + [e1] + [e2], e3);
      PickAndChoose(b, c, i);
      SendNow(ByteStep(ByteStep(b, e1), e2), c, cmd);
      more := [e1, e2, e3];
      assert events + more == events + [e1] + [e2] + [e3];
    } else {
      more := [Send(c, cmd, false)];
      OneStepLater(policies, events, Send(c, cmd, false));
      SendNow(b, c, cmd);
    }
  }

  lemma PickAndChoose(b: ByteState, c: nat, i: nat)
    requires Shaped(b) && c < |b.peers| && b.peers[c].phase == Ready
    requires i < |b.peers[c].handles| && b.peers[c].handles[i] != -1
    ensures var b1 := ByteStep(b, Pick(c));
            && Shaped(b1) && b1.crashed == b.crashed
            && ByteStep(b1, Choose(c, i)) == WithPeer(b, c, b.peers[c].(phase := Chosen(b.peers[c].handles[i])))
  {
  }

  lemma SendNow(b: ByteState, c: nat, cmd: Command)
    requires Shaped(b) && c < |b.peers| && CanSend(b.peers[c], cmd)
    ensures var b' := ByteStep(b, Send(c, cmd, false));
            var p := b.peers[c];
            && b'.crashed == b.crashed && |b'.peers| == |b.peers| && |b'.requests| == |b.requests|
            && b'.server == b.server && b'.peers[c].issued == p.issued + [Sent(cmd, p.link)]
            && b'.requests[p.link] == b.requests[p.link] + if b.links[p.link].live then [Frame(NextId(p), cmd)] else []
  {
    hide MaySend, Frame, Waits;
  }
}
