/** Two conditions under which a waiting request is never answered to its client: the handles do not
 *  last until it is served, or its connection is gone. Both hold for ever once they hold. */
module DeadEnds {
  import opened Wire
  import opened Requests
  import opened ObjectStore
  import opened Server
  import opened ClassRepositories
  import opened ResponseParsers
  import opened DemoSimulator
  import opened Network
  import opened Machines
  import opened Invariant
  import opened InvariantPeers
  import opened InvariantServing
  import opened NoLoss
  import opened Progress

  // ---------- not enough handles ----------

  predicate Stalled(s: SpecState, c: nat, k: nat, id: int32)
    requires Shaped(s)
  {
    k < |s.links| && s.links[k].owner == c && Short(s, k, id)
  }

  lemma MoreIsShort(n: nat, n': nat, qs: seq<Request>, more: seq<Request>, id: int32)
    requires n <= n' && ShortOf(n, qs, id)
    ensures ShortOf(n', qs + more, id)
  {
    hide Creations;
    var j :| 0 <= j < |qs| && qs[j].id == id && n + Creations(qs[..j + 1]) > INT_MAX;
    assert (qs + more)[..j + 1] == qs[..j + 1] && (qs + more)[j].id == id;
  }

  lemma StalledSend(s: SpecState, e: Event, c: nat, k: nat, id: int32)
    requires Shaped(s) && Stalled(s, c, k, id) && e.Send?
    ensures Shaped(SpecStep(s, e)) && Stalled(SpecStep(s, e), c, k, id)
  {
    hide ShortOf, MaySend, SendPeer;
    SpecStepShaped(s, e);
    if e.c < |s.peers| && CanSend(s.peers[e.c], e.cmd) {
      MoreIsShort(|s.server.store|, |s.server.store|, s.requests[k], [Request(NextId(s.peers[e.c]), e.cmd)], id);
    }
  }

  // The request itself is not served, because it is a create without a handle.
  lemma StalledHead(s: SpecState, c: nat, k: nat, id: int32)
    requires Inv(s) && Stalled(s, c, k, id) && CanServeMessage(s, k)
    ensures s.requests[k][0].id != id
  {
    hide Inv, PeerOk, RepliesOk, SyncAt, Replay, Legal, AnswersMatch, HandlesFresh;
    InvShaped(s);
    LinkFacts(s, k);
    StoreBounded(s);
    var qs := s.requests[k];
    var j :| 0 <= j < |qs| && qs[j].id == id && |s.server.store| + Creations(qs[..j + 1]) > INT_MAX;
    CreationsPop(qs, 0);
  }

  lemma StoreBounded(s: SpecState)
    requires Inv(s)
    ensures |s.server.store| <= INT_MAX
  {
    hide HistoryOk, PeerInv, LinkInv, Replay, Legal, AnswersMatch, HandlesFresh;
  }

  lemma StalledServe(s: SpecState, e: Event, c: nat, k: nat, id: int32)
    requires Inv(s) && Stalled(s, c, k, id) && e.Serve?
    ensures Shaped(SpecStep(s, e)) && Stalled(SpecStep(s, e), c, k, id)
  {
    hide Inv, Execute, ShortOf;
    InvShaped(s);
    SpecStepShaped(s, e);
    if CanServeMessage(s, e.k) {
      var n, qs := |s.server.store|, s.requests[k];
      StoreGrowth(s.server.store, s.requests[e.k][0].cmd, e.self);
      if e.k == k {
        StalledHead(s, c, k, id);
        ShortPop(n, qs, id);
      } else {
        MoreIsShort(n, |Execute(s.server.store, s.requests[e.k][0].cmd, e.self).0|, qs, [], id);
        assert qs + [] == qs;
      }
    }
  }

  lemma StalledElse(s: SpecState, e: Event, c: nat, k: nat, id: int32)
    requires Shaped(s) && Stalled(s, c, k, id) && !e.Send? && !e.Serve?
    ensures Shaped(SpecStep(s, e)) && Stalled(SpecStep(s, e), c, k, id)
  {
    hide ShortOf, Observe, Choice, ValueOf;
    SpecStepShaped(s, e);
  }

  lemma StalledStays(s: SpecState, e: Event, c: nat, k: nat, id: int32)
    requires Inv(s) && Stalled(s, c, k, id)
    ensures Shaped(SpecNext(s, e)) && Stalled(SpecNext(s, e), c, k, id)
  {
    hide Inv, SpecStep, Stalled;
    InvShaped(s);
    if s.crashed {
    } else if e.Send? {
      StalledSend(s, e, c, k, id);
    } else if e.Serve? {
      StalledServe(s, e, c, k, id);
    } else {
      StalledElse(s, e, c, k, id);
    }
  }

  lemma StalledHasNotFired(s: SpecState, c: nat, k: nat, id: int32)
    requires Inv(s) && c < |s.peers| && Stalled(s, c, k, id)
    ensures id !in FiredIds(s.peers[c].fired)
  {
    hide Inv, HandlesOk, PhaseOk, BusyOk, RepliesOk, SyncAt, Seen, Creations;
    PeerFacts(s, c);
    LinkFacts(s, k);
  }

  // ---------- the connection is gone ----------

  // No response to request `id` is left anywhere, and none will be written.
  ghost predicate Lost(s: SpecState, c: nat, id: int32)
    requires Shaped(s)
  {
    && c < |s.peers|
    && var p := s.peers[c];
       && 1 <= id <= |p.issued|
       && p.issued[id - 1].link < |s.links| && !s.links[p.issued[id - 1].link].live
       && id !in FiredIds(p.fired) && !Delivering(p, id) && !Replied(s.arrived[c], id)
       && (forall k :: 0 <= k < |s.links| && s.links[k].owner == c ==> !Replied(s.responses[k], id))
  }

  lemma LostServe(s: SpecState, e: Event, c: nat, id: int32)
    requires Inv(s) && Lost(s, c, id) && e.Serve?
    ensures Shaped(SpecStep(s, e)) && Lost(SpecStep(s, e), c, id)
  {
    hide Inv, Enter, ResultOf, FiredIds, Waits, Live, Buildable;
    InvShaped(s);
    SpecStepShaped(s, e);
    if CanServe(s, e.k) {
      NextRequest(s, e.k);
    }
  }

  lemma LostSend(s: SpecState, e: Event, c: nat, id: int32)
    requires Shaped(s) && Lost(s, c, id) && e.Send?
    ensures Shaped(SpecStep(s, e)) && Lost(SpecStep(s, e), c, id)
  {
    hide MaySend, Waits, CallbackOf, FiredIds;
    SpecStepShaped(s, e);
  }

  lemma LostRead(s: SpecState, e: Event, c: nat, id: int32)
    requires Inv(s) && Lost(s, c, id) && (e.Read? || e.Repeat?)
    ensures Shaped(SpecStep(s, e)) && Lost(SpecStep(s, e), c, id)
  {
    hide Inv, FiredIds, PeerOk, RepliesOk, SyncAt;
    InvShaped(s);
    SpecStepShaped(s, e);
    PeerFacts(s, c);
  }

  lemma LostFinish(s: SpecState, e: Event, c: nat, id: int32)
    requires Shaped(s) && Lost(s, c, id) && e.Finish?
    ensures Shaped(SpecStep(s, e)) && Lost(SpecStep(s, e), c, id)
  {
    hide Observe, FiredIds, Replied;
    SpecStepShaped(s, e);
    var p := s.peers[c];
    if e.c == c && p.busy.Some? && p.busy.value.id in p.pending && p.pending[p.busy.value.id] != NoCallback {
      FiredIdsAppend(p.fired, FinishPeer(p).fired[|p.fired|]);
    }
  }

  lemma LostBegin(s: SpecState, e: Event, c: nat, id: int32)
    requires Shaped(s) && Lost(s, c, id) && e.Begin?
    ensures Shaped(SpecStep(s, e)) && Lost(SpecStep(s, e), c, id)
  {
    hide ValueOf, FiredIds;
    SpecStepShaped(s, e);
  }

  lemma LostPhase(s: SpecState, e: Event, c: nat, id: int32)
    requires Shaped(s) && Lost(s, c, id) && (e.Pick? || e.Choose? || e.ReadFails? || e.Stop?)
    ensures Shaped(SpecStep(s, e)) && Lost(SpecStep(s, e), c, id)
  {
    hide PlainStep, FiredIds, Replied;
    SpecStepShaped(s, e);
    PhaseOnly(s, e, c);
  }

  lemma LostLink(s: SpecState, e: Event, c: nat, id: int32)
    requires Shaped(s) && Lost(s, c, id) && (e.Reconnect? || e.Drop? || e.Quit?)
    ensures Shaped(SpecStep(s, e)) && Lost(SpecStep(s, e), c, id)
  {
    hide FiredIds;
    SpecStepShaped(s, e);
  }

  lemma LostStays(s: SpecState, e: Event, c: nat, id: int32)
    requires Inv(s) && Lost(s, c, id)
    ensures Shaped(SpecNext(s, e)) && Lost(SpecNext(s, e), c, id)
  {
    hide Inv, SpecStep, Lost;
    InvShaped(s);
    if !s.crashed {
      match e
      case Serve(_, _) => LostServe(s, e, c, id);
      case Send(_, _, _) => LostSend(s, e, c, id);
      case Read(_) => LostRead(s, e, c, id);
      case Repeat(_, _) => LostRead(s, e, c, id);
      case Finish(_) => LostFinish(s, e, c, id);
      case Begin(_, _) => LostBegin(s, e, c, id);
      case Reconnect(_) => LostLink(s, e, c, id);
      case Drop(_) => LostLink(s, e, c, id);
      case Quit(_) => LostLink(s, e, c, id);
      case _ => LostPhase(s, e, c, id);
    }
  }

  // What is neither delivered nor on its way, on a connection that is gone, is lost.
  lemma GoneIsLost(s: SpecState, c: nat, id: int32)
    requires Inv(s) && OwnLinks(s) && c < |s.peers| && 1 <= id <= |s.peers[c].issued|
    requires var p := s.peers[c];
             && (p.issued[id - 1].link < |s.links| ==> !s.links[p.issued[id - 1].link].live)
             && id !in FiredIds(p.fired) && !Delivering(p, id) && !Replied(s.arrived[c], id)
    ensures Lost(s, c, id)
  {
    hide Inv, FiredIds, LinkOk, RepliesOk, QueueOk;
    InvShaped(s);
    var p := s.peers[c];
    assert Owns(s, c) && p.issued[id - 1] in p.issued;
    forall k | 0 <= k < |s.links| && s.links[k].owner == c ensures !Replied(s.responses[k], id) {
      LinkFacts(s, k);
      assert OwnLink(s, k);
    }
  }
}
