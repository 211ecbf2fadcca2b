/** Steps inside one client keep the invariant: its main thread, and the delivery of responses. */
module InvariantPeers {
  import opened Wire
  import opened CustomClasses
  import opened Requests
  import opened ObjectStore
  import opened Server
  import opened ResponseParsers
  import opened DemoSimulator
  import opened Network
  import opened Machines
  import opened Invariant

  // ---------- steps inside one client ----------

  // Only client c changed, and neither its requests nor its connection.
  lemma OnePeer(s: SpecState, c: nat, p: Peer, arrived: seq<Response>)
    requires Inv(s) && c < |s.peers|
    requires p.link == s.peers[c].link && p.issued == s.peers[c].issued
    requires p.phase.Disconnected? ==> s.peers[c].phase.Disconnected?
    requires PeerOk(c, p, s.server) && RepliesOk(c, arrived, s.server.answers)
    requires SyncOk(p, s.links[p.link], s.requests[p.link], s.responses[p.link], arrived)
    ensures Inv(s.(peers := s.peers[c := p], arrived := s.arrived[c := arrived]))
  {
    hide LedgerOk, QueueOk, RepliesOk, PeerOk, SyncOk;
    var s' := s.(peers := s.peers[c := p], arrived := s.arrived[c := arrived]);
    forall d | 0 <= d < |s'.peers| ensures PeerInv(s', d) {
      PeerFacts(s, d);
    }
    forall k | 0 <= k < |s'.links| ensures LinkInv(s', k) {
      LinkFacts(s, k);
    }
  }

  // A change of phase that owes nothing to and awaits nothing from the synchronous protocol.
  lemma OnePhase(s: SpecState, c: nat, phase: Phase)
    requires Inv(s) && c < |s.peers|
    requires PhaseOk(s.peers[c].(phase := phase)) && !phase.Awaiting? && !phase.Disconnected?
    requires s.peers[c].policy.Sync? && s.peers[c].phase.Awaiting? ==>
               !s.links[s.peers[c].link].live && s.arrived[c] == [] && s.peers[c].busy.None?
    ensures Inv(WithPeer(s, c, s.peers[c].(phase := phase)))
  {
    hide LedgerOk, QueueOk, RepliesOk, TableOk, FiredOk, HandlesOk, Buildable;
    var p := s.peers[c].(phase := phase);
    PeerFacts(s, c);
    LinkFacts(s, p.link);
    SameTable(s.peers[c], p);
    assert s.arrived[c := s.arrived[c]] == s.arrived;
    OnePeer(s, c, p, s.arrived[c]);
  }

  lemma SameTable(p: Peer, p': Peer)
    requires p' == p.(phase := p'.phase)
    ensures TableOk(p) <==> TableOk(p')
    ensures forall c, answers :: FiredOk(c, p, answers) <==> FiredOk(c, p', answers)
    ensures forall store :: HandlesOk(p, store) <==> HandlesOk(p', store)
  {
  }

  lemma PickKeepsInv(s: SpecState, c: nat)
    requires Inv(s)
    ensures Inv(PlainStep(s, Pick(c)))
  {
    hide LedgerOk, QueueOk, RepliesOk, TableOk, FiredOk, HandlesOk, Buildable, SyncOk;
    if c < |s.peers| {
      var p := s.peers[c];
      if p.phase.Ready? && |p.handles| > 0 {
        OnePhase(s, c, Choosing(|p.handles|));
      } else {
        assert s.peers[c := p] == s.peers;
      }
    }
  }

  /** The choice of a handle never indexes outside the list and never yields the invalid handle,
   *  whatever was registered since the size was read. */
  lemma ChoiceIsSafe(p: Peer, store: Store, rand: nat)
    requires PhaseOk(p) && HandlesOk(p, store) && p.phase.Choosing?
    ensures ChoosePeer(p, rand).Some?
    ensures var h := p.handles[rand % p.phase.size];
            ChoosePeer(p, rand).value == p.(phase := Chosen(h)) && h in p.handles && 0 <= h < |store|
  {
    hide Live, Buildable;
    assert p.handles[rand % p.phase.size] in p.handles;
  }

  lemma ChooseKeepsInv(s: SpecState, c: nat, rand: nat)
    requires Inv(s)
    ensures Inv(PlainStep(s, Choose(c, rand)))
  {
    hide LedgerOk, QueueOk, RepliesOk, TableOk, FiredOk, HandlesOk, Buildable, SyncOk;
    if c < |s.peers| {
      var p := s.peers[c];
      if p.phase.Choosing? {
        PeerFacts(s, c);
        ChoiceIsSafe(p, s.server.store, rand);
        hide ChoosePeer;
        OnePhase(s, c, Chosen(p.handles[rand % p.phase.size]));
      } else {
        assert s.peers[c := p] == s.peers;
      }
    }
  }

  lemma ReadFailsKeepsInv(s: SpecState, c: nat)
    requires Inv(s)
    ensures Inv(PlainStep(s, ReadFails(c)))
  {
    hide LedgerOk, QueueOk, RepliesOk, TableOk, FiredOk, HandlesOk, Buildable, SyncOk;
    if CanFailRead(s, c) {
      OnePhase(s, c, Ready);
    }
  }

  lemma StopKeepsInv(s: SpecState, c: nat)
    requires Inv(s)
    ensures Inv(PlainStep(s, Stop(c)))
  {
    hide LedgerOk, QueueOk, RepliesOk, TableOk, FiredOk, HandlesOk, Buildable, SyncOk;
    if c < |s.peers| && (s.peers[c].phase.Ready? || s.peers[c].phase.Disconnected?) {
      OnePhase(s, c, Stopped);
    }
  }

  lemma RepeatKeepsInv(s: SpecState, c: nat, i: nat)
    requires Inv(s)
    ensures Inv(PlainStep(s, Repeat(c, i)))
  {
    hide LedgerOk, QueueOk, PeerOk;
    if c < |s.peers| && s.peers[c].policy.Async? && i < |s.arrived[c]| {
      assert s.peers[c := s.peers[c]] == s.peers;
      PeerFacts(s, c);
      OnePeer(s, c, s.peers[c], s.arrived[c] + [s.arrived[c][i]]);
    }
  }

  // ---------- delivering a response ----------

  lemma LedgerFacts(s: SpecState)
    requires Inv(s)
    ensures AnswersMatch(s.server.history, s.server.answers)
    ensures HistoryOk(s.server.history, s.peers, s.links)
  {
    hide PeerInv, LinkInv, Replay, Legal, HandlesFresh, AnswersMatch, HistoryOk;
  }

  // The entry of the history behind an answer.
  lemma AnswerEntry(s: SpecState, key: Key) returns (i: nat)
    requires Inv(s) && key in s.server.answers
    ensures i < |s.server.history| && KeyOf(s.server.history[i]) == key
    ensures s.server.answers[key] == s.server.history[i].result
    ensures key.client < |s.peers| && 1 <= key.id <= |s.peers[key.client].issued|
    ensures s.peers[key.client].issued[key.id - 1].cmd == s.server.history[i].cmd
  {
    hide Inv;
    LedgerFacts(s);
    assert Recorded(s.server.history, key);
    i :| 0 <= i < |s.server.history| && KeyOf(s.server.history[i]) == key;
  }

  /** An answer belongs to a waiting request, and the callback registered for that request gets
   *  to see exactly the result, of its own type. */
  lemma AnswerTyped(s: SpecState, key: Key)
    requires Inv(s) && key in s.server.answers && !s.server.answers[key].Silent?
    ensures key.client < |s.peers| && 1 <= key.id <= |s.peers[key.client].issued|
    ensures var cmd := s.peers[key.client].issued[key.id - 1].cmd;
            var result := s.server.answers[key];
            && Waits(cmd) && CallbackOf(cmd) != NoCallback
            && ScanResponse(Reply(key.id, result)) == Decoded(key.id, ValueOf(result))
            && Observe(CallbackOf(cmd), ValueOf(result)) == Seen(result)
            && (cmd.Create? <==> result.Handle?)
  {
    hide PeerOk, QueueOk, RepliesOk, SyncOk, ScanResponse, Observe, Replay, HandlesFresh, HistoryOk;
    var i := AnswerEntry(s, key);
    var e := s.server.history[i];
    var before := Replay(s.server.history[..i]);
    SilentUnlessLive(before, e.cmd, e.self);
    TypedResponse(before, e.id, e.cmd, e.self);
  }

  lemma SilentUnlessLive(store: Store, cmd: Command, self: Address)
    ensures !Live(store, cmd) ==> Execute(store, cmd, self).1.Silent?
    ensures !Execute(store, cmd, self).1.Silent? ==> (cmd.Create? <==> Execute(store, cmd, self).1.Handle?)
  {
  }

  /** A handle that is still to be delivered is not yet in the client's list. */
  lemma UndeliveredIsUnknown(s: SpecState, c: nat, id: int32)
    requires Inv(s) && c < |s.peers| && id in s.peers[c].pending
    requires Key(c, id) in s.server.answers && s.server.answers[Key(c, id)].Handle?
    ensures var h := s.server.answers[Key(c, id)].h;
            Narrow(h) == h < |s.server.store| && forall x :: x in s.peers[c].handles ==> x != h
  {
    hide QueueOk, RepliesOk, SyncOk, HistoryOk, PhaseOk, BusyOk, Legal, Replay, Buildable, Live;
    PeerFacts(s, c);
    var p, h := s.peers[c], s.server.answers[Key(c, id)].h;
    forall x | x in p.handles ensures x != h {
      var f :| f in p.fired && f.seen == Created(x);
      FiredIdIn(p.fired, f);
      assert s.server.answers[Key(c, f.id)] == Handle(x);
    }
  }

  lemma FiredIdIn(fired: seq<Fired>, f: Fired)
    requires f in fired
    ensures f.id in FiredIds(fired)
  {
    var i :| 0 <= i < |fired| && fired[i] == f;
  }

  lemma FiredIdsAppend(fired: seq<Fired>, f: Fired)
    ensures FiredIds(fired + [f]) == FiredIds(fired) + {f.id}
  {
    var more := fired + [f];
    assert forall i :: 0 <= i < |fired| ==> more[i] == fired[i];
    assert more[|fired|] == f;
    forall id | id in FiredIds(fired) + {f.id} ensures id in FiredIds(more) {
      if id in FiredIds(fired) {
        var i :| 0 <= i < |fired| && fired[i].id == id;
        assert more[i].id == id;
      }
    }
  }

  lemma ReadKeepsInv(s: SpecState, c: nat)
    requires Inv(s)
    ensures Inv(PlainStep(s, Read(c)))
  {
    hide LedgerOk, QueueOk, PeerOk, ReplyOk, HistoryOk;
    if CanRead(s, c) {
      var s' := ReadOn(s, c);
      var k := s.peers[c].link;
      assert s'.responses[k] == s.responses[k][1..];
      assert s'.arrived[c] == s.arrived[c] + [s.responses[k][0]];
      PeerFacts(s, c);
      LinkFacts(s, k);
      forall d | 0 <= d < |s'.peers| ensures PeerInv(s', d) {
        PeerFacts(s, d);
      }
      forall k' | 0 <= k' < |s'.links| ensures LinkInv(s', k') {
        LinkFacts(s, k');
      }
    }
  }

  lemma BeginKeepsInv(s: SpecState, c: nat, i: nat)
    requires Inv(s)
    ensures Inv(SpecStep(s, Begin(c, i)))
  {
    hide Inv, LedgerOk, QueueOk, HistoryOk, Observe, TableOk, FiredOk, HandlesOk, ValueOf, CallbackOf, Seen;
    InvShaped(s);
    if CanBegin(s, c, i) {
      PeerFacts(s, c);
      var p, r := s.peers[c], s.arrived[c][i];
      assert ReplyOk(c, r, s.server.answers);
      var arrived := Remove(s.arrived[c], i);
      AnswerTyped(s, Key(c, r.id));
      if r.id in p.pending {
        NewHandle(s, c, r.id);
        var d := Delivery(r.id, ValueOf(r.result), p.pending[r.id].OnCreate? && ValueOf(r.result).IntV?);
        var p' := p.(busy := Some(d));
        SameLists(p, p');
        OnePeer(s, c, p', arrived);
      } else {
        assert p.(phase := Returned(p)) == p;
        OnePeer(s, c, p, arrived);
      }
    }
  }

  lemma PendingCallback(s: SpecState, c: nat, id: int32)
    requires Inv(s) && c < |s.peers| && id in s.peers[c].pending
    ensures 1 <= id <= |s.peers[c].issued|
    ensures s.peers[c].pending[id] == CallbackOf(s.peers[c].issued[id - 1].cmd)
  {
    hide Inv, CallbackOf, FiredOk, HandlesOk, PhaseOk, BusyOk, SyncOk, RepliesOk;
    PeerFacts(s, c);
  }

  // The check of a create callback always finds its handle missing from the list.
  lemma NewHandle(s: SpecState, c: nat, id: int32)
    requires Inv(s) && c < |s.peers| && id in s.peers[c].pending
    requires Key(c, id) in s.server.answers && !s.server.answers[Key(c, id)].Silent?
    ensures var v := ValueOf(s.server.answers[Key(c, id)]);
            s.peers[c].pending[id].OnCreate? ==> v.IntV? && v.x !in s.peers[c].handles
  {
    hide Inv, Observe, Seen, ScanResponse;
    AnswerTyped(s, Key(c, id));
    PendingCallback(s, c, id);
    if s.peers[c].pending[id].OnCreate? {
      UndeliveredIsUnknown(s, c, id);
    }
  }

  lemma SameLists(p: Peer, p': Peer)
    requires p' == p.(busy := p'.busy)
    ensures TableOk(p) <==> TableOk(p')
    ensures forall c, answers :: FiredOk(c, p, answers) <==> FiredOk(c, p', answers)
    ensures forall store :: HandlesOk(p, store) <==> HandlesOk(p', store)
    ensures PhaseOk(p) <==> PhaseOk(p')
  {
  }

  /** Finishing a delivery fires one callback, with the store's result, and moves its id from the
   *  table to the fired ones. It never sees a failed cast or a broken object. */
  lemma FinishDelivers(s: SpecState, c: nat)
    requires Inv(s) && c < |s.peers| && s.peers[c].busy.Some?
    ensures var id := s.peers[c].busy.value.id;
            && id in s.peers[c].pending && Key(c, id) in s.server.answers
            && var result := s.server.answers[Key(c, id)];
               var p' := FinishPeer(s.peers[c]);
               && p'.fired == s.peers[c].fired + [Fired(id, Seen(result))]
               && Observe(s.peers[c].pending[id], s.peers[c].busy.value.value) == Seen(result)
               && p'.handles == if result.Handle? then s.peers[c].handles + [Narrow(result.h)] else s.peers[c].handles
  {
    hide Inv, Observe, Seen, ScanResponse, FiredOk, HandlesOk, PhaseOk, TableOk, SyncOk, RepliesOk;
    PeerFacts(s, c);
    var p := s.peers[c];
    PendingCallback(s, c, p.busy.value.id);
    AnswerTyped(s, Key(c, p.busy.value.id));
  }

  lemma FinishKeepsInv(s: SpecState, c: nat)
    requires Inv(s)
    ensures Inv(PlainStep(s, Finish(c)))
  {
    hide Inv, Observe, RepliesOk, CallbackOf, Seen, ValueOf, FinishPeer, TableOk, FiredOk, HandlesOk;
    InvShaped(s);
    if c < |s.peers| && s.peers[c].busy.Some? {
      PeerFacts(s, c);
      var p := s.peers[c];
      FinishDelivers(s, c);
      FinishedPeer(s, c);
      SeenIsSound(s.server.answers[Key(c, p.busy.value.id)]);
      assert s.arrived[c := s.arrived[c]] == s.arrived;
      OnePeer(s, c, FinishPeer(p), s.arrived[c]);
    }
  }

  lemma SeenIsSound(result: Result)
    ensures Seen(result) != Broken && Seen(result) != BadCast
    ensures !result.Silent? ==> Seen(result) != Ignored
  {
  }

  lemma FinishedPeer(s: SpecState, c: nat)
    requires Inv(s) && c < |s.peers| && s.peers[c].busy.Some?
    requires s.peers[c].busy.value.id in s.peers[c].pending
    ensures var p' := FinishPeer(s.peers[c]);
            && PeerOk(c, p', s.server)
            && p'.link == s.peers[c].link && p'.issued == s.peers[c].issued
            && (p'.phase.Disconnected? ==> s.peers[c].phase.Disconnected?)
            && SyncOk(p', s.links[p'.link], s.requests[p'.link], s.responses[p'.link], s.arrived[c])
  {
    hide Inv, Observe, RepliesOk, CallbackOf, Seen, ValueOf, TableOk, HandlesOk, FinishPeer, FiredOk, SyncOk;
    InvShaped(s);
    PeerFacts(s, c);
    FinishDelivers(s, c);
    var p, p' := s.peers[c], FinishPeer(s.peers[c]);
    var f := Fired(p.busy.value.id, Seen(s.server.answers[Key(c, p.busy.value.id)]));
    FinishFields(p);
    FinishedTable(p, p', f);
    FinishedFired(c, p, p', f, s.server.answers);
    FinishedHandles(s, c);
    LinkFacts(s, p.link);
    FinishedSync(c, p, p', s.links[p.link], s.requests[p.link], s.responses[p.link], s.arrived[c], s.server);
  }

  lemma FinishFields(p: Peer)
    requires p.busy.Some? && p.busy.value.id in p.pending
    ensures var p' := FinishPeer(p);
            && p'.policy == p.policy && p'.link == p.link && p'.issued == p.issued && p'.busy.None?
            && p'.phase == Returned(p) && p'.pending == p.pending - {p.busy.value.id} && p.handles <= p'.handles
  {
  }

  lemma FinishedFired(c: nat, p: Peer, p': Peer, f: Fired, answers: map<Key, Result>)
    requires FiredOk(c, p, answers) && p'.fired == p.fired + [f]
    requires Key(c, f.id) in answers && !answers[Key(c, f.id)].Silent? && f.seen == Seen(answers[Key(c, f.id)])
    ensures FiredOk(c, p', answers)
  {
  }

  // Once a blocking client has its reply it is owed nothing.
  lemma FinishedSync(c: nat, p: Peer, p': Peer, link: Link, qs: seq<Request>, rs: seq<Response>, arrived: seq<Response>,
                     l: Ledger)
    requires SyncOk(p, link, qs, rs, arrived) && p.busy.Some? && BusyOk(c, p, l.answers)
    requires QueueOk(p.link, c, qs, p.issued, l)
    requires p'.policy == p.policy && p'.busy.None? && p'.phase == Returned(p)
    ensures SyncOk(p', link, qs, rs, arrived)
  {
    hide ValueOf;
  }

  lemma FinishedTable(p: Peer, p': Peer, f: Fired)
    requires TableOk(p) && f.id in p.pending
    requires p'.issued == p.issued && p'.pending == p.pending - {f.id} && p'.fired == p.fired + [f]
    ensures TableOk(p')
  {
    hide CallbackOf;
    FiredIdsAppend(p.fired, f);
    forall g | g in p.fired ensures g.id != f.id {
      FiredIdIn(p.fired, g);
    }
  }

  lemma FinishedHandles(s: SpecState, c: nat)
    requires Inv(s) && c < |s.peers| && s.peers[c].busy.Some?
    requires s.peers[c].busy.value.id in s.peers[c].pending
    ensures HandlesOk(FinishPeer(s.peers[c]), s.server.store)
  {
    hide Inv, Observe, RepliesOk, CallbackOf, TableOk, FiredOk, Buildable, Live, SyncOk, PhaseOk;
    PeerFacts(s, c);
    FinishDelivers(s, c);
    var p, p' := s.peers[c], FinishPeer(s.peers[c]);
    var id := p.busy.value.id;
    if s.server.answers[Key(c, id)].Handle? {
      UndeliveredIsUnknown(s, c, id);
      assert p'.fired[|p'.fired| - 1].seen == Created(Narrow(s.server.answers[Key(c, id)].h));
    }
  }
}
