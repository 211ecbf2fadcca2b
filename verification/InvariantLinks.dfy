/** Steps of connections, and sending, keep the invariant. */
module InvariantLinks {
  import opened Wire
  import opened Requests
  import opened ObjectStore
  import opened Server
  import opened DemoSimulator
  import opened Network
  import opened Machines
  import opened Invariant

  // ---------- connections ----------

  lemma DropKeepsInv(s: SpecState, k: nat)
    requires Inv(s)
    ensures Inv(PlainStep(s, Drop(k)))
  {
    hide LedgerOk, QueueOk, PeerOk, ReplyOk;
    var s' := PlainStep(s, Drop(k));
    forall d | 0 <= d < |s'.peers| ensures PeerInv(s', d) {
      PeerFacts(s, d);
    }
    forall k' | 0 <= k' < |s'.links| ensures LinkInv(s', k') {
      LinkFacts(s, k');
    }
  }

  lemma QuitKeepsInv(s: SpecState, k: nat)
    requires Inv(s)
    ensures Inv(PlainStep(s, Quit(k)))
  {
    hide LedgerOk, QueueOk, PeerOk, RepliesOk;
    var s' := PlainStep(s, Quit(k));
    forall d | 0 <= d < |s'.peers| ensures PeerInv(s', d) {
      PeerFacts(s, d);
    }
    forall k' | 0 <= k' < |s'.links| ensures LinkInv(s', k') {
      LinkFacts(s, k');
    }
  }

  lemma ReconnectKeepsInv(s: SpecState, c: nat)
    requires Inv(s)
    ensures Inv(PlainStep(s, Reconnect(c)))
  {
    hide LedgerOk, PeerOk, ReplyOk, QueueOk;
    if c < |s.peers| && s.peers[c].phase.Disconnected? {
      var s' := ReconnectOn(s, c);
      var p := s.peers[c];
      forall d | 0 <= d < |s'.peers| ensures PeerInv(s', d) {
        PeerFacts(s, d);
        if d == c {
          Reconnected(c, p, s'.peers[c], s.server);
        }
      }
      LinkFacts(s, p.link);
      forall k | 0 <= k < |s'.links| ensures LinkInv(s', k) {
        if k < |s.links| {
          LinkFacts(s, k);
        } else {
          EntriesInRange(s);
          EmptyQueue(k, c, p.issued, s.server);
        }
      }
    }
  }

  lemma EntriesInRange(s: SpecState)
    requires Inv(s)
    ensures forall i :: 0 <= i < |s.server.history| ==> s.server.history[i].link < |s.links|
  {
    hide PeerInv, LinkInv, LedgerOk;
  }

  lemma Reconnected(c: nat, p: Peer, p': Peer, l: Ledger)
    requires PeerOk(c, p, l) && p' == p.(phase := Ready, link := p'.link)
    ensures PeerOk(c, p', l)
  {
  }

  lemma EmptyQueue(k: nat, c: nat, issued: seq<Sent>, l: Ledger)
    ensures QueueOk(k, c, [], issued, l)
  {
  }

  // ---------- sending ----------

  lemma SentPeer(c: nat, p: Peer, live: bool, cmd: Command, noticed: bool, l: Ledger)
    requires PeerOk(c, p, l) && CanSend(p, cmd)
    ensures PeerOk(c, SendPeer(p, live, cmd, noticed), l)
  {
    hide Buildable, CallbackOf, TableOk, HandlesOk, Waits, ValueOf;
    SentTable(p, live, cmd, noticed);
    SentHandles(p, live, cmd, noticed, l.store);
  }

  lemma SentTable(p: Peer, live: bool, cmd: Command, noticed: bool)
    requires TableOk(p) && |p.issued| < INT_MAX
    ensures TableOk(SendPeer(p, live, cmd, noticed))
    ensures NextId(p) !in p.pending
  {
    hide CallbackOf, Waits;
    var p' := SendPeer(p, live, cmd, noticed);
    var n := |p.issued|;
    assert p'.issued[..n] == p.issued && p'.issued[n] == Sent(cmd, p.link);
    forall id | id in FiredIds(p.fired) ensures id <= n {
      var i :| 0 <= i < |p.fired| && p.fired[i].id == id;
      assert p.fired[i] in p.fired;
    }
  }

  lemma SentHandles(p: Peer, live: bool, cmd: Command, noticed: bool, store: Store)
    requires HandlesOk(p, store) && PhaseOk(p) && CanSend(p, cmd)
    ensures HandlesOk(SendPeer(p, live, cmd, noticed), store)
  {
    hide Buildable, CallbackOf, Waits;
  }

  // No result is known for an id that was not handed out yet.
  lemma UnknownId(s: SpecState, c: nat, id: int32)
    requires Inv(s) && c < |s.peers| && id > |s.peers[c].issued|
    ensures Key(c, id) !in s.server.answers
    ensures forall i :: 0 <= i < |s.server.history| && s.server.history[i].client == c ==> s.server.history[i].id < id
  {
    hide PeerOk, QueueOk, RepliesOk, SyncAt, Legal, Replay, HandlesFresh, PeerInv, LinkInv;
    forall key | key in s.server.answers && key.client == c ensures key.id < id {
      assert Recorded(s.server.history, key);
    }
  }

  // The new request goes to the end of its connection's queue.
  lemma SentQueue(k: nat, c: nat, qs: seq<Request>, issued: seq<Sent>, cmd: Command, l: Ledger)
    requires QueueOk(k, c, qs, issued, l) && |issued| < INT_MAX
    requires Key(c, |issued| + 1) !in l.answers
    requires forall i :: 0 <= i < |l.history| && l.history[i].link == k ==> l.history[i].id < |issued| + 1
    ensures QueueOk(k, c, qs + [Request(|issued| + 1, cmd)], issued + [Sent(cmd, k)], l)
  {
  }

  // The other queues of the same client are unaffected.
  lemma LongerIssued(k: nat, c: nat, qs: seq<Request>, issued: seq<Sent>, more: Sent, l: Ledger)
    requires QueueOk(k, c, qs, issued, l)
    ensures QueueOk(k, c, qs, issued + [more], l)
  {
  }

  lemma SentSync(p: Peer, link: Link, qs: seq<Request>, rs: seq<Response>, arrived: seq<Response>, cmd: Command,
                 noticed: bool)
    requires SyncOk(p, link, qs, rs, arrived) && CanSend(p, cmd)
    ensures var qs' := if link.live then qs + [Request(NextId(p), cmd)] else qs;
            SyncOk(SendPeer(p, link.live, cmd, noticed), link, qs', rs, arrived)
  {
    hide Buildable, CallbackOf;
    if link.live {
      assert (qs + [Request(NextId(p), cmd)])[|qs|] == Request(NextId(p), cmd);
    }
  }

  lemma LongerHistoryOk(history: seq<Entry>, peers: seq<Peer>, links: seq<Link>, c: nat, p: Peer, more: Sent)
    requires HistoryOk(history, peers, links) && c < |peers| && p.issued == peers[c].issued + [more]
    ensures HistoryOk(history, peers[c := p], links)
  {
  }

  lemma SendFields(p: Peer, live: bool, cmd: Command, noticed: bool)
    requires |p.issued| < INT_MAX
    ensures var p' := SendPeer(p, live, cmd, noticed);
            && p'.link == p.link && p'.issued == p.issued + [Sent(cmd, p.link)]
            && (live ==> !p'.phase.Disconnected?)
  {
  }

  lemma SendKeepsLink(s: SpecState, s': SpecState, c: nat, cmd: Command, noticed: bool, k: nat)
    requires Inv(s) && c < |s.peers| && CanSend(s.peers[c], cmd) && k < |s.links|
    requires s' == SendOn(s, c, cmd, noticed, Request(NextId(s.peers[c]), cmd)) && Shaped(s')
    ensures LinkInv(s', k)
  {
    hide Inv, LedgerOk, QueueOk, HistoryOk, PeerOk, SyncOk, RepliesOk, SendPeer;
    InvShaped(s);
    PeerFacts(s, c);
    LinkFacts(s, k);
    var p := s.peers[c];
    SendFields(p, s.links[p.link].live, cmd, noticed);
    if s.links[k].owner == c {
      if k == p.link && s.links[k].live {
        UnknownId(s, c, NextId(p));
        EntriesOfLink(s, k);
        SentQueue(k, c, s.requests[k], p.issued, cmd, s.server);
      } else {
        LongerIssued(k, c, s.requests[k], p.issued, Sent(cmd, p.link), s.server);
      }
    }
  }

  // The history of a connection belongs to its client.
  lemma EntriesOfLink(s: SpecState, k: nat)
    requires Inv(s) && k < |s.links|
    ensures forall i :: 0 <= i < |s.server.history| && s.server.history[i].link == k ==>
              s.server.history[i].client == s.links[k].owner
  {
    hide PeerInv, LinkInv, LedgerOk;
  }

  lemma SendKeepsPeer(s: SpecState, s': SpecState, c: nat, cmd: Command, noticed: bool, d: nat)
    requires Inv(s) && c < |s.peers| && CanSend(s.peers[c], cmd) && d < |s.peers|
    requires s' == SendOn(s, c, cmd, noticed, Request(NextId(s.peers[c]), cmd)) && Shaped(s')
    ensures PeerInv(s', d)
  {
    hide Inv, LedgerOk, QueueOk, HistoryOk, PeerOk, SyncOk, RepliesOk, SendPeer, CanSend;
    InvShaped(s);
    PeerFacts(s, d);
    PeerFacts(s, c);
    var p := s.peers[c];
    SendFields(p, s.links[p.link].live, cmd, noticed);
    if d == c {
      SentPeer(c, p, s.links[p.link].live, cmd, noticed, s.server);
      SentSync(p, s.links[p.link], s.requests[p.link], s.responses[p.link], s.arrived[c], cmd, noticed);
    } else {
      assert s.peers[d].link != p.link;
    }
  }

  lemma SendKeepsInv(s: SpecState, c: nat, cmd: Command, noticed: bool)
    requires Inv(s)
    ensures Inv(SpecStep(s, Send(c, cmd, noticed)))
  {
    hide LedgerOk, HistoryOk, PeerInv, LinkInv, SendPeer, CanSend, IdOverflows;
    if c < |s.peers| && CanSend(s.peers[c], cmd) {
      var s' := SpecStep(s, Send(c, cmd, noticed));
      var p := s.peers[c];
      SendFields(p, s.links[p.link].live, cmd, noticed);
      LongerHistoryOk(s.server.history, s.peers, s.links, c, s'.peers[c], Sent(cmd, p.link));
      forall d | 0 <= d < |s'.peers| ensures PeerInv(s', d) {
        SendKeepsPeer(s, s', c, cmd, noticed, d);
      }
      forall k | 0 <= k < |s'.links| ensures LinkInv(s', k) {
        SendKeepsLink(s, s', c, cmd, noticed, k);
      }
    } else {
      CrashKeepsInv(s);
    }
  }
}
