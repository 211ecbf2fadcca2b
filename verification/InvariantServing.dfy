/** Serving a request keeps the invariant. */
module InvariantServing {
  import opened Wire
  import opened DataSerializer
  import opened CustomClasses
  import opened Requests
  import opened ObjectStore
  import opened Server
  import opened DemoSimulator
  import opened Network
  import opened Machines
  import opened Invariant

  // ---------- serving ----------

  // Later ledgers know more answers, and their stores only grow.
  ghost predicate Extends(l: Ledger, l': Ledger) {
    && |l.store| <= |l'.store|
    && forall key :: key in l.answers ==> key in l'.answers && l'.answers[key] == l.answers[key]
  }

  lemma PeerExtends(c: nat, p: Peer, l: Ledger, l': Ledger)
    requires PeerOk(c, p, l) && Extends(l, l')
    ensures PeerOk(c, p, l')
  {
    hide TableOk, ValueOf, Seen;
    forall i | 0 <= i < |p.issued| ensures Live(l'.store, p.issued[i].cmd) {
      assert Live(l.store, p.issued[i].cmd);
    }
  }

  lemma RepliesExtend(c: nat, rs: seq<Response>, l: Ledger, l': Ledger)
    requires RepliesOk(c, rs, l.answers) && Extends(l, l')
    ensures RepliesOk(c, rs, l'.answers)
  {
  }

  lemma ReplayAppend(history: seq<Entry>, e: Entry)
    ensures Replay(history + [e]) == Execute(Replay(history), e.cmd, e.self).0
  {
    assert (history + [e])[..|history|] == history;
  }

  lemma EnterExtends(l: Ledger, c: nat, k: nat, q: Request, self: Address)
    requires Key(c, q.id) !in l.answers
    ensures Extends(l, Enter(l, c, k, q, self))
  {
    hide PrintText, Construct;
    StoreGrowth(l.store, q.cmd, self);
  }

  // Strings in the store come from requests of at most one buffer.
  lemma StoreStrings(store: Store, cmd: Command, self: Address)
    requires Buildable(cmd) && forall o :: o in store ==> |o.str| <= READ_SIZE
    ensures forall o :: o in Execute(store, cmd, self).0 ==> |o.str| <= READ_SIZE
    ensures Fits(Execute(store, cmd, self).1)
  {
    hide PrintText, PutInt, PutString, PutDouble;
    TextInFrame(cmd);
    if Live(store, cmd) && cmd.PrintToString? {
      assert store[cmd.handle] in store;
      PrintTextLength(store[cmd.handle]);
    }
    if Live(store, cmd) && cmd.Retrieve? {
      assert store[cmd.handle] in store;
    }
  }

  lemma TextInFrame(cmd: Command)
    ensures |TextOf(cmd)| <= |Encode(cmd)|
  {
  }

  lemma EnterKeepsLedger(l: Ledger, c: nat, k: nat, q: Request, self: Address)
    requires LedgerOk(l) && Key(c, q.id) !in l.answers && Buildable(q.cmd)
    requires q.cmd.Create? ==> |l.store| < INT_MAX
    ensures LedgerOk(Enter(l, c, k, q, self))
  {
    hide Execute, Fits, Buildable, Replay, Legal, AnswersMatch, HandlesFresh;
    var (store, result) := Execute(l.store, q.cmd, self);
    var e := Entry(c, k, q.id, q.cmd, self, result);
    ReplayAppend(l.history, e);
    StoreStrings(l.store, q.cmd, self);
    StoreGrowth(l.store, q.cmd, self);
    LegalAppend(l.history, e);
    MatchAppend(l.history, l.answers, e);
    FreshAppend(l.store, l.answers, Key(c, q.id), q.cmd, self);
  }

  lemma FreshAppend(store: Store, answers: map<Key, Result>, key: Key, cmd: Command, self: Address)
    requires HandlesFresh(store, answers)
    ensures HandlesFresh(Execute(store, cmd, self).0, answers[key := Execute(store, cmd, self).1])
  {
    hide Execute;
    HandleOfResult(store, cmd, self);
    StoreGrowth(store, cmd, self);
  }

  lemma LegalAppend(history: seq<Entry>, e: Entry)
    requires Legal(history) && e.result == Execute(Replay(history), e.cmd, e.self).1
    ensures Legal(history + [e])
  {
    hide Execute, Replay;
    var more := history + [e];
    assert more[..|history|] == history;
    forall i | 0 <= i < |history| ensures more[i] == history[i] && more[..i] == history[..i] {
    }
  }

  lemma MatchAppend(history: seq<Entry>, answers: map<Key, Result>, e: Entry)
    requires AnswersMatch(history, answers) && KeyOf(e) !in answers
    ensures AnswersMatch(history + [e], answers[KeyOf(e) := e.result])
  {
    var more := history + [e];
    forall key | key in answers[KeyOf(e) := e.result] ensures Recorded(more, key) {
      if key == KeyOf(e) {
        assert KeyOf(more[|history|]) == key;
      } else {
        assert Recorded(history, key);
        var i :| 0 <= i < |history| && KeyOf(history[i]) == key;
        assert more[i] == history[i];
      }
    }
  }

  lemma HandleOfResult(store: Store, cmd: Command, self: Address)
    ensures var (store', result) := Execute(store, cmd, self);
            result.Handle? ==> result.h == |store| && |store'| == |store| + 1
  {
  }

  // The next request of connection k, with everything the invariant says of it.
  lemma NextRequest(s: SpecState, k: nat)
    requires Inv(s) && CanServe(s, k)
    ensures var c, q := s.links[k].owner, s.requests[k][0];
            && 1 <= q.id <= |s.peers[c].issued| && s.peers[c].issued[q.id - 1] == Sent(q.cmd, k)
            && Key(c, q.id) !in s.server.answers
            && Buildable(q.cmd) && Live(s.server.store, q.cmd)
  {
    hide LedgerOk, HistoryOk, TableOk, FiredOk, PhaseOk, BusyOk, SyncOk, RepliesOk, Buildable, Live;
    PeerFacts(s, s.links[k].owner);
    LinkFacts(s, k);
  }

  lemma ServeKeepsHistory(s: SpecState, k: nat, e: Entry)
    requires Inv(s) && CanServe(s, k)
    requires e.client == s.links[k].owner && e.link == k
    requires e.id == s.requests[k][0].id && e.cmd == s.requests[k][0].cmd
    ensures HistoryOk(s.server.history + [e], s.peers, s.links)
  {
    hide LedgerOk, PeerOk, SyncOk, RepliesOk, Buildable, Live, PeerInv, LinkInv;
    NextRequest(s, k);
    LinkFacts(s, k);
  }

  // The queue that lost its first request.
  lemma ServedQueue(k: nat, c: nat, qs: seq<Request>, issued: seq<Sent>, l: Ledger, self: Address)
    requires QueueOk(k, c, qs, issued, l) && qs != []
    ensures QueueOk(k, c, qs[1..], issued, Enter(l, c, k, qs[0], self))
  {
    hide Execute;
    var l' := Enter(l, c, k, qs[0], self);
    var rest := qs[1..];
    assert forall i :: 0 <= i < |rest| ==> rest[i] == qs[i + 1];
    assert forall i :: 0 <= i < |l.history| ==> l'.history[i] == l.history[i];
  }

  // Every other queue: its requests have keys of their own.
  lemma OtherQueue(j: nat, d: nat, qs: seq<Request>, issued: seq<Sent>, l: Ledger,
                   c: nat, k: nat, q: Request, self: Address)
    requires QueueOk(j, d, qs, issued, l) && j != k
    requires c == d ==> 1 <= q.id <= |issued| && issued[q.id - 1].link == k
    ensures QueueOk(j, d, qs, issued, Enter(l, c, k, q, self))
  {
    hide Execute;
    var l' := Enter(l, c, k, q, self);
    assert forall i :: 0 <= i < |l.history| ==> l'.history[i] == l.history[i];
  }

  // A blocking client whose connection served its first request.
  lemma ServedSync(c: nat, p: Peer, link: Link, qs: seq<Request>, rs: seq<Response>, arrived: seq<Response>,
                   l: Ledger, r: Response)
    requires SyncOk(p, link, qs, rs, arrived) && BusyOk(c, p, l.answers)
    requires RepliesOk(c, rs, l.answers) && RepliesOk(c, arrived, l.answers)
    requires QueueOk(p.link, c, qs, p.issued, l) && qs != []
    requires r.id == qs[0].id && (r.result.Silent? <==> !Waits(qs[0].cmd))
    ensures r.result.Silent? ==> SyncOk(p, link, qs[1..], rs, arrived)
    ensures !r.result.Silent? && link.live ==> SyncOk(p, link, qs[1..], rs + [r], arrived)
    ensures !link.live ==> SyncOk(p, link.(serving := false), qs[1..], rs, arrived)
  {
    hide ValueOf, Waits;
    var rest := qs[1..];
    assert forall i :: 0 <= i < |rest| ==> rest[i] == qs[i + 1];
    if p.policy.Sync? && link.live && Waits(qs[0].cmd) {
      NothingYet(c, p, rs, l.answers, qs[0].id);
      NothingYet(c, p, arrived, l.answers, qs[0].id);
      assert forall j :: 0 <= j < |rest| ==> rest[j].id != qs[0].id;
    }
    if p.policy.Sync? && p.phase.Awaiting? && link.live && |rs| + |arrived| + Count(p.busy.Some?) == 0 {
      var j :| 0 <= j < |qs| && qs[j].id == p.phase.id && Waits(qs[j].cmd);
      assert j > 0 ==> rest[j - 1] == qs[j];
    }
  }

  /** The server answers exactly the requests that were built to wait. */
  lemma WaitsIffAnswered(l: Ledger, q: Request, self: Address)
    requires Live(l.store, q.cmd)
    ensures !ResultOf(l, q, self).Silent? <==> Waits(q.cmd)
  {
  }

  lemma NothingYet(c: nat, p: Peer, rs: seq<Response>, answers: map<Key, Result>, id: int32)
    requires RepliesOk(c, rs, answers) && Key(c, id) !in answers && p.phase == Awaiting(id)
    requires forall j :: 0 <= j < |rs| ==> p.phase == Awaiting(rs[j].id)
    ensures rs == []
  {
    assert rs != [] ==> rs[0].id == id;
  }

  // The state after serving the first request of connection k.
  function AfterServe(s: SpecState, k: nat, self: Address): SpecState
    requires Shaped(s) && CanServe(s, k)
  {
    var q := s.requests[k][0];
    var result := ResultOf(s.server, q, self);
    ServeOn(s, k, Enter(s.server, s.links[k].owner, k, q, self),
            if result.Silent? then [] else [Response(q.id, result)])
  }

  lemma ServeKeepsPeer(s: SpecState, k: nat, self: Address, d: nat)
    requires Inv(s) && CanServe(s, k) && d < |s.peers| && Shaped(AfterServe(s, k, self))
    ensures PeerInv(AfterServe(s, k, self), d)
  {
    hide Inv, Enter, ResultOf, LedgerOk, HistoryOk, Extends, Buildable, Live, QueueOk, RepliesOk, SyncOk, TableOk,
         FiredOk, HandlesOk, PhaseOk, BusyOk, Waits;
    InvShaped(s);
    var c, q := s.links[k].owner, s.requests[k][0];
    var result := ResultOf(s.server, q, self);
    var l := Enter(s.server, c, k, q, self);
    var p := s.peers[d];
    PeerFacts(s, d);
    LinkFacts(s, k);
    NextRequest(s, k);
    EnterExtends(s.server, c, k, q, self);
    PeerExtends(d, p, s.server, l);
    RepliesExtend(d, s.arrived[d], s.server, l);
    if p.link == k {
      WaitsIffAnswered(s.server, q, self);
      ServedSync(d, p, s.links[k], s.requests[k], s.responses[k], s.arrived[d], s.server, Response(q.id, result));
    }
  }

  lemma ServeKeepsLink(s: SpecState, k: nat, self: Address, j: nat)
    requires Inv(s) && CanServe(s, k) && j < |s.links| && Shaped(AfterServe(s, k, self))
    ensures LinkInv(AfterServe(s, k, self), j)
  {
    hide Inv, Enter, ResultOf, LedgerOk, HistoryOk, Extends, Buildable, Live, QueueOk, RepliesOk;
    InvShaped(s);
    var c, q := s.links[k].owner, s.requests[k][0];
    var result := ResultOf(s.server, q, self);
    var l := Enter(s.server, c, k, q, self);
    LinkFacts(s, j);
    NextRequest(s, k);
    EnterExtends(s.server, c, k, q, self);
    RepliesExtend(s.links[j].owner, s.responses[j], s.server, l);
    if j == k {
      ServedQueue(k, c, s.requests[k], s.peers[c].issued, s.server, self);
      ServedReplies(c, s.responses[k], q, s.server, k, self);
    } else {
      OtherQueue(j, s.links[j].owner, s.requests[j], s.peers[s.links[j].owner].issued, s.server, c, k, q, self);
    }
  }

  lemma ServeKeepsInv(s: SpecState, k: nat, self: Address)
    requires Inv(s)
    ensures Inv(SpecStep(s, Serve(k, self)))
  {
    hide LedgerOk, HistoryOk, PeerInv, LinkInv, Buildable, Live, Execute;
    if CanServeMessage(s, k) {
      var c, q := s.links[k].owner, s.requests[k][0];
      var l := Enter(s.server, c, k, q, self);
      var s' := SpecStep(s, Serve(k, self));
      NextRequest(s, k);
      EnterKeepsLedger(s.server, c, k, q, self);
      ServeKeepsHistory(s, k, l.history[|s.server.history|]);
      SameOwners(l.history, s.peers, s.links, s'.links);
      forall d | 0 <= d < |s'.peers| ensures PeerInv(s', d) {
        ServeKeepsPeer(s, k, self, d);
      }
      forall j | 0 <= j < |s'.links| ensures LinkInv(s', j) {
        ServeKeepsLink(s, k, self, j);
      }
    } else {
      CrashKeepsInv(s);
    }
  }

  lemma ServedReplies(c: nat, rs: seq<Response>, q: Request, l: Ledger, k: nat, self: Address)
    requires RepliesOk(c, rs, l.answers) && Key(c, q.id) !in l.answers
    ensures var l' := Enter(l, c, k, q, self);
            var r := Response(q.id, ResultOf(l, q, self));
            !r.result.Silent? ==> RepliesOk(c, rs + [r], l'.answers)
  {
    hide Execute;
  }

  lemma SameOwners(history: seq<Entry>, peers: seq<Peer>, links: seq<Link>, links': seq<Link>)
    requires HistoryOk(history, peers, links) && |links'| == |links|
    requires forall k :: 0 <= k < |links| ==> links'[k].owner == links[k].owner
    ensures HistoryOk(history, peers, links')
  {
  }
}
