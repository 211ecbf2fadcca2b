/** What holds in every reachable state of the system on messages. */
module Invariant {
  import opened Wire
  import opened Requests
  import opened ObjectStore
  import opened Server
  import opened ClassRepositories
  import opened ResponseParsers
  import opened DemoSimulator
  import opened Client
  import opened Network
  import opened Machines

  // ---------- the ledger ----------

  // The store after a history, executed from the empty store.
  function Replay(history: seq<Entry>): Store {
    if history == [] then []
    else
      var e := history[|history| - 1];
      Execute(Replay(history[..|history| - 1]), e.cmd, e.self).0
  }

  // Every result in the history is the one that the store gave at that point.
  ghost predicate Legal(history: seq<Entry>) {
    forall i :: 0 <= i < |history| ==>
      history[i].result == Execute(Replay(history[..i]), history[i].cmd, history[i].self).1
  }

  function KeyOf(e: Entry): Key {
    Key(e.client, e.id)
  }

  ghost predicate Recorded(history: seq<Entry>, key: Key) {
    exists i :: 0 <= i < |history| && KeyOf(history[i]) == key
  }

  ghost predicate AnswersMatch(history: seq<Entry>, answers: map<Key, Result>) {
    && (forall i :: 0 <= i < |history| ==>
          KeyOf(history[i]) in answers && answers[KeyOf(history[i])] == history[i].result)
    && (forall key :: key in answers ==> Recorded(history, key))
    && (forall i, j :: 0 <= i < j < |history| ==> KeyOf(history[i]) != KeyOf(history[j]))
  }

  // Handles are answered once, and only for objects that exist.
  ghost predicate HandlesFresh(store: Store, answers: map<Key, Result>) {
    && (forall key :: key in answers && answers[key].Handle? ==> answers[key].h < |store|)
    && (forall a, b :: a in answers && b in answers && answers[a].Handle? && answers[a] == answers[b] ==> a == b)
  }

  ghost predicate LedgerOk(l: Ledger) {
    && l.store == Replay(l.history) && Legal(l.history)
    && AnswersMatch(l.history, l.answers)
    && HandlesFresh(l.store, l.answers)
    && (forall key :: key in l.answers ==> Fits(l.answers[key]))
    && (forall o :: o in l.store ==> |o.str| <= READ_SIZE)
    && |l.store| <= INT_MAX
  }

  // One connection is served in the order of its ids, and only with requests of its client.
  ghost predicate HistoryOk(history: seq<Entry>, peers: seq<Peer>, links: seq<Link>) {
    && (forall i :: 0 <= i < |history| ==>
          && history[i].link < |links| && links[history[i].link].owner == history[i].client < |peers|
          && 1 <= history[i].id <= |peers[history[i].client].issued|
          && peers[history[i].client].issued[history[i].id - 1] == Sent(history[i].cmd, history[i].link))
    && (forall i, j :: 0 <= i < j < |history| && history[i].link == history[j].link ==> history[i].id < history[j].id)
  }

  // ---------- clients ----------

  function FiredIds(fired: seq<Fired>): set<int32> {
    set i | 0 <= i < |fired| :: fired[i].id
  }

  // The table and the fired callbacks share out the ids 1..n that were handed out.
  ghost predicate TableOk(p: Peer) {
    && |p.issued| <= INT_MAX
    && (forall id: int32 :: 1 <= id <= |p.issued| ==> (id in p.pending <==> id !in FiredIds(p.fired)))
    && (forall id :: id in p.pending ==> 1 <= id <= |p.issued| && p.pending[id] == CallbackOf(p.issued[id - 1].cmd))
    && (forall f :: f in p.fired ==> 1 <= f.id <= |p.issued|)
    && (forall i, j :: 0 <= i < j < |p.fired| ==> p.fired[i].id != p.fired[j].id)
  }

  ghost predicate FiredOk(c: nat, p: Peer, answers: map<Key, Result>) {
    forall f :: f in p.fired ==>
      Key(c, f.id) in answers && !answers[Key(c, f.id)].Silent? && f.seen == Seen(answers[Key(c, f.id)])
  }

  ghost predicate HandlesOk(p: Peer, store: Store) {
    && Distinct(p.handles)
    && (forall h :: h in p.handles ==> 0 <= h < |store| && exists f :: f in p.fired && f.seen == Created(h))
    && (forall i :: 0 <= i < |p.issued| ==> Buildable(p.issued[i].cmd) && Live(store, p.issued[i].cmd))
  }

  ghost predicate PhaseOk(p: Peer) {
    match p.phase
    case Choosing(n) => 0 < n <= |p.handles|
    case Chosen(h) => h in p.handles
    case Awaiting(id) => p.policy.Sync? && id == |p.issued| && id in p.pending
    case _ => true
  }

  ghost predicate BusyOk(c: nat, p: Peer, answers: map<Key, Result>) {
    p.busy.Some? ==>
      var d := p.busy.value;
      && d.id in p.pending
      && Key(c, d.id) in answers && !answers[Key(c, d.id)].Silent?
      && d.value == ValueOf(answers[Key(c, d.id)])
      && d.isNew == (p.pending[d.id].OnCreate? && d.value.IntV?)
  }

  ghost predicate PeerOk(c: nat, p: Peer, l: Ledger) {
    TableOk(p) && FiredOk(c, p, l.answers) && HandlesOk(p, l.store) && PhaseOk(p) && BusyOk(c, p, l.answers)
  }

  // ---------- messages ----------

  ghost predicate ReplyOk(c: nat, r: Response, answers: map<Key, Result>) {
    Key(c, r.id) in answers && answers[Key(c, r.id)] == r.result && !r.result.Silent?
  }

  ghost predicate RepliesOk(c: nat, rs: seq<Response>, answers: map<Key, Result>) {
    forall j :: 0 <= j < |rs| ==> ReplyOk(c, rs[j], answers)
  }

  // The unserved requests of connection k, owned by client c.
  ghost predicate QueueOk(k: nat, c: nat, qs: seq<Request>, issued: seq<Sent>, l: Ledger) {
    && (forall j :: 0 <= j < |qs| ==>
          && 1 <= qs[j].id <= |issued| && issued[qs[j].id - 1] == Sent(qs[j].cmd, k)
          && Key(c, qs[j].id) !in l.answers)
    && (forall i, j :: 0 <= i < j < |qs| ==> qs[i].id < qs[j].id)
    && (forall i, j :: 0 <= i < |l.history| && l.history[i].link == k && 0 <= j < |qs| ==> l.history[i].id < qs[j].id)
  }

  ghost predicate LinkOk(k: nat, link: Link, peers: seq<Peer>) {
    && link.owner < |peers|
    && (link.live ==> link.serving && peers[link.owner].link == k && !peers[link.owner].phase.Disconnected?)
  }

  // ---------- the synchronous client ----------

  function Count(b: bool): nat {
    if b then 1 else 0
  }

  /** A blocking client is owed at most one reply, that of the request it waits for; while the
   *  connection lives, it is owed exactly that one. */
  ghost predicate SyncOk(p: Peer, link: Link, qs: seq<Request>, rs: seq<Response>, arrived: seq<Response>) {
    p.policy.Sync? ==>
      && (forall j :: 0 <= j < |rs| ==> p.phase == Awaiting(rs[j].id))
      && (forall j :: 0 <= j < |arrived| ==> p.phase == Awaiting(arrived[j].id))
      && (p.busy.Some? ==> p.phase == Awaiting(p.busy.value.id))
      && (link.live ==> forall j :: 0 <= j < |qs| && Waits(qs[j].cmd) ==> p.phase == Awaiting(qs[j].id))
      && |rs| + |arrived| + Count(p.busy.Some?) <= 1
      && (p.phase.Awaiting? && link.live && |rs| + |arrived| + Count(p.busy.Some?) == 0 ==>
            exists j :: 0 <= j < |qs| && qs[j].id == p.phase.id && Waits(qs[j].cmd))
  }

  ghost predicate PeerInv(s: SpecState, c: nat)
    requires Shaped(s) && c < |s.peers|
  {
    && PeerOk(c, s.peers[c], s.server)
    && s.links[s.peers[c].link].owner == c
    && RepliesOk(c, s.arrived[c], s.server.answers)
    && SyncAt(s, c)
  }

  ghost predicate LinkInv(s: SpecState, k: nat)
    requires Shaped(s) && k < |s.links|
  {
    var c := s.links[k].owner;
    && LinkOk(k, s.links[k], s.peers)
    && (!s.links[k].live ==> s.responses[k] == [])
    && RepliesOk(c, s.responses[k], s.server.answers)
    && QueueOk(k, c, s.requests[k], s.peers[c].issued, s.server)
  }

  ghost predicate Inv(s: SpecState) {
    && Shaped(s)
    && LedgerOk(s.server)
    && HistoryOk(s.server.history, s.peers, s.links)
    && (forall c :: 0 <= c < |s.peers| ==> PeerInv(s, c))
    && (forall k :: 0 <= k < |s.links| ==> LinkInv(s, k))
  }

  ghost predicate SyncAt(s: SpecState, c: nat)
    requires Shaped(s) && c < |s.peers|
  {
    var k := s.peers[c].link;
    SyncOk(s.peers[c], s.links[k], s.requests[k], s.responses[k], s.arrived[c])
  }

  lemma InvShaped(s: SpecState)
    requires Inv(s)
    ensures Shaped(s)
  {
  }

  // The invariant is not about whether the run is over.
  lemma CrashKeepsInv(s: SpecState)
    requires Inv(s)
    ensures Inv(s.(crashed := true))
  {
    hide LedgerOk, HistoryOk, PeerOk, LinkOk, QueueOk, RepliesOk, SyncOk;
    var s' := s.(crashed := true);
    forall c | 0 <= c < |s'.peers| ensures PeerInv(s', c) {
      assert PeerInv(s, c);
    }
    forall k | 0 <= k < |s'.links| ensures LinkInv(s', k) {
      assert LinkInv(s, k);
    }
  }

  // What the invariant says of one client.
  lemma PeerFacts(s: SpecState, c: nat)
    requires Inv(s) && c < |s.peers|
    ensures PeerOk(c, s.peers[c], s.server) && s.links[s.peers[c].link].owner == c
    ensures RepliesOk(c, s.arrived[c], s.server.answers) && SyncAt(s, c)
  {
    hide LedgerOk, HistoryOk, PeerOk, LinkOk, QueueOk, RepliesOk, SyncAt;
    assert PeerInv(s, c);
  }

  // What the invariant says of one connection.
  lemma LinkFacts(s: SpecState, k: nat)
    requires Inv(s) && k < |s.links|
    ensures LinkOk(k, s.links[k], s.peers) && (!s.links[k].live ==> s.responses[k] == [])
    ensures RepliesOk(s.links[k].owner, s.responses[k], s.server.answers)
    ensures QueueOk(k, s.links[k].owner, s.requests[k], s.peers[s.links[k].owner].issued, s.server)
  {
    hide LedgerOk, HistoryOk, PeerOk, LinkOk, QueueOk, RepliesOk, SyncAt;
    assert LinkInv(s, k);
  }

  /** Initially. */
  lemma InvStart(policies: seq<ExecutionPolicy>)
    ensures Inv(Start(Ledger([], [], map[]), policies))
  {
  }
}
