/** What holds of the system on bytes in every run: for every number of clients of either kind
 *  and every interleaving of their threads, the server threads and connection failures. */
module Theorems {
  import opened Wire
  import opened CustomClasses
  import opened ClassRegistries
  import opened Requests
  import opened ObjectStore
  import opened ServerCorrect
  import opened ClassRepositories
  import opened ResponseParsers
  import opened DemoSimulator
  import opened Client
  import opened Network
  import opened Machines
  import opened Invariant
  import opened InvariantPeers
  import opened InvariantServing
  import opened InvariantSteps
  import opened Simulation
  import opened NoLoss

  // What the server executed over a run, in order.
  function History(policies: seq<ExecutionPolicy>, events: seq<Event>): seq<Entry> {
    SpecRun(policies, events).server.history
  }

  // One of the events made a counter pass INT_MAX.
  predicate Overflowed(policies: seq<ExecutionPolicy>, events: seq<Event>) {
    exists n :: 0 <= n < |events| && Overflows(ByteRun(policies, events[..n]), events[n])
  }

  /** A run leaves defined behaviour if and only if a create is served when the handle counter is
   *  INT_MAX, or a client numbers a request when its id counter is. No run reads outside a
   *  message, indexes outside a list, or restores a broken object. */
  lemma {:induction false} FaultsAreOverflows(policies: seq<ExecutionPolicy>, events: seq<Event>)
    ensures ByteRun(policies, events).crashed <==> Overflowed(policies, events)
    decreases |events|
  {
    hide Inv, ByteStep, SpecStep, Overflows;
    if events != [] {
      var n := |events| - 1;
      var b, s := ByteRun(policies, events[..n]), SpecRun(policies, events[..n]);
      FaultsAreOverflows(policies, events[..n]);
      RunSimulates(policies, events[..n]);
      if !b.crashed {
        ByteStepFaults(b, s, events[n]);
      }
      OverflowedLast(policies, events);
    }
  }

  lemma OverflowedLast(policies: seq<ExecutionPolicy>, events: seq<Event>)
    requires events != []
    ensures var n := |events| - 1;
            Overflowed(policies, events)
            <==> Overflowed(policies, events[..n]) || Overflows(ByteRun(policies, events[..n]), events[n])
  {
    hide ByteRun, Overflows;
    var n := |events| - 1;
    var before := events[..n];
    forall i | 0 <= i < n ensures before[..i] == events[..i] && before[i] == events[i] {
    }
  }

  lemma ByteStepFaults(b: ByteState, s: SpecState, e: Event)
    requires Simulates(b, s) && Inv(s) && !b.crashed
    ensures ByteStep(b, e).crashed <==> Overflows(b, e)
  {
    hide Inv, ByteStep, SpecStep, CanServe, CanServeMessage, CanServeBytes, IdOverflows, SameRequests, SameReplies,
         Represents;
    InvShaped(s);
    StepSimulates(b, s, e);
    StepFaults(s, e);
    if e.Serve? {
      SameServable(b, s, e.k);
    }
  }

  /** The history grows by exactly one entry whenever the server on bytes serves a request, and by no
   *  other event. The entry is what those bytes encode, with the connection and the client they
   *  came from; the registry takes the store's step, and the bytes of its result go back. */
  lemma HistoryIsWhatIsServed(policies: seq<ExecutionPolicy>, events: seq<Event>, e: Event)
    ensures var b, b' := ByteRun(policies, events), ByteRun(policies, events + [e]);
            var h, h' := History(policies, events), History(policies, events + [e]);
            if e.Serve? && !b.crashed && CanServeBytes(b, e.k) then
              && |h'| == |h| + 1 && h <= h'
              && IsServed(b, b', e.k, h'[|h|], Replay(h))
            else h' == h
  {
    hide ByteRun, SpecRun, Inv, ByteStep, SpecStep, IsServed, Replay, CanServeBytes, Simulates;
    RunSimulates(policies, events);
    RunSimulates(policies, events + [e]);
    OneStepLater(policies, events, e);
    var b, s := ByteRun(policies, events), SpecRun(policies, events);
    InvShaped(s);
    LedgerIsLegal(s);
    if !b.crashed {
      SameCrash(b, s);
      if e.Serve? && CanServeBytes(b, e.k) {
        ServedEntry(b, s, ByteStep(b, e), e);
      } else {
        OthersKeepHistory(b, s, e);
      }
    } else {
      SameCrash(b, s);
    }
  }

  // Connection k was served its first request, which `entry` records, on this store.
  ghost predicate IsServed(b: ByteState, b': ByteState, k: nat, entry: Entry, store: Store)
    requires Shaped(b) && Shaped(b') && CanServe(b, k)
  {
    var (store', result) := Execute(store, entry.cmd, entry.self);
    && entry.link == k && entry.client == b.links[k].owner && entry.result == result
    && b.requests[k][0] == Frame(entry.id, entry.cmd)
    && Represents(b.server, store) && Represents(b'.server, store')
    && k < |b'.links| && b'.requests[k] == b.requests[k][1..]
    && (b.links[k].live ==> b'.responses[k] == b.responses[k] + Replies(entry.id, result))
  }

  lemma SameCrash(b: ByteState, s: SpecState)
    requires Simulates(b, s)
    ensures b.crashed == s.crashed
  {
  }

  lemma ServedEntry(b: ByteState, s: SpecState, b': ByteState, e: Event)
    requires Simulates(b, s) && Inv(s) && e.Serve? && CanServeBytes(b, e.k)
    requires b' == ByteStep(b, e) && Simulates(b', SpecStep(s, e)) && s.server.store == Replay(s.server.history)
    ensures var h, h' := s.server.history, SpecStep(s, e).server.history;
            |h'| == |h| + 1 && h <= h' && IsServed(b, b', e.k, h'[|h|], Replay(h))
  {
    hide Inv, Execute, Replay, Frame, Reply, ServerParser.Serve, Reading, SameReplies;
    SameServable(b, s, e.k);
    NextRequest(s, e.k);
    BuildableIsEncodable(s.requests[e.k][0].cmd);
    assert SameRequests(b.requests[e.k], s.requests[e.k]);
    ServeRefines(b.server, s.server.store, s.requests[e.k][0].id, s.requests[e.k][0].cmd, e.self);
  }

  lemma OthersKeepHistory(b: ByteState, s: SpecState, e: Event)
    requires Simulates(b, s) && Inv(s) && !(e.Serve? && CanServeBytes(b, e.k))
    ensures SpecStep(s, e).server.history == s.server.history
  {
    hide Inv, Simulates, PlainStep, CanSend, IdOverflows, CanBegin, BeginOn, Execute, CanServeBytes, CanServeMessage;
    InvShaped(s);
    PlainKeepsServer(s, e);
    if e.Serve? {
      SameServable(b, s, e.k);
    }
    if e.Begin? {
      SendKeepsServer(s, e);
    }
  }

  // Event n made the server on bytes execute this entry on this store.
  ghost predicate ServedBy(policies: seq<ExecutionPolicy>, events: seq<Event>, n: nat, entry: Entry, store: Store)
    requires n < |events|
  {
    var b := ByteRun(policies, events[..n]);
    && events[n].Serve? && !b.crashed && CanServeBytes(b, events[n].k)
    && IsServed(b, ByteRun(policies, events[..n + 1]), events[n].k, entry, store)
  }

  lemma {:induction false} EntryWasServed(policies: seq<ExecutionPolicy>, events: seq<Event>, i: nat) returns (n: nat)
    requires i < |History(policies, events)|
    ensures n < |events| && |History(policies, events[..n])| == i
    ensures ServedBy(policies, events, n, History(policies, events)[i], Replay(History(policies, events)[..i]))
    decreases |events|
  {
    hide ByteRun, SpecNext, IsServed, Replay, CanServeBytes;
    n := |events| - 1;
    assert events[..n] + [events[n]] == events == events[..n + 1];
    HistoryIsWhatIsServed(policies, events[..n], events[n]);
    var h := History(policies, events[..n]);
    if i < |h| {
      n := EntryWasServed(policies, events[..n], i);
      assert events[..|events| - 1][..n] == events[..n] && events[..|events| - 1][..n + 1] == events[..n + 1];
      assert h[..i] == History(policies, events)[..i];
    } else {
      assert h == History(policies, events)[..i];
    }
  }

  // The server on bytes executed this entry on this store at some point of the run.
  ghost predicate WasServed(policies: seq<ExecutionPolicy>, events: seq<Event>, entry: Entry, store: Store) {
    exists n :: 0 <= n < |events| && ServedBy(policies, events, n, entry, store)
  }

  /** The history is a sequential run of the object store, and the registry is its final store. Each
   *  entry is a request that the server on bytes consumed, when the store was the one that the
   *  entries before it lead to. */
  lemma HistoryIsSequential(policies: seq<ExecutionPolicy>, events: seq<Event>)
    ensures var h := History(policies, events);
            && Legal(h) && Represents(ByteRun(policies, events).server, Replay(h))
            && forall i :: 0 <= i < |h| ==> WasServed(policies, events, h[i], Replay(h[..i]))
  {
    hide ByteRun, SpecRun, Represents, Legal, Replay, AnswersMatch, HandlesFresh, PeerInv, LinkInv, HistoryOk, ServedBy;
    RunSimulates(policies, events);
    var h := History(policies, events);
    forall i | 0 <= i < |h| ensures WasServed(policies, events, h[i], Replay(h[..i])) {
      var n := EntryWasServed(policies, events, i);
    }
  }

  // Entry i of the history is request `id` of client c, with that result.
  predicate ExecutedAs(h: seq<Entry>, i: nat, c: nat, id: int32, cmd: Command) {
    i < |h| && h[i].client == c && h[i].id == id && h[i].cmd == cmd
  }

  /** End to end: whenever a success callback has fired for request k of client c, the object
   *  store executed that very command, and the callback saw exactly the result it gave then,
   *  with the type that the callback expects. */
  lemma EndToEnd(policies: seq<ExecutionPolicy>, events: seq<Event>, c: nat, j: nat) returns (i: nat)
    requires c < |ByteRun(policies, events).peers| && j < |ByteRun(policies, events).peers[c].fired|
    ensures var p := ByteRun(policies, events).peers[c];
            var f := p.fired[j];
            var h := History(policies, events);
            && 1 <= f.id <= |p.issued|
            && ExecutedAs(h, i, c, f.id, p.issued[f.id - 1].cmd)
            && h[i].result == Execute(Replay(h[..i]), h[i].cmd, h[i].self).1
            && Waits(h[i].cmd) && f.seen == Seen(h[i].result)
            && f.seen != BadCast && f.seen != Broken && f.seen != Ignored
  {
    hide ByteRun, SpecRun, Inv, Execute, HandlesFresh, HandlesOk, PhaseOk, BusyOk, TableOk, Replay, Represents,
         AnswersMatch, HistoryOk, SyncAt, RepliesOk, ScanResponse, Observe, Seen, ValueOf, CallbackOf, Waits, Reply;
    RunSimulates(policies, events);
    var s := SpecRun(policies, events);
    InvShaped(s);
    PeerFacts(s, c);
    var f := s.peers[c].fired[j];
    assert f in s.peers[c].fired;
    i := AnswerEntry(s, Key(c, f.id));
    AnswerTyped(s, Key(c, f.id));
    SeenIsSound(s.server.answers[Key(c, f.id)]);
    LedgerIsLegal(s);
  }

  lemma LedgerIsLegal(s: SpecState)
    requires Inv(s)
    ensures Legal(s.server.history) && s.server.store == Replay(s.server.history)
    ensures AnswersMatch(s.server.history, s.server.answers)
    ensures HistoryOk(s.server.history, s.peers, s.links) && HandlesFresh(s.server.store, s.server.answers)
  {
    hide Legal, Replay, AnswersMatch, HistoryOk, PeerInv, LinkInv, HandlesFresh;
  }

  /** Every request is executed at most once, each connection is served in the order in which its
   *  client numbered the requests, and no handle is ever given out twice. */
  lemma ExecutedOnceInOrder(policies: seq<ExecutionPolicy>, events: seq<Event>, i: nat, j: nat)
    requires i < j < |History(policies, events)|
    ensures var h := History(policies, events);
            && (h[i].client, h[i].id) != (h[j].client, h[j].id)
            && (h[i].link == h[j].link ==> h[i].client == h[j].client && h[i].id < h[j].id)
            && (h[i].result.Handle? ==> h[i].result != h[j].result)
  {
    hide ByteRun, SpecRun, Inv, Legal, Replay;
    RunSimulates(policies, events);
    var s := SpecRun(policies, events);
    InvShaped(s);
    LedgerIsLegal(s);
    assert KeyOf(s.server.history[i]) != KeyOf(s.server.history[j]);
    assert KeyOf(s.server.history[i]) in s.server.answers && KeyOf(s.server.history[j]) in s.server.answers;
  }

  /** The history only ever gets longer. */
  lemma {:induction false} HistoryGrows(policies: seq<ExecutionPolicy>, events: seq<Event>, more: seq<Event>)
    ensures History(policies, events) <= History(policies, events + more)
    decreases |more|
  {
    hide SpecStep, ByteStep, ByteRun;
    if more == [] {
      assert events + more == events;
    } else {
      var n := |more| - 1;
      HistoryGrows(policies, events, more[..n]);
      assert events + more == (events + more[..n]) + [more[n]];
      OneStepLater(policies, events + more[..n], more[n]);
      StepKeepsHistory(SpecRun(policies, events + more[..n]), more[n]);
    }
  }

  lemma StepKeepsHistory(s: SpecState, e: Event)
    requires Shaped(s)
    ensures s.server.history <= SpecStep(s, e).server.history
  {
    hide PlainStep, CanSend, CanBegin, BeginOn, Execute;
    PlainKeepsServer(s, e);
    if e.Begin? {
      SendKeepsServer(s, e);
    }
  }

  /** The sequential order respects real time: a request whose callback has fired stands in the
   *  history before every request that any client issues afterwards. */
  lemma RealTimeOrder(policies: seq<ExecutionPolicy>, events: seq<Event>, more: seq<Event>,
                      c: nat, j: nat, later: Key, x: nat, y: nat)
    requires c < |ByteRun(policies, events).peers| && j < |ByteRun(policies, events).peers[c].fired|
    requires later.client < |ByteRun(policies, events).peers|
    requires later.id > |ByteRun(policies, events).peers[later.client].issued|
    requires var h := History(policies, events + more);
             && x < |h| && KeyOf(h[x]) == Key(c, ByteRun(policies, events).peers[c].fired[j].id)
             && y < |h| && KeyOf(h[y]) == later
    ensures x < |History(policies, events)| <= y
  {
    hide ByteRun, SpecRun, Inv, Legal, Replay, Execute, Seen;
    var i := EndToEnd(policies, events, c, j);
    HistoryGrows(policies, events, more);
    var h := History(policies, events + more);
    assert KeyOf(h[i]) == KeyOf(h[x]);
    if i < x {
      ExecutedOnceInOrder(policies, events + more, i, x);
    } else if x < i {
      ExecutedOnceInOrder(policies, events + more, x, i);
    }
    RunSimulates(policies, events);
    var s := SpecRun(policies, events);
    InvShaped(s);
    LedgerIsLegal(s);
  }

  /** Typed responses and table conservation: the ids handed out are shared out between the table
   *  and the fired callbacks, each callback fires once, and no id is 0, -1 or reused. */
  lemma TableConserved(policies: seq<ExecutionPolicy>, events: seq<Event>, c: nat)
    requires c < |ByteRun(policies, events).peers|
    ensures var p := ByteRun(policies, events).peers[c];
            && p.pending.Keys !! FiredIds(p.fired)
            && (forall id :: id in p.pending || id in FiredIds(p.fired) <==> 1 <= id <= |p.issued|)
            && |FiredIds(p.fired)| == |p.fired|
  {
    hide ByteRun, SpecRun, Inv, FiredOk, HandlesOk, PhaseOk, BusyOk;
    RunSimulates(policies, events);
    var s := SpecRun(policies, events);
    InvShaped(s);
    PeerFacts(s, c);
    var p := s.peers[c];
    forall id | id in FiredIds(p.fired) ensures 1 <= id <= |p.issued| {
      var i :| 0 <= i < |p.fired| && p.fired[i].id == id;
      assert p.fired[i] in p.fired;
    }
    DistinctCount(p.fired);
  }

  /** The table keeps every request that does not wait, for ever, and a waiting one exactly until
   *  its callback fires. */
  lemma TableContents(policies: seq<ExecutionPolicy>, events: seq<Event>, c: nat, id: int32)
    requires c < |ByteRun(policies, events).peers|
    requires 1 <= id <= |ByteRun(policies, events).peers[c].issued|
    ensures var p := ByteRun(policies, events).peers[c];
            id in p.pending <==> !Waits(p.issued[id - 1].cmd) || id !in FiredIds(p.fired)
  {
    hide ByteRun, SpecRun, Inv, HandlesOk, PhaseOk, BusyOk, Waits, CallbackOf, Seen, ScanResponse, Observe;
    RunSimulates(policies, events);
    var s := SpecRun(policies, events);
    InvShaped(s);
    PeerFacts(s, c);
    var p := s.peers[c];
    if id in FiredIds(p.fired) {
      var i :| 0 <= i < |p.fired| && p.fired[i].id == id;
      assert p.fired[i] in p.fired;
      AnswerTyped(s, Key(c, id));
    }
  }

  /** A client's requests are never renumbered or forgotten. */
  lemma {:induction false} IssuedGrows(policies: seq<ExecutionPolicy>, events: seq<Event>, more: seq<Event>, c: nat)
    requires c < |ByteRun(policies, events).peers|
    ensures var b, b' := ByteRun(policies, events), ByteRun(policies, events + more);
            c < |b'.peers| && b.peers[c].issued <= b'.peers[c].issued
    decreases |more|
  {
    hide ByteStep, SpecStep, SpecRun;
    if more == [] {
      assert events + more == events;
    } else {
      var n := |more| - 1;
      IssuedGrows(policies, events, more[..n], c);
      assert events + more == (events + more[..n]) + [more[n]];
      OneStepLater(policies, events + more[..n], more[n]);
      StepKeepsIssued(ByteRun(policies, events + more[..n]), more[n], c);
    }
  }

  lemma StepKeepsIssued(b: ByteState, e: Event, c: nat)
    requires Shaped(b) && c < |b.peers|
    ensures c < |ByteStep(b, e).peers| && b.peers[c].issued <= ByteStep(b, e).peers[c].issued
  {
    hide PlainStep, Buildable, ServerParser.Serve, Reading, ScanResponse, Frame;
    PlainKeepsIssued(b, e, c);
  }

  lemma PlainKeepsIssued<S, Q, R>(b: State<S, Q, R>, e: Event, c: nat)
    requires Shaped(b) && c < |b.peers|
    ensures c < |PlainStep(b, e).peers| && PlainStep(b, e).peers[c].issued == b.peers[c].issued
  {
    hide Observe, Choice;
  }

  /** A request that does not wait stays in the table in every continuation of the run. */
  lemma StaysForEver(policies: seq<ExecutionPolicy>, events: seq<Event>, more: seq<Event>, c: nat, id: int32)
    requires c < |ByteRun(policies, events).peers|
    requires var p := ByteRun(policies, events).peers[c];
             1 <= id <= |p.issued| && !Waits(p.issued[id - 1].cmd)
    ensures c < |ByteRun(policies, events + more).peers|
    ensures id in ByteRun(policies, events + more).peers[c].pending
  {
    hide ByteRun, Waits;
    IssuedGrows(policies, events, more, c);
    TableContents(policies, events + more, c, id);
  }

  lemma {:induction false} DistinctCount(fired: seq<Fired>)
    requires forall i, j :: 0 <= i < j < |fired| ==> fired[i].id != fired[j].id
    ensures |FiredIds(fired)| == |fired|
  {
    if fired != [] {
      var n := |fired| - 1;
      DistinctCount(fired[..n]);
      assert fired == fired[..n] + [fired[n]];
      FiredIdsAppend(fired[..n], fired[n]);
      assert fired[n].id !in FiredIds(fired[..n]);
    } else {
      assert FiredIds(fired) == {};
    }
  }

  /** Handle soundness: the registry's keys are exactly 0..counter-1, every handle a client knows
   *  or has chosen is one of them, and the list of handles has no duplicates. */
  lemma HandlesAreLive(policies: seq<ExecutionPolicy>, events: seq<Event>, c: nat)
    requires c < |ByteRun(policies, events).peers|
    ensures var b := ByteRun(policies, events);
            var p := b.peers[c];
            && WellFormed(b.server) && Distinct(p.handles)
            && (forall h :: h in p.handles ==> h in b.server.objs)
            && (p.phase.Chosen? ==> p.phase.handle in b.server.objs && p.phase.handle != -1)
            && (p.phase.Choosing? ==> 0 < p.phase.size <= |p.handles|)
            && (forall i :: 0 <= i < |p.issued| && HasHandle(p.issued[i].cmd) ==>
                  p.issued[i].cmd.handle in b.server.objs)
  {
    hide ByteRun, SpecRun, Inv, FiredOk, TableOk, BusyOk, Buildable;
    RunSimulates(policies, events);
    var s := SpecRun(policies, events);
    InvShaped(s);
    PeerFacts(s, c);
    forall i | 0 <= i < |s.peers[c].issued| ensures Live(s.server.store, s.peers[c].issued[i].cmd) {
    }
  }

  /** Every response on its way to a client, or read by it, decodes; and one that answers a create
   *  request carries a handle that is live in the registry. */
  lemma RepliesAreSound(policies: seq<ExecutionPolicy>, events: seq<Event>, c: nat, m: RawData)
    requires c < |ByteRun(policies, events).peers|
    requires var b := ByteRun(policies, events);
             m in b.arrived[c] || m in b.responses[b.peers[c].link]
    ensures var b := ByteRun(policies, events);
            var p := b.peers[c];
            var d := ScanResponse(m);
            && d.Decoded? && 1 <= d.id <= |p.issued| && Waits(p.issued[d.id - 1].cmd)
            && (p.issued[d.id - 1].cmd.Create? ==> d.value.IntV? && d.value.x in b.server.objs)
  {
    hide ByteRun, SpecRun, Inv, PeerOk, SyncAt, ScanResponse, SameRequests, Reply, QueueOk, Waits;
    RunSimulates(policies, events);
    var b, s := ByteRun(policies, events), SpecRun(policies, events);
    InvShaped(s);
    var k := s.peers[c].link;
    PeerFacts(s, c);
    LinkFacts(s, k);
    var r: Response;
    if m in b.arrived[c] {
      var j :| 0 <= j < |b.arrived[c]| && b.arrived[c][j] == m;
      r := s.arrived[c][j];
    } else {
      var j :| 0 <= j < |b.responses[k]| && b.responses[k][j] == m;
      r := s.responses[k][j];
    }
    assert ReplyOk(c, r, s.server.answers) && m == Reply(r.id, r.result);
    ReplyDecodes(s, c, r);
    AnswerIsSound(s, c, r);
  }

  lemma AnswerIsSound(s: SpecState, c: nat, r: Response)
    requires Inv(s) && ReplyOk(c, r, s.server.answers)
    ensures c < |s.peers| && 1 <= r.id <= |s.peers[c].issued|
    ensures Waits(s.peers[c].issued[r.id - 1].cmd)
    ensures s.peers[c].issued[r.id - 1].cmd.Create? ==>
              ValueOf(r.result).IntV? && 0 <= ValueOf(r.result).x < |s.server.store|
  {
    hide Inv, ScanResponse, Observe, Seen, Waits, CallbackOf, Reply;
    AnswerTyped(s, Key(c, r.id));
    if r.result.Handle? {
      AnsweredHandle(s, Key(c, r.id));
    }
  }

  lemma AnsweredHandle(s: SpecState, key: Key)
    requires Inv(s) && key in s.server.answers && s.server.answers[key].Handle?
    ensures Narrow(s.server.answers[key].h) == s.server.answers[key].h < |s.server.store|
  {
    hide Legal, Replay, AnswersMatch, HistoryOk, PeerInv, LinkInv;
  }

  // Message m is request `id` of client p, written to connection k.
  predicate IsRequest(p: Peer, k: nat, m: RawData, id: int32) {
    1 <= id <= |p.issued| && p.issued[id - 1].link == k && m == Frame(id, p.issued[id - 1].cmd)
  }

  /** Every request on its way to the server is the encoding of a command of its client that the
   *  server will accept: it never takes the branch for an invalid handle. */
  lemma RequestsAreAccepted(policies: seq<ExecutionPolicy>, events: seq<Event>, k: nat, j: nat, self: Address)
    requires k < |ByteRun(policies, events).links| && j < |ByteRun(policies, events).requests[k]|
    ensures var b := ByteRun(policies, events);
            var m := b.requests[k][j];
            var p := b.peers[b.links[k].owner];
            && (exists id :: IsRequest(p, k, m, id))
            && var out := ServerParser.Serve(b.server, m, self);
               && (out.Served? <==> (Creates(m) ==> b.server.counter < INT_MAX))
               && (out.Served? ==> out.ok)
  {
    hide ByteRun, SpecRun, Inv, Frame, ServerParser.Serve, Reading, Execute, FiredOk, TableOk, PhaseOk, BusyOk,
         Buildable, Represents, Live, SameReplies;
    RunSimulates(policies, events);
    var b, s := ByteRun(policies, events), SpecRun(policies, events);
    InvShaped(s);
    var c := s.links[k].owner;
    PeerFacts(s, c);
    LinkFacts(s, k);
    assert SameRequests(b.requests[k], s.requests[k]);
    var q := s.requests[k][j];
    BuildableIsEncodable(q.cmd);
    ReadingOfFrame(q.id, q.cmd);
    ServeRefines(b.server, s.server.store, q.id, q.cmd, self);
    assert IsRequest(s.peers[c], k, b.requests[k][j], q.id);
    RoomIsShared(b.server, s.server.store);
  }

  lemma RoomIsShared(r: Registry, store: Store)
    requires Represents(r, store)
    ensures r.counter == |store|
  {
  }

  // Event e makes the server execute a setter on the object with handle h.
  predicate SetsObject(b: ByteState, e: Event, h: int)
    requires Shaped(b)
  {
    && e.Serve? && CanServe(b, e.k)
    && var reading := Reading(b.requests[e.k][0]);
       reading.Some? && (reading.value.SetInteger? || reading.value.SetString?) && reading.value.handle == h
  }

  // Some event of `more`, which follows `events`, is a setter on h.
  predicate SetAmong(policies: seq<ExecutionPolicy>, events: seq<Event>, more: seq<Event>, h: int) {
    exists n :: 0 <= n < |more| && SetsObject(ByteRun(policies, events + more[..n]), more[n], h)
  }

  /** Objects are permanent: no later event removes a handle or puts another object behind it, and
   *  the object's fields are the same unless a setter on that very handle was executed. */
  lemma {:induction false} ObjectsPersist(policies: seq<ExecutionPolicy>, events: seq<Event>, more: seq<Event>, h: int)
    requires h in ByteRun(policies, events).server.objs
    ensures var r, r' := ByteRun(policies, events).server, ByteRun(policies, events + more).server;
            && h in r'.objs && r'.objs[h].self == r.objs[h].self
            && (r'.objs[h] != r.objs[h] ==> SetAmong(policies, events, more, h))
    decreases |more|
  {
    hide Inv, ByteStep, SpecStep, Represents, SetsObject;
    if more == [] {
      assert events + more == events;
    } else {
      var n := |more| - 1;
      ObjectsPersist(policies, events, more[..n], h);
      assert events + more == (events + more[..n]) + [more[n]];
      var before := events + more[..n];
      OneStepLater(policies, before, more[n]);
      RunSimulates(policies, before);
      RunSimulates(policies, before + [more[n]]);
      hide Simulates, ByteRun, SpecRun;
      var s := SpecRun(policies, before);
      InvShaped(s);
      if !s.crashed {
        ObjectsStay(ByteRun(policies, before), s, ByteRun(policies, before + [more[n]]), more[n], h);
      }
      if SetAmong(policies, events, more[..n], h) || SetsObject(ByteRun(policies, before), more[n], h) {
        SetEarlier(policies, events, more, h);
      }
    }
  }

  lemma SetEarlier(policies: seq<ExecutionPolicy>, events: seq<Event>, more: seq<Event>, h: int)
    requires more != []
    requires || SetAmong(policies, events, more[..|more| - 1], h)
             || SetsObject(ByteRun(policies, events + more[..|more| - 1]), more[|more| - 1], h)
    ensures SetAmong(policies, events, more, h)
  {
    hide SetsObject, ByteRun;
    var n := |more| - 1;
    if SetAmong(policies, events, more[..n], h) {
      var i :| 0 <= i < n && SetsObject(ByteRun(policies, events + more[..n][..i]), more[..n][i], h);
      assert more[..n][..i] == more[..i] && more[..n][i] == more[i];
    }
  }

  lemma OneStepLater(policies: seq<ExecutionPolicy>, events: seq<Event>, e: Event)
    ensures ByteRun(policies, events + [e]) == ByteNext(ByteRun(policies, events), e)
    ensures SpecRun(policies, events + [e]) == SpecNext(SpecRun(policies, events), e)
  {
    hide ByteStep, SpecStep;
    assert (events + [e])[..|events|] == events;
  }

  lemma ObjectsStay(b: ByteState, s: SpecState, b': ByteState, e: Event, h: int)
    requires Inv(s) && Simulates(b, s) && Simulates(b', SpecStep(s, e)) && h in b.server.objs
    ensures h in b'.server.objs && b'.server.objs[h].self == b.server.objs[h].self
    ensures b'.server.objs[h] != b.server.objs[h] ==> SetsObject(b, e, h)
  {
    hide Inv, PlainStep, CanSend, CanBegin, SendOn, BeginOn, Execute, SameReplies, ValueOf, Reading, Frame;
    InvShaped(s);
    PlainKeepsServer(s, e);
    if e.Serve? && CanServe(s, e.k) {
      var q := s.requests[e.k][0];
      NextRequest(s, e.k);
      BuildableIsEncodable(q.cmd);
      ReadingOfFrame(q.id, q.cmd);
      StoreKeepsObjects(s.server.store, q.cmd, e.self, h);
    }
    if e.Send? || e.Begin? {
      SendKeepsServer(s, e);
    }
  }

  lemma PlainKeepsServer(s: SpecState, e: Event)
    requires Shaped(s)
    ensures PlainStep(s, e).server == s.server
  {
  }

  lemma SendKeepsServer(s: SpecState, e: Event)
    requires Shaped(s) && (e.Send? || e.Begin?)
    ensures SpecStep(s, e).server == s.server
  {
  }

  lemma StoreKeepsObjects(store: Store, cmd: Command, self: Address, h: int)
    requires 0 <= h < |store|
    ensures var store' := Execute(store, cmd, self).0;
            h < |store'| && store'[h].self == store[h].self
            && (store'[h] != store[h] ==> (cmd.SetInteger? || cmd.SetString?) && cmd.handle == h)
  {
  }

  // The client takes message m for a response to request `id`.
  predicate DecodesAs(m: RawData, id: int32) {
    ScanResponse(m).Decoded? && ScanResponse(m).id == id
  }

  /** Lockstep of a blocking client: between two requests nothing is on its way back to it and
   *  nothing is left to deliver; while it waits for request id, everything on its way back is
   *  one message, the reply to that request. */
  lemma SyncLockstep(policies: seq<ExecutionPolicy>, events: seq<Event>, c: nat)
    requires c < |ByteRun(policies, events).peers| && ByteRun(policies, events).peers[c].policy.Sync?
    ensures var b := ByteRun(policies, events);
            var p := b.peers[c];
            var back := b.responses[p.link] + b.arrived[c];
            && (!p.phase.Awaiting? ==> back == [] && p.busy.None?)
            && |back| + Count(p.busy.Some?) <= 1
            && (forall m :: m in back ==> p.phase.Awaiting? && DecodesAs(m, p.phase.id))
            && (p.busy.Some? ==> p.phase == Awaiting(p.busy.value.id))
  {
    hide ByteRun, SpecRun, Inv, PeerOk, ScanResponse, Represents, SameRequests, Reply, ValueOf;
    RunSimulates(policies, events);
    var b, s := ByteRun(policies, events), SpecRun(policies, events);
    InvShaped(s);
    PeerFacts(s, c);
    LinkFacts(s, s.peers[c].link);
    var k := s.peers[c].link;
    assert s.responses[k] != [] ==> s.peers[c].phase == Awaiting(s.responses[k][0].id);
    assert s.arrived[c] != [] ==> s.peers[c].phase == Awaiting(s.arrived[c][0].id);
    forall j | 0 <= j < |s.responses[k]| ensures DecodesAs(b.responses[k][j], s.responses[k][j].id) {
      ReplyDecodes(s, c, s.responses[k][j]);
    }
    forall j | 0 <= j < |s.arrived[c]| ensures DecodesAs(b.arrived[c][j], s.arrived[c][j].id) {
      ArrivedDecodes(s, c, j);
    }
  }

  lemma ReplyDecodes(s: SpecState, c: nat, r: Response)
    requires Inv(s) && ReplyOk(c, r, s.server.answers)
    ensures ScanResponse(Reply(r.id, r.result)) == Decoded(r.id, ValueOf(r.result))
  {
    hide Inv, ScanResponse, Reply, ValueOf, Observe, Seen;
    AnswerTyped(s, Key(c, r.id));
  }

  lemma {:induction false} NothingLostInRun(policies: seq<ExecutionPolicy>, events: seq<Event>)
    ensures NothingLost(SpecRun(policies, events))
  {
    hide Inv, SpecStep, AccountedAt;
    if events == [] {
      StartLosesNothing(policies);
    } else {
      var n := |events| - 1;
      NothingLostInRun(policies, events[..n]);
      RunSimulates(policies, events[..n]);
      StepLosesNothing(SpecRun(policies, events[..n]), events[n]);
    }
  }

  lemma StartLosesNothing(policies: seq<ExecutionPolicy>)
    ensures NothingLost(SpecRun(policies, []))
  {
  }

  // One of the messages decodes to a response for `id`.
  predicate Carries(messages: seq<RawData>, id: int32) {
    exists j :: 0 <= j < |messages| && DecodesAs(messages[j], id)
  }

  /** Nothing is lost: as long as a connection lives, every request that waits on it is still to be
   *  served, or its reply is on the way back, or read, or being delivered. */
  lemma NothingIsLost(policies: seq<ExecutionPolicy>, events: seq<Event>, c: nat, id: int32)
    requires c < |ByteRun(policies, events).peers|
    requires var b := ByteRun(policies, events);
             var p := b.peers[c];
             b.links[p.link].live && WaitsOn(p, p.link, id)
    ensures var b := ByteRun(policies, events);
            var p := b.peers[c];
            || Frame(id, p.issued[id - 1].cmd) in b.requests[p.link]
            || Carries(b.responses[p.link], id) || Carries(b.arrived[c], id)
            || (p.busy.Some? && p.busy.value.id == id)
  {
    hide ByteRun, SpecRun, Inv, PeerOk, SyncAt, ScanResponse, Represents, Reply, ValueOf, Frame, WaitsOn;
    RunSimulates(policies, events);
    NothingLostInRun(policies, events);
    var b, s := ByteRun(policies, events), SpecRun(policies, events);
    InvShaped(s);
    var k := s.peers[c].link;
    assert AccountedAt(s, c);
    PeerFacts(s, c);
    LinkFacts(s, k);
    if j :| 0 <= j < |s.requests[k]| && s.requests[k][j].id == id {
      assert b.requests[k][j] == Frame(id, s.peers[c].issued[id - 1].cmd);
    }
    if j :| 0 <= j < |s.responses[k]| && s.responses[k][j].id == id {
      ReplyDecodes(s, c, s.responses[k][j]);
      assert DecodesAs(b.responses[k][j], id);
    }
    if j :| 0 <= j < |s.arrived[c]| && s.arrived[c][j].id == id {
      ArrivedDecodes(s, c, j);
      assert DecodesAs(b.arrived[c][j], id);
    }
  }
}
