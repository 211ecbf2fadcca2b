/** The client's main loop: numbering, registering and framing requests, and reading replies. */
module Client {
  import opened Wire
  import opened Framing
  import opened ClassRepositories
  import opened ResponseParsers
  import opened DemoSimulator

  datatype ExecutionPolicy = Sync | Async

  // How a write ends: accepted, ERROR_NO_DATA (the server closed the pipe), or another error.
  datatype WriteResult = Written | NoData | OtherError

  /** The client's end of the pipe. `writes` are the results of the coming writes, `connects` those of
   *  the coming attempts to connect, `replies` the messages of the coming blocking reads, and
   *  `accepted` what went through. Of the overlapped operations under way, `posted` are the
   *  writes, each with its flag `wait_for_response`, and `readings` is the number of reads. */
  class Pipe {
    var accepted: seq<RawData>
    var writes: seq<WriteResult>
    var replies: seq<RawData>
    var connects: seq<bool>
    var connected: bool
    var posted: seq<bool>
    var readings: nat

    method Connect() returns (ok: bool)
      modifies this`connects, this`connected
      ensures ok == connected == (old(connected) || Succeeds(old(connects)))
      ensures connects == if old(connected) then old(connects) else Rest(old(connects))
    {
      if connected {
        return true;
      }
      connected := Succeeds(connects);
      connects := Rest(connects);
      return connected;
    }

    method DisconnectFromServer()
      modifies this`connected
      ensures !connected
    {
      connected := false;
    }

    method SendData(data: RawData) returns (result: WriteResult)
      modifies this`accepted, this`writes
      ensures result == Next(old(writes)) && writes == Later(old(writes))
      ensures accepted == if result.Written? then old(accepted) + [data] else old(accepted)
    {
      result := Next(writes);
      writes := Later(writes);
      if result.Written? {
        accepted := accepted + [data];
      }
    }

    method ReadData() returns (ok: bool, data: RawData)
      modifies this`replies
      ensures ok <==> old(replies) != []
      ensures ok ==> data == old(replies)[0] && replies == old(replies)[1..]
      ensures !ok ==> replies == []
    {
      if replies == [] {
        return false, [];
      }
      ok, data := true, replies[0];
      replies := replies[1..];
    }
  }

  // Once the given results are used up, every attempt to connect succeeds.
  function Succeeds(connects: seq<bool>): bool {
    connects == [] || connects[0]
  }

  function Rest(connects: seq<bool>): seq<bool> {
    if connects == [] then [] else connects[1..]
  }

  const ATTEMPTS := 100

  // Up to n attempts to connect: whether one succeeded, and the results that are left.
  function Attempt(connects: seq<bool>, n: nat): (bool, seq<bool>) {
    if n == 0 then (false, connects)
    else if Succeeds(connects) then (true, Rest(connects))
    else Attempt(Rest(connects), n - 1)
  }

  // The i-th coming attempt to connect succeeds.
  predicate Connects(connects: seq<bool>, i: nat) {
    i >= |connects| || connects[i]
  }

  // The i-th attempt is the first to succeed, and it is among the first n.
  predicate FirstToConnect(connects: seq<bool>, i: nat, n: nat) {
    i < n && Connects(connects, i) && forall j :: 0 <= j < i ==> !Connects(connects, j)
  }

  function AfterAttempt(connects: seq<bool>, i: nat): seq<bool> {
    if i < |connects| then connects[i + 1..] else []
  }

  /** Connecting gives up exactly after n failures in a row, with those attempts used up. */
  lemma {:induction false} AttemptFails(connects: seq<bool>, n: nat)
    ensures !Attempt(connects, n).0 <==> n <= |connects| && forall i :: 0 <= i < n ==> !connects[i]
    ensures !Attempt(connects, n).0 ==> Attempt(connects, n).1 == connects[n..]
  {
    if n > 0 && !Succeeds(connects) {
      AttemptFails(connects[1..], n - 1);
      if n <= |connects| {
        assert forall i :: 0 <= i < n - 1 ==> connects[1..][i] == connects[i + 1];
        assert forall i :: 0 < i < n ==> connects[i] == connects[1..][i - 1];
      }
    }
  }

  /** Otherwise it uses up the attempts up to the first that succeeds. */
  lemma {:induction false} AttemptSucceeds(connects: seq<bool>, n: nat, i: nat)
    requires FirstToConnect(connects, i, n)
    ensures Attempt(connects, n) == (true, AfterAttempt(connects, i))
    decreases i
  {
    if i > 0 {
      assert !Connects(connects, 0);
      assert Connects(connects[1..], i - 1);
      assert forall j :: 0 <= j < i - 1 ==> (Connects(connects[1..], j) <==> Connects(connects, j + 1));
      AttemptSucceeds(connects[1..], n - 1, i - 1);
    }
  }

  lemma {:induction false} SomeFirst(connects: seq<bool>, n: nat, k: nat) returns (i: nat)
    requires k < n && Connects(connects, k)
    ensures FirstToConnect(connects, i, n)
    decreases k
  {
    if j :| 0 <= j < k && Connects(connects, j) {
      i := SomeFirst(connects, n, j);
    } else {
      i := k;
    }
  }

  lemma AttemptExactly(connects: seq<bool>, n: nat)
    ensures Attempt(connects, n).0 <==> exists i :: 0 <= i < n && Connects(connects, i)
    ensures !Attempt(connects, n).0 ==> |connects| >= n && Attempt(connects, n).1 == connects[n..]
    ensures forall i :: FirstToConnect(connects, i, n) ==> Attempt(connects, n) == (true, AfterAttempt(connects, i))
  {
    hide Attempt, AfterAttempt;
    AttemptFails(connects, n);
    forall i | FirstToConnect(connects, i, n) ensures Attempt(connects, n) == (true, AfterAttempt(connects, i)) {
      AttemptSucceeds(connects, n, i);
    }
    assert Connects(connects, |connects|);
    assert forall i :: 0 <= i < |connects| ==> (Connects(connects, i) <==> connects[i]);
    if k :| 0 <= k < n && Connects(connects, k) {
      var i := SomeFirst(connects, n, k);
    }
  }

  // Once the given results are used up, every write is accepted.
  function Next(writes: seq<WriteResult>): WriteResult {
    if writes == [] then Written else writes[0]
  }

  function Later(writes: seq<WriteResult>): seq<WriteResult> {
    if writes == [] then [] else writes[1..]
  }

  /** A client process as a value: the last id, the table, and its end of the pipe. */
  datatype Process = Process(
    counter: nat,
    table: Table,
    accepted: seq<RawData>,
    writes: seq<WriteResult>,
    replies: seq<RawData>,
    connects: seq<bool>,
    connected: bool,
    posted: seq<bool>,
    readings: nat)

  // The blocking read of one reply; a read that fails is logged and forgotten.
  function TakeReply(p: Process): Process {
    if p.replies == [] then p
    else p.(table := Deliver(p.table, ScanResponse(p.replies[0])), replies := p.replies[1..])
  }

  // One request that carries data: number and register it, frame and write it, and, if the
  // client blocks for it, take the reply.
  function Turn(policy: ExecutionPolicy, p: Process, request: ClientRequest): Process {
    var id := Narrow(p.counter + 1);
    var p' := Write(p, IdPart(id) + request.data).(
      counter := p.counter + 1,
      table := p.table.(requests := Added(p.table.requests, id, request)));
    if !Next(p.writes).Written? then p'
    else if policy.Async? then p'.(posted := p'.posted + [request.waitForResponse])
    else if request.waitForResponse then TakeReply(p') else p'
  }

  function Write(p: Process, frame: RawData): Process {
    p.(accepted := if Next(p.writes).Written? then p.accepted + [frame] else p.accepted,
       writes := Later(p.writes))
  }

  function Connected(p: Process): (Process, bool) {
    if p.connected then (p, true)
    else
      var (ok, rest) := Attempt(p.connects, ATTEMPTS);
      (p.(connects := rest, connected := ok), ok)
  }

  // One pass through the loop, and whether the client goes on. An empty request is skipped without
  // an id; a request that meets a closed pipe is dropped, and the client reconnects.
  function Pass(policy: ExecutionPolicy, p: Process, request: ClientRequest): (Process, bool) {
    if request.data == [] then (p, true)
    else
      var p' := Turn(policy, p, request);
      match Next(p.writes)
      case Written => (p', true)
      case OtherError => (p', false)
      case NoData => Connected(p'.(connected := false))
  }

  /** What a pass through the loop does after each end of the write. A client whose pipe was closed goes on
   *  if and only if one of the next 100 attempts to connect succeeds, connected by the first that
   *  does; one with another error ends; an empty request does nothing. */
  lemma PassExactly(policy: ExecutionPolicy, p: Process, request: ClientRequest)
    ensures request.data == [] ==> Pass(policy, p, request) == (p, true)
    ensures request.data != [] ==>
              var (p', goesOn) := Pass(policy, p, request);
              && (Next(p.writes).Written? ==> goesOn && p' == Turn(policy, p, request))
              && (Next(p.writes).OtherError? ==> !goesOn && p' == Turn(policy, p, request))
              && (Next(p.writes).NoData? ==>
                    && (goesOn <==> exists i :: 0 <= i < 100 && Connects(p.connects, i))
                    && p' == Turn(policy, p, request).(connects := p'.connects, connected := goesOn)
                    && (!goesOn ==> |p.connects| >= 100 && p'.connects == p.connects[100..])
                    && (forall i :: FirstToConnect(p.connects, i, 100) ==> p'.connects == AfterAttempt(p.connects, i)))
  {
    hide Turn, Attempt;
    TurnKeepsConnects(policy, p, request);
    AttemptExactly(p.connects, ATTEMPTS);
  }

  lemma TurnKeepsConnects(policy: ExecutionPolicy, p: Process, request: ClientRequest)
    ensures Turn(policy, p, request).connects == p.connects
  {
    hide ScanResponse, IdPart, Deliver;
  }

  /** Every field after a turn. A blocking client takes one reply if and only if its write was accepted, its
   *  request waits and a reply is there; it delivers that reply to the table that already holds the
   *  request. An asynchronous client posts the write with its flag. */
  lemma TurnExactly(policy: ExecutionPolicy, p: Process, request: ClientRequest)
    requires p.counter < INT_MAX && p.counter + 1 !in p.table.requests
    ensures var p' := Turn(policy, p, request);
            var id: int32 := p.counter + 1;
            var written := p.writes == [] || p.writes[0].Written?;
            var registered := p.table.(requests := p.table.requests[id := request]);
            && p'.counter == id && p'.writes == (if p.writes == [] then [] else p.writes[1..])
            && p'.accepted == (if written then p.accepted + [IdPart(id) + request.data] else p.accepted)
            && p'.connects == p.connects && p'.connected == p.connected && p'.readings == p.readings
            && p'.posted == (if policy.Async? && written then p.posted + [request.waitForResponse] else p.posted)
            && if policy.Sync? && written && request.waitForResponse && p.replies != []
               then p'.replies == p.replies[1..] && p'.table == Deliver(registered, ScanResponse(p.replies[0]))
               else p'.replies == p.replies && p'.table == registered
  {
    hide ScanResponse, IdPart, Deliver;
  }

  /** A turn is a turn without replies, and then, if it has to wait, the reading of one. */
  lemma TurnWaits(policy: ExecutionPolicy, p: Process, request: ClientRequest)
    ensures var sent := Turn(policy, p.(replies := []), request).(replies := p.replies);
            Turn(policy, p, request)
            == if policy.Sync? && Next(p.writes).Written? && request.waitForResponse then TakeReply(sent) else sent
  {
    hide ScanResponse, IdPart, Deliver;
  }

  // An overlapped operation of an asynchronous client has come to its end.
  datatype Completion = WriteDone(i: nat) | ReadDone(message: RawData)

  // The end of a write posts a read if the request waits; the end of a read delivers the message.
  function Complete(p: Process, e: Completion): Process {
    match e
    case WriteDone(i) =>
      if i >= |p.posted| then p
      else p.(posted := p.posted[..i] + p.posted[i + 1..], readings := p.readings + if p.posted[i] then 1 else 0)
    case ReadDone(m) =>
      if p.readings == 0 then p else p.(readings := p.readings - 1, table := Deliver(p.table, ScanResponse(m)))
  }

  function CompleteAll(p: Process, events: seq<Completion>): Process
    decreases |events|
  {
    if events == [] then p else CompleteAll(Complete(p, events[0]), events[1..])
  }

  /** The end of a read, if one is under way, delivers its message; completions are handled one after the
   *  other. */
  lemma ReadEndsExactly(p: Process, events: seq<Completion>, m: RawData)
    ensures CompleteAll(p, []) == p
    ensures var q := CompleteAll(p, events);
            CompleteAll(p, events + [ReadDone(m)])
            == if q.readings == 0 then q
               else q.(readings := q.readings - 1, table := Deliver(q.table, ScanResponse(m)))
  {
    hide Deliver, ScanResponse;
    CompleteAllSnoc(p, events, ReadDone(m));
  }

  /** The end of a write, if it is under way, takes that write out and posts a read exactly if its request
   *  waits. */
  lemma WriteEndsExactly(p: Process, events: seq<Completion>, i: nat)
    ensures var q, q' := CompleteAll(p, events), CompleteAll(p, events + [WriteDone(i)]);
            if i >= |q.posted| then q' == q
            else
              && q' == q.(readings := q'.readings, posted := q'.posted)
              && q'.readings == q.readings + (if q.posted[i] then 1 else 0)
              && |q'.posted| == |q.posted| - 1
              && forall j :: 0 <= j < |q.posted| && j != i ==> q'.posted[if j < i then j else j - 1] == q.posted[j]
  {
    hide CompleteAll;
    CompleteAllSnoc(p, events, WriteDone(i));
  }

  lemma {:induction false} CompleteAllSnoc(p: Process, events: seq<Completion>, e: Completion)
    ensures CompleteAll(p, events + [e]) == Complete(CompleteAll(p, events), e)
    decreases |events|
  {
    hide Complete;
    if events == [] {
      assert [] + [e] == [e] && [e][1..] == [];
    } else {
      assert (events + [e])[1..] == events[1..] + [e];
      CompleteAllSnoc(Complete(p, events[0]), events[1..], e);
    }
  }

  function Trues(flags: seq<bool>): nat {
    if flags == [] then 0 else (if flags[0] then 1 else 0) + Trues(flags[1..])
  }

  lemma {:induction false} TruesOfSum(a: seq<bool>, b: seq<bool>)
    ensures Trues(a + b) == Trues(a) + Trues(b)
  {
    if a == [] {
      assert a + b == b;
    } else {
      TruesOfSum(a[1..], b);
      assert (a + b)[1..] == a[1..] + b;
    }
  }

  // The reads under way, and those that the writes under way will post.
  function Owed(p: Process): nat {
    p.readings + Trues(p.posted)
  }

  /** Every request that waits is owed one read, and every read that ends takes one message: a client is
   *  never owed more messages than it has requests that wait. */
  lemma ReadsAreOwed(policy: ExecutionPolicy, p: Process, request: ClientRequest, e: Completion)
    ensures Owed(Turn(policy, p, request))
         == Owed(p) + if policy.Async? && Next(p.writes).Written? && request.waitForResponse then 1 else 0
    ensures Owed(Complete(p, e)) == Owed(p) - if e.ReadDone? && p.readings > 0 then 1 else 0
  {
    hide Turn, Trues, ScanResponse, Deliver;
    TurnPosts(policy, p, request);
    TruesOfOne(request.waitForResponse);
    TruesOfSum(p.posted, [request.waitForResponse]);
    assert p.posted + [] == p.posted;
    if e.WriteDone? && e.i < |p.posted| {
      TruesWithout(p.posted, e.i);
    }
  }

  lemma TurnPosts(policy: ExecutionPolicy, p: Process, request: ClientRequest)
    ensures var p' := Turn(policy, p, request);
            && p'.readings == p.readings
            && p'.posted == p.posted + if policy.Async? && Next(p.writes).Written? then [request.waitForResponse]
                                       else []
  {
    hide ScanResponse, IdPart, Deliver;
  }

  lemma TruesOfOne(flag: bool)
    ensures Trues([flag]) == (if flag then 1 else 0) && Trues([]) == 0
  {
  }

  lemma TruesWithout(flags: seq<bool>, i: nat)
    requires i < |flags|
    ensures Trues(flags) == Trues(flags[..i] + flags[i + 1..]) + if flags[i] then 1 else 0
  {
    hide Trues;
    TruesOfSum(flags[..i], flags[i + 1..]);
    TruesOfSum(flags[..i], [flags[i]] + flags[i + 1..]);
    TruesOfSum([flags[i]], flags[i + 1..]);
    TruesOfOne(flags[i]);
    assert flags == flags[..i] + ([flags[i]] + flags[i + 1..]);
  }

  /** The whole loop, and whether it reached the end of its requests. `ends` are the completions that
   *  other threads of the client handle before each pass. */
  function Loop(policy: ExecutionPolicy, p: Process, requests: seq<ClientRequest>, ends: seq<seq<Completion>>)
    : (Process, bool)
    requires |ends| == |requests|
    decreases |requests|
  {
    if requests == [] then (p, true)
    else
      var (p', ok) := Pass(policy, CompleteAll(p, ends[0]), requests[0]);
      if ok then Loop(policy, p', requests[1..], ends[1..]) else (p', false)
  }

  /** A client from its first connection on. */
  function Run(policy: ExecutionPolicy, p: Process, requests: seq<ClientRequest>, ends: seq<seq<Completion>>)
    : (Process, bool)
    requires |ends| == |requests|
  {
    var (p', ok) := Connected(p);
    if ok then Loop(policy, p', requests, ends) else (p', false)
  }

  /** A client that cannot connect at first ends without having done anything; one that is connected, or
   *  connects within 100 attempts, goes through its requests. */
  lemma RunExactly(policy: ExecutionPolicy, p: Process, requests: seq<ClientRequest>, ends: seq<seq<Completion>>)
    requires |ends| == |requests|
    ensures p.connected ==> Run(policy, p, requests, ends) == Loop(policy, p, requests, ends)
    ensures !p.connected && (forall i :: 0 <= i < 100 ==> !Connects(p.connects, i)) ==>
              |p.connects| >= 100
              && Run(policy, p, requests, ends) == (p.(connects := p.connects[100..]), false)
    ensures !p.connected ==>
              forall i :: FirstToConnect(p.connects, i, 100) ==>
                Run(policy, p, requests, ends)
                == Loop(policy, p.(connected := true, connects := AfterAttempt(p.connects, i)), requests, ends)
  {
    hide Attempt, Loop;
    AttemptExactly(p.connects, ATTEMPTS);
    if forall i :: 0 <= i < 100 ==> !Connects(p.connects, i) {
      assert !Attempt(p.connects, ATTEMPTS).0;
    }
  }

  // The frames written after the first n carry ids above `low`, each above the one before it.
  ghost predicate Numbered(frames: seq<RawData>, n: nat, low: nat, last: nat) {
    && (forall k :: n <= k < |frames| ==>
          ScanRequestId(frames[k]).Hit? && low < ScanRequestId(frames[k]).value <= last)
    && (forall j, k :: n <= j < k < |frames| ==> ScanRequestId(frames[j]).value < ScanRequestId(frames[k]).value)
  }

  lemma {:induction false} CompleteAllKeeps(p: Process, events: seq<Completion>)
    ensures var p' := CompleteAll(p, events);
            p' == p.(table := p'.table, posted := p'.posted, readings := p'.readings)
    decreases |events|
  {
    hide ScanResponse, Deliver;
    if events != [] {
      CompleteAllKeeps(Complete(p, events[0]), events[1..]);
    }
  }

  lemma {:induction false} CompleteAllConserves(p: Process, last: nat, events: seq<Completion>)
    requires Conserved(p.table, last)
    ensures Conserved(CompleteAll(p, events).table, last)
    ensures Distinct(p.table.handles) ==> Distinct(CompleteAll(p, events).table.handles)
    decreases |events|
  {
    hide Conserved, Deliver, ScanResponse;
    if events != [] {
      if events[0].ReadDone? {
        DeliverConserves(p.table, last, ScanResponse(events[0].message));
      }
      CompleteAllConserves(Complete(p, events[0]), last, events[1..]);
    }
  }

  /** Every accepted frame starts with an id of its own: ids are positive, increase along the wire, and
   *  are never used twice. A loop that finishes has numbered every request with data. */
  lemma {:induction false} IdsIncrease(policy: ExecutionPolicy, p: Process, requests: seq<ClientRequest>,
                                       ends: seq<seq<Completion>>)
    requires p.counter + Filled(requests) <= INT_MAX && |ends| == |requests|
    ensures var p' := Loop(policy, p, requests, ends).0;
            && p.counter <= p'.counter <= p.counter + Filled(requests)
            && (Loop(policy, p, requests, ends).1 ==> p'.counter == p.counter + Filled(requests))
            && p.accepted <= p'.accepted
            && Numbered(p'.accepted, |p.accepted|, p.counter, p'.counter)
    decreases |requests|
  {
    hide Pass, CompleteAll, Numbered;
    if requests == [] {
      NumberedNone(p.accepted, p.counter);
    } else {
      var p0 := CompleteAll(p, ends[0]);
      CompleteAllKeeps(p, ends[0]);
      var (p1, ok) := Pass(policy, p0, requests[0]);
      PassNumbers(policy, p0, requests[0]);
      if ok {
        IdsIncrease(policy, p1, requests[1..], ends[1..]);
        NumberedJoin(p1.accepted, |p.accepted|, p.counter, Loop(policy, p, requests, ends).0.accepted,
                     p1.counter, Loop(policy, p, requests, ends).0.counter);
      }
    }
  }

  lemma NumberedNone(frames: seq<RawData>, last: nat)
    ensures Numbered(frames, |frames|, last, last)
  {
  }

  lemma NumberedJoin(frames: seq<RawData>, n: nat, low: nat, more: seq<RawData>, mid: nat, last: nat)
    requires n <= |frames| && frames <= more && low <= mid <= last
    requires Numbered(frames, n, low, mid) && Numbered(more, |frames|, mid, last)
    ensures Numbered(more, n, low, last)
  {
    hide ScanRequestId;
  }

  lemma PassNumbers(policy: ExecutionPolicy, p: Process, request: ClientRequest)
    requires request.data != [] ==> p.counter < INT_MAX
    ensures var p' := Pass(policy, p, request).0;
            && p'.counter == p.counter + (if request.data == [] then 0 else 1) && p.accepted <= p'.accepted
            && Numbered(p'.accepted, |p.accepted|, p.counter, p'.counter)
  {
    hide Pass, ScanRequestId, IdPart;
    PassWrites(policy, p, request);
    if request.data != [] {
      IdPartAt(p.counter + 1, request.data);
    }
  }

  lemma PassWrites(policy: ExecutionPolicy, p: Process, request: ClientRequest)
    requires request.data != [] ==> p.counter < INT_MAX
    ensures var p' := Pass(policy, p, request).0;
            if request.data == [] then p' == p
            else
              && p'.counter == p.counter + 1
              && p'.accepted == if Next(p.writes).Written? then p.accepted + [IdPart(p.counter + 1) + request.data]
                                else p.accepted
  {
    hide Turn, IdPart, Attempt;
    if request.data != [] {
      TurnWrites(policy, p, request);
    }
  }

  lemma TurnWrites(policy: ExecutionPolicy, p: Process, request: ClientRequest)
    requires p.counter < INT_MAX
    ensures var p' := Turn(policy, p, request);
            && p'.counter == p.counter + 1
            && p'.accepted == if Next(p.writes).Written? then p.accepted + [IdPart(p.counter + 1) + request.data]
                              else p.accepted
  {
    hide ScanResponse, IdPart, Deliver;
  }

  /** Whatever replies the pipe delivers and other threads parse, also repeated or misnumbered ones, no
   *  callback fires twice, none fires for a request that is still in the table, and handles stay
   *  distinct. */
  lemma {:induction false} LoopConserves(policy: ExecutionPolicy, p: Process, requests: seq<ClientRequest>,
                                         ends: seq<seq<Completion>>)
    requires p.counter + Filled(requests) <= INT_MAX && |ends| == |requests| && Conserved(p.table, p.counter)
    ensures var p' := Loop(policy, p, requests, ends).0;
            && Conserved(p'.table, p'.counter)
            && (Distinct(p.table.handles) ==> Distinct(p'.table.handles))
    decreases |requests|
  {
    hide Pass, Conserved, CompleteAll;
    if requests != [] {
      var p0 := CompleteAll(p, ends[0]);
      CompleteAllKeeps(p, ends[0]);
      CompleteAllConserves(p, p.counter, ends[0]);
      var (p1, ok) := Pass(policy, p0, requests[0]);
      PassWrites(policy, p0, requests[0]);
      PassConserves(policy, p0, requests[0]);
      if ok {
        LoopConserves(policy, p1, requests[1..], ends[1..]);
      }
    }
  }

  lemma PassConserves(policy: ExecutionPolicy, p: Process, request: ClientRequest)
    requires Conserved(p.table, p.counter) && (request.data != [] ==> p.counter < INT_MAX)
    ensures var p' := Pass(policy, p, request).0;
            && Conserved(p'.table, p'.counter)
            && (Distinct(p.table.handles) ==> Distinct(p'.table.handles))
  {
    hide Turn, Conserved, Attempt;
    if request.data != [] {
      TurnWrites(policy, p, request);
      TurnConserves(policy, p, request);
    }
  }

  lemma TurnConserves(policy: ExecutionPolicy, p: Process, request: ClientRequest)
    requires p.counter < INT_MAX && Conserved(p.table, p.counter)
    ensures var p' := Turn(policy, p, request);
            && Conserved(p'.table, p'.counter)
            && (Distinct(p.table.handles) ==> Distinct(p'.table.handles))
  {
    hide ScanResponse, IdPart, Deliver, Conserved, Added;
    var id: int32 := p.counter + 1;
    AddedConserves(p.table, p.counter, id, request);
    if p.replies != [] {
      DeliverConserves(p.table.(requests := Added(p.table.requests, id, request)), id, ScanResponse(p.replies[0]));
    }
  }

  lemma AddedConserves(t: Table, last: nat, id: int32, request: ClientRequest)
    requires Conserved(t, last) && id == last + 1
    ensures Conserved(t.(requests := Added(t.requests, id, request)), id)
  {
  }

  // One pass of the loop.
  lemma LoopPass(policy: ExecutionPolicy, p: Process, requests: seq<ClientRequest>, ends: seq<seq<Completion>>)
    requires requests != [] && |ends| == |requests|
    ensures var (p', ok) := Pass(policy, CompleteAll(p, ends[0]), requests[0]);
            Loop(policy, p, requests, ends) == if ok then Loop(policy, p', requests[1..], ends[1..]) else (p', false)
  {
  }

  lemma LoopDone(policy: ExecutionPolicy, p: Process)
    ensures Loop(policy, p, [], []) == (p, true)
  {
  }

  class Client {
    var requestIdCounter: nat
    const policy: ExecutionPolicy
    const parser: ResponseParser
    const pipe: Pipe

    constructor (policy: ExecutionPolicy, parser: ResponseParser, pipe: Pipe)
      ensures requestIdCounter == 0
      ensures this.policy == policy && this.parser == parser && this.pipe == pipe
    {
      requestIdCounter := 0;
      this.policy, this.parser, this.pipe := policy, parser, pipe;
    }

    function View(): Process
      reads this, parser, parser.repository, pipe
    {
      Process(requestIdCounter, parser.View(), pipe.accepted, pipe.writes, pipe.replies,
              pipe.connects, pipe.connected, pipe.posted, pipe.readings)
    }

    method ExecuteRequestSync(dataToSend: RawData, request: ClientRequest) returns (result: WriteResult)
      requires forall m :: m in pipe.replies ==> !ScanResponse(m).DecodeFault?
      modifies pipe, parser`requests, parser`fired, parser.repository
      ensures result == Next(old(pipe.writes))
      ensures var p := Write(old(View()), dataToSend);
              View() == if result.Written? && request.waitForResponse then TakeReply(p) else p
      ensures forall m :: m in pipe.replies ==> m in old(pipe.replies)
    {
      result := pipe.SendData(dataToSend);
      if !result.Written? {
        return;
      }
      if request.waitForResponse {
        var ok, data := pipe.ReadData();
        if ok {
          var _ := parser.ParseResponse(data);
        }
      }
    }

    // The write is posted; its completion and the read that follows run on other threads.
    method ExecuteRequestAsync(dataToSend: RawData, request: ClientRequest) returns (result: WriteResult)
      modifies pipe`accepted, pipe`writes, pipe`posted
      ensures result == Next(old(pipe.writes))
      ensures View() == Write(old(View()), dataToSend).(
                posted := old(pipe.posted) + if result.Written? then [request.waitForResponse] else [])
    {
      result := pipe.SendData(dataToSend);
      if result.Written? {
        pipe.posted := pipe.posted + [request.waitForResponse];
      }
    }

    // The callback `handle_write_response` of the i-th write under way.
    method HandleWriteResponse(i: nat)
      requires i < |pipe.posted|
      modifies pipe`posted, pipe`readings
      ensures View() == Complete(old(View()), WriteDone(i))
    {
      var readData := pipe.posted[i];
      pipe.posted := pipe.posted[..i] + pipe.posted[i + 1..];
      if readData {
        pipe.readings := pipe.readings + 1;
      }
    }

    // The callback `handle_read_response`.
    method HandleReadResponse(data: RawData)
      requires pipe.readings > 0 && !ScanResponse(data).DecodeFault?
      modifies pipe`readings, parser`requests, parser`fired, parser.repository
      ensures View() == Complete(old(View()), ReadDone(data))
    {
      hide ScanResponse, Deliver;
      pipe.readings := pipe.readings - 1;
      var _ := parser.ParseResponse(data);
    }

    // One turn of the loop for a request that carries data.
    method Submit(request: ClientRequest) returns (result: WriteResult)
      requires requestIdCounter < INT_MAX
      requires forall m :: m in pipe.replies ==> !ScanResponse(m).DecodeFault?
      modifies this`requestIdCounter, pipe, parser`requests, parser`fired, parser.repository
      ensures result == Next(old(pipe.writes)) && View() == Turn(policy, old(View()), request)
      ensures forall m :: m in pipe.replies ==> m in old(pipe.replies)
    {
      hide ScanResponse, IdPart, Observe, Deliver;
      requestIdCounter := requestIdCounter + 1;
      var id: int32 := requestIdCounter;
      var _ := parser.RegisterRequest(id, request);
      var dataToSend := CreateRequestIdData(id);
      dataToSend := dataToSend + request.data;
      if policy.Sync? {
        result := ExecuteRequestSync(dataToSend, request);
      } else {
        result := ExecuteRequestAsync(dataToSend, request);
      }
    }

    method ConnectToPipe() returns (ok: bool)
      modifies pipe`connects, pipe`connected
      ensures (View(), ok) == Connected(old(View()))
    {
      var retry := 0;
      ok := pipe.Connect();
      while !ok
        invariant 0 <= retry < ATTEMPTS && ok == pipe.connected
        invariant View() == old(View()).(connects := pipe.connects, connected := pipe.connected)
        invariant ok || Attempt(old(pipe.connects), ATTEMPTS) == Attempt(pipe.connects, ATTEMPTS - 1 - retry)
        invariant !ok ==> !old(pipe.connected)
        invariant ok ==> (View(), true) == Connected(old(View()))
        decreases ATTEMPTS - retry, !ok
      {
        retry := retry + 1;
        if retry == ATTEMPTS {
          return false;
        }
        ok := pipe.Connect();
      }
    }

    // Other threads of the client handle completions; one that belongs to no operation does not occur.
    method OtherThreads(events: seq<Completion>)
      requires forall e :: e in events && e.ReadDone? ==> !ScanResponse(e.message).DecodeFault?
      modifies pipe`posted, pipe`readings, parser`requests, parser`fired, parser.repository
      ensures View() == CompleteAll(old(View()), events)
    {
      hide ScanResponse, Deliver;
      var rest := events;
      while rest != []
        invariant forall e :: e in rest ==> e in events
        invariant CompleteAll(View(), rest) == CompleteAll(old(View()), events)
        decreases |rest|
      {
        assert rest[0] in events;
        match rest[0] {
          case WriteDone(i) =>
            if i < |pipe.posted| {
              HandleWriteResponse(i);
            }
          case ReadDone(message) =>
            if pipe.readings > 0 {
              HandleReadResponse(message);
            }
        }
        rest := rest[1..];
      }
    }

    // The body of the loop, once the request has been read; false ends the client.
    method HandleRequest(request: ClientRequest) returns (goOn: bool)
      requires request.data != [] ==> requestIdCounter < INT_MAX
      requires forall m :: m in pipe.replies ==> !ScanResponse(m).DecodeFault?
      modifies this`requestIdCounter, pipe, parser`requests, parser`fired, parser.repository
      ensures (View(), goOn) == Pass(policy, old(View()), request)
      ensures forall m :: m in pipe.replies ==> m in old(pipe.replies)
    {
      hide ScanResponse, Turn, Attempt;
      if request.data == [] {
        return true;
      }
      var result := Submit(request);
      if result.NoData? {
        pipe.DisconnectFromServer();
        goOn := ConnectToPipe();
      } else {
        goOn := result.Written?;
      }
    }

    /** The client, as long as its data source is good. */
    method Start(source: DemoSimulator, ends: seq<seq<Completion>>) returns (finished: bool)
      requires source.currIteration <= source.iterations
      requires Enough(source.demos, source.iterations - source.currIteration)
      requires |ends| == |Yielded(source.demos, source.iterations - source.currIteration)|
      requires requestIdCounter + (source.iterations - source.currIteration) <= INT_MAX
      requires forall m :: m in pipe.replies ==> !ScanResponse(m).DecodeFault?
      requires forall events :: events in ends ==>
                 forall e :: e in events && e.ReadDone? ==> !ScanResponse(e.message).DecodeFault?
      modifies this`requestIdCounter, pipe, parser`requests, parser`fired, parser.repository
      modifies source`currIteration, source`demos
      ensures var requests := old(Yielded(source.demos, source.iterations - source.currIteration));
              (View(), finished) == Run(policy, old(View()), requests, ends)
      ensures finished ==> !source.IsGood()
    {
      hide ScanResponse, Pass, CompleteAll, Connected, RequestOf, Yielded, Enough, Loop;
      var connected := ConnectToPipe();
      if !connected {
        return false;
      }
      ghost var start := View();
      ghost var requests := Yielded(source.demos, source.iterations - source.currIteration);
      ghost var limit := requestIdCounter + (source.iterations - source.currIteration);
      var rest := ends;
      while source.IsGood()
        invariant source.currIteration <= source.iterations
        invariant Enough(source.demos, source.iterations - source.currIteration)
        invariant |rest| == |Yielded(source.demos, source.iterations - source.currIteration)|
        invariant requestIdCounter + (source.iterations - source.currIteration) <= limit
        invariant forall m :: m in pipe.replies ==> m in old(pipe.replies)
        invariant forall events :: events in rest ==> events in ends
        invariant Loop(policy, View(), Yielded(source.demos, source.iterations - source.currIteration), rest)
               == Loop(policy, start, requests, ends)
        decreases |source.demos|
      {
        YieldedNext(source.demos, source.iterations - source.currIteration);
        LoopPass(policy, View(), Yielded(source.demos, source.iterations - source.currIteration), rest);
        assert rest[0] in ends;
        CompleteAllKeeps(View(), rest[0]);
        OtherThreads(rest[0]);
        rest := rest[1..];
        RequestIsEmpty(source.demos[0]);
        var request := source.ReadRequest();
        PassWrites(policy, View(), request);
        var goOn := HandleRequest(request);
        if !goOn {
          return false;
        }
      }
      YieldedNone(source.demos);
      LoopDone(policy, View());
      assert rest == [];
      return true;
    }
  }
}
