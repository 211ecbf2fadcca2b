/** Every step of the system on messages keeps the invariant. */
module InvariantSteps {
  import opened Requests
  import opened ObjectStore
  import opened ResponseParsers
  import opened DemoSimulator
  import opened Network
  import opened Machines
  import opened Invariant
  import opened InvariantPeers
  import opened InvariantLinks
  import opened InvariantServing

  /** The invariant is inductive. */
  lemma StepKeepsInv(s: SpecState, e: Event)
    requires Inv(s)
    ensures Inv(SpecStep(s, e))
  {
    hide Inv, PlainStep, CanSend, CanServe, CanBegin;
    InvShaped(s);
    match e
    case Send(c, cmd, noticed) => SendKeepsInv(s, c, cmd, noticed);
    case Pick(c) => PickKeepsInv(s, c);
    case Choose(c, rand) => ChooseKeepsInv(s, c, rand);
    case Read(c) => ReadKeepsInv(s, c);
    case ReadFails(c) => ReadFailsKeepsInv(s, c);
    case Repeat(c, i) => RepeatKeepsInv(s, c, i);
    case Begin(c, i) => BeginKeepsInv(s, c, i);
    case Finish(c) => FinishKeepsInv(s, c);
    case Reconnect(c) => ReconnectKeepsInv(s, c);
    case Stop(c) => StopKeepsInv(s, c);
    case Serve(k, self) => ServeKeepsInv(s, k, self);
    case Drop(k) => DropKeepsInv(s, k);
    case Quit(k) => QuitKeepsInv(s, k);
  }

  /** Beside the two counters nothing overflows, no index leaves its list, and every object that
   *  is sent back can be restored. */
  lemma StepFaults(s: SpecState, e: Event)
    requires Inv(s) && !s.crashed
    ensures SpecStep(s, e).crashed <==>
              match e
              case Send(c, cmd, _) => c < |s.peers| && IdOverflows(s.peers[c], cmd)
              case Serve(k, _) => CanServe(s, k) && !CanServeMessage(s, k)
              case _ => false
  {
    hide Inv, IdOverflows, Observe, Seen, Execute, ValueOf, ChoosePeer, Buildable;
    InvShaped(s);
    match e
    case Choose(c, rand) =>
      if c < |s.peers| {
        ChoiceIsDefined(s, c, rand);
      }
    case Finish(c) =>
      if c < |s.peers| && s.peers[c].busy.Some? {
        FinishDelivers(s, c);
        SeenIsSound(s.server.answers[Key(c, s.peers[c].busy.value.id)]);
      }
    case Send(c, cmd, _) => NoneLeft(s, c, cmd);
    case _ =>
  }

  lemma ChoiceIsDefined(s: SpecState, c: nat, rand: nat)
    requires Inv(s) && c < |s.peers|
    ensures ChoosePeer(s.peers[c], rand).Some?
  {
    hide Inv, Live, Buildable, TableOk, FiredOk, BusyOk;
    PeerFacts(s, c);
    if s.peers[c].phase.Choosing? {
      ChoiceIsSafe(s.peers[c], s.server.store, rand);
    }
  }

  lemma NoneLeft(s: SpecState, c: nat, cmd: Command)
    requires Shaped(s)
    ensures c < |s.peers| ==> !(CanSend(s.peers[c], cmd) && IdOverflows(s.peers[c], cmd))
  {
  }

  lemma NextKeepsInv(s: SpecState, e: Event)
    requires Inv(s)
    ensures Inv(SpecNext(s, e))
  {
    hide Inv, SpecStep;
    if !s.crashed {
      StepKeepsInv(s, e);
    }
  }
}
