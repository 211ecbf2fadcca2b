/** The object store, seen from its clients: every object is a pair of registers. What a command
 *  answers is fixed by the last writes before it, with no store in between. */
module Registers {
  import opened Wire
  import opened CustomClasses
  import opened Requests
  import opened ObjectStore
  import opened ResponseParsers
  import opened DemoSimulator
  import opened Client
  import opened Network
  import opened Machines
  import opened Invariant
  import opened Theorems

  function CreatedIn(history: seq<Entry>): nat {
    if history == [] then 0
    else CreatedIn(history[..|history| - 1]) + if history[|history| - 1].cmd.Create? then 1 else 0
  }

  // The integer last written to object k: by a setter, or by the create that was the k-th.
  function LastInt(history: seq<Entry>, k: nat): int32 {
    if history == [] then 0
    else
      var e, before := history[|history| - 1], history[..|history| - 1];
      match e.cmd
      case SetInteger(h, x) => if h == k then x else LastInt(before, k)
      case Create(NoArgs) => if CreatedIn(before) == k then 0 else LastInt(before, k)
      case Create(OneArg(x)) => if CreatedIn(before) == k then x else LastInt(before, k)
      case Create(TwoArgs(x, _)) => if CreatedIn(before) == k then x else LastInt(before, k)
      case _ => LastInt(before, k)
  }

  function LastString(history: seq<Entry>, k: nat): RawData {
    if history == [] then ""
    else
      var e, before := history[|history| - 1], history[..|history| - 1];
      match e.cmd
      case SetString(h, s) => if h == k then s else LastString(before, k)
      case Create(NoArgs) => if CreatedIn(before) == k then "" else LastString(before, k)
      case Create(OneArg(_)) => if CreatedIn(before) == k then "" else LastString(before, k)
      case Create(TwoArgs(_, s)) => if CreatedIn(before) == k then s else LastString(before, k)
      case _ => LastString(before, k)
  }

  // The address at which the k-th create put its object.
  function Place(history: seq<Entry>, k: nat): Address {
    if history == [] then ""
    else
      var e, before := history[|history| - 1], history[..|history| - 1];
      if e.cmd.Create? && CreatedIn(before) == k then e.self else Place(before, k)
  }

  /** The store after a history holds the last writes. */
  lemma {:induction false} StoreHoldsLastWrites(history: seq<Entry>)
    ensures |Replay(history)| == CreatedIn(history)
    ensures forall k :: 0 <= k < |Replay(history)| ==>
              Replay(history)[k] == Obj(Place(history, k), LastInt(history, k), LastString(history, k))
  {
    if history != [] {
      var e, before := history[|history| - 1], history[..|history| - 1];
      StoreHoldsLastWrites(before);
      forall k | 0 <= k < |Replay(history)|
        ensures Replay(history)[k] == Obj(Place(history, k), LastInt(history, k), LastString(history, k))
      {
        OneMoreWrite(before, e, k);
      }
    }
  }

  lemma OneMoreWrite(before: seq<Entry>, e: Entry, k: nat)
    requires |Replay(before)| == CreatedIn(before)
    requires k < |Replay(before)| ==>
               Replay(before)[k] == Obj(Place(before, k), LastInt(before, k), LastString(before, k))
    requires k < |Execute(Replay(before), e.cmd, e.self).0|
    ensures var h := before + [e];
            Execute(Replay(before), e.cmd, e.self).0[k] == Obj(Place(h, k), LastInt(h, k), LastString(h, k))
  {
    hide Replay;
    assert (before + [e])[..|before|] == before;
  }

  // What a command answers after a history, from the writes in it alone.
  function Answered(history: seq<Entry>, cmd: Command): Result {
    if HasHandle(cmd) && !(0 <= cmd.handle < CreatedIn(history)) then Silent
    else
      match cmd
      case Create(_) => Handle(CreatedIn(history))
      case PrintToString(h) =>
        Text(PrintText(Obj(Place(history, h), LastInt(history, h), LastString(history, h))))
      case SetInteger(h, x) => Flag(x != LastInt(history, h))
      case SetString(h, s) => Flag(s != LastString(history, h))
      case Retrieve(h) => Object(LastInt(history, h), LastString(history, h))
      case _ => Silent
  }

  lemma ResultFromWrites(history: seq<Entry>, cmd: Command, self: Address)
    ensures Execute(Replay(history), cmd, self).1 == Answered(history, cmd)
  {
    hide Replay, PrintText, Place, LastInt, LastString, CreatedIn;
    StoreHoldsLastWrites(history);
  }

  /** Last writer wins, in every run: each request that the server executed answers what the last
   *  writes before it say, whichever clients made them. */
  lemma EveryResultFromWrites(policies: seq<ExecutionPolicy>, events: seq<Event>, i: nat)
    requires i < |History(policies, events)|
    ensures var h := History(policies, events);
            h[i].result == Answered(h[..i], h[i].cmd)
  {
    hide SpecRun, Replay, Execute, Answered, WasServed;
    HistoryIsSequential(policies, events);
    var h := History(policies, events);
    ResultFromWrites(h[..i], h[i].cmd, h[i].self);
  }

  /** What a callback sees are the last writes before its request was executed. In particular the callback
   *  of a get sees the fields that were last set, or else those that the create carried. */
  lemma CallbackSeesLastWrites(policies: seq<ExecutionPolicy>, events: seq<Event>, c: nat, j: nat) returns (i: nat)
    requires c < |ByteRun(policies, events).peers| && j < |ByteRun(policies, events).peers[c].fired|
    ensures var p := ByteRun(policies, events).peers[c];
            var f := p.fired[j];
            var h := History(policies, events);
            && 1 <= f.id <= |p.issued| && ExecutedAs(h, i, c, f.id, p.issued[f.id - 1].cmd)
            && f.seen == Seen(Answered(h[..i], h[i].cmd))
            && (h[i].cmd.Retrieve? ==>
                  && 0 <= h[i].cmd.handle < CreatedIn(h[..i])
                  && f.seen == Fetched(Fields(LastInt(h[..i], h[i].cmd.handle), LastString(h[..i], h[i].cmd.handle))))
  {
    hide ByteRun, SpecRun, Execute, Replay, LastInt, LastString, Place, PrintText, CreatedIn;
    i := EndToEnd(policies, events, c, j);
    EveryResultFromWrites(policies, events, i);
  }
}
