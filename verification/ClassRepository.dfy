/** The handles a client process knows, in the order it learnt them. */
module ClassRepositories {
  import opened Wire

  function Registered(handles: seq<int32>, h: int32): seq<int32> {
    if h in handles then handles else handles + [h]
  }

  // Values that never repeat.
  ghost predicate Distinct<T(!new)>(s: seq<T>) {
    forall i, j :: 0 <= i < j < |s| ==> s[i] != s[j]
  }

  // The check sees one state of the list, the push goes to a later one.
  function CheckThenPush(checked: seq<int32>, later: seq<int32>, h: int32): seq<int32> {
    if h in checked then later else later + [h]
  }

  /** A duplicate appears if and only if the handle was missing at the check and is there at the
   *  push; without a change in between, checking and pushing is `Registered`. */
  lemma CheckThenPushDuplicates(checked: seq<int32>, later: seq<int32>, h: int32)
    requires checked <= later && Distinct(later)
    ensures Distinct(CheckThenPush(checked, later, h)) <==> !(h !in checked && h in later)
    ensures CheckThenPush(checked, checked, h) == Registered(checked, h)
  {
    var pushed := later + [h];
    if h in later {
      var i :| 0 <= i < |later| && later[i] == h;
      assert pushed[i] == pushed[|later|];
    }
  }

  /** Two unguarded threads that register the same handle, both of which check before either
   *  pushes, leave it in the list twice. */
  lemma TwoThreadsDuplicate(h: int32)
    ensures var first := CheckThenPush([], [], h);
            var second := CheckThenPush([], first, h);
            second == [h, h] && !Distinct(second)
  {
    var second := CheckThenPush([], CheckThenPush([], [], h), h);
    assert second[0] == second[1];
  }

  // The element at a random index below `size`, an earlier length of the list; -1 if that was 0.
  function Choice(size: nat, handles: seq<int32>, rand: nat): Option<int32> {
    if size == 0 then Some(-1)
    else if rand % size < |handles| then Some(handles[rand % size])
    else None  // index out of range
  }

  class ClassRepository {
    var handles: seq<int32>

    constructor ()
      ensures handles == []
    {
      handles := [];
    }

    // What other threads may do between two lock acquisitions: the list only grows.
    method OtherThreads()
      modifies this
      ensures old(handles) <= handles
    {
      var more: seq<int32> := *;
      handles := handles + more;
    }

    method ContainsClassHandle(handle: int32) returns (found: bool)
      ensures found <==> handle in handles
    {
      var i := 0;
      while i < |handles|
        invariant 0 <= i <= |handles|
        invariant handle !in handles[..i]
      {
        if handles[i] == handle {
          return true;
        }
        i := i + 1;
      }
      return false;
    }

    // The check and the push hold the mutex separately. Callers run under the
    // response parser's mutex, so nothing else registers in between.
    method RegisterClassHandle(handle: int32) returns (added: bool)
      modifies this
      ensures handles == Registered(old(handles), handle)
      ensures added <==> handle !in old(handles)
      ensures Distinct(old(handles)) ==> Distinct(handles)
    {
      var known := ContainsClassHandle(handle);
      if known {
        return false;
      }
      handles := handles + [handle];
      return true;
    }

    /** Without that outer mutex the pair is not atomic: the check reads one list, and the push may
     *  meet a longer one. */
    method RegisterClassHandleUnguarded(handle: int32) returns (added: bool, ghost between: seq<int32>)
      modifies this
      ensures old(handles) <= between
      ensures added <==> handle !in old(handles)
      ensures handles == CheckThenPush(old(handles), between, handle)
      ensures Distinct(between) ==> (Distinct(handles) <==> !(handle !in old(handles) && handle in between))
    {
      ghost var checked := handles;
      var known := ContainsClassHandle(handle);
      OtherThreads();
      between := handles;
      if Distinct(between) {
        CheckThenPushDuplicates(checked, between, handle);
      }
      if known {
        return false, between;
      }
      handles := handles + [handle];
      return true, between;
    }

    /** The size and the element are read from two snapshots. The index stays in range, and the
     *  answer is -1 only if the first snapshot was empty. */
    method GetClassHandleAtRandom(rand: nat) returns (handle: int32, ghost first: seq<int32>)
      modifies this
      ensures first == old(handles) && first <= handles
      ensures Choice(|first|, handles, rand) == Some(handle)
      ensures first == [] ==> handle == -1
      ensures first != [] ==> handle == first[rand % |first|] && handle in handles
      ensures (forall h :: h in first ==> 0 <= h) ==> (handle == -1 <==> first == [])
    {
      first := handles;
      var size := |handles|;
      if size == 0 {
        return -1, first;
      }
      OtherThreads();
      handle := handles[rand % size];
      assert first[rand % size] in first;
    }
  }
}
