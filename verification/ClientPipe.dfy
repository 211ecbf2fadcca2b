/** The blocking read of one message that may arrive in several chunks. */
module ClientPipe {
  import opened Wire

  const BUFFER_SIZE := 4096

  function Concat(chunks: seq<RawData>): RawData {
    if chunks == [] then [] else chunks[0] + Concat(chunks[1..])
  }

  // What the read yields when the pipe delivers these chunks, and then breaks unless complete.
  function Reassembled(chunks: seq<RawData>, complete: bool): Option<RawData> {
    if complete && chunks != [] then Some(Concat(chunks)) else None
  }

  // How a pipe in message mode hands out one message: full buffers, then what is left.
  function Chunks(message: RawData): seq<RawData>
    decreases |message|
  {
    if |message| <= BUFFER_SIZE then [message]
    else [message[..BUFFER_SIZE]] + Chunks(message[BUFFER_SIZE..])
  }

  /** A message of any length, also an empty one, comes back whole from chunks that fit the buffer. */
  lemma {:induction false} ChunksReassemble(message: RawData)
    ensures Reassembled(Chunks(message), true) == Some(message)
    ensures forall c :: c in Chunks(message) ==> |c| <= 4096
    decreases |message|
  {
    if |message| > BUFFER_SIZE {
      ChunksReassemble(message[BUFFER_SIZE..]);
      assert message == message[..BUFFER_SIZE] + message[BUFFER_SIZE..];
      assert Chunks(message)[0] == message[..BUFFER_SIZE] && Chunks(message)[1..] == Chunks(message[BUFFER_SIZE..]);
    } else {
      assert Concat([message]) == message;
    }
  }

  /** A pipe that breaks yields no data, wherever in the message, and also after the last chunk. */
  lemma BrokenIsNoData(message: RawData, n: nat)
    requires n <= |Chunks(message)|
    ensures Reassembled(Chunks(message)[..n], false) == None && Reassembled([], true) == None
  {
  }

  /** The chunks in which the pipe will deliver what it holds. If `complete`, the last chunk
   *  reports success and the earlier ones ERROR_MORE_DATA; otherwise the pipe breaks after them. */
  class ChunkSource {
    var chunks: seq<RawData>
    const complete: bool

    ghost predicate Valid()
      reads this
    {
      forall c :: c in chunks ==> |c| <= BUFFER_SIZE
    }

    method ReadFile(buffer: array<Octet>) returns (success: bool, moreData: bool, bytesRead: nat)
      requires Valid() && buffer.Length == BUFFER_SIZE
      modifies this`chunks, buffer
      ensures Valid()
      ensures old(chunks) == [] ==> !success && !moreData && chunks == []
      ensures old(chunks) != [] ==> chunks == old(chunks)[1..] && bytesRead == |old(chunks)[0]| <= buffer.Length
      ensures old(chunks) != [] ==> buffer[..bytesRead] == old(chunks)[0]
      ensures old(chunks) != [] ==> (success <==> complete && chunks == []) && moreData == !success
    {
      if chunks == [] {
        return false, false, 0;
      }
      var chunk := chunks[0];
      chunks := chunks[1..];
      forall i | 0 <= i < |chunk| {
        buffer[i] := chunk[i];
      }
      success := complete && chunks == [];
      return success, !success, |chunk|;
    }
  }

  /** Reassembly: a message that arrives completely is returned as the exact concatenation of its
   *  chunks, for any length; a broken one yields a failure and no data. */
  method ReadDataFromServerSync(pipe: ChunkSource) returns (ok: bool, data: RawData)
    requires pipe.Valid()
    modifies pipe`chunks
    ensures Reassembled(old(pipe.chunks), pipe.complete) == if ok then Some(data) else None
    ensures ok <==> pipe.complete && old(pipe.chunks) != []
    ensures if ok then data == Concat(old(pipe.chunks)) else data == []
  {
    var res: RawData := [];
    var tmp := new Octet[BUFFER_SIZE](_ => '\0');
    var success := false;
    while !success
      invariant pipe.Valid()
      invariant success ==> pipe.complete && old(pipe.chunks) != [] && pipe.chunks == []
      invariant !success && pipe.complete && old(pipe.chunks) != [] ==> pipe.chunks != []
      invariant old(pipe.chunks) == [] ==> pipe.chunks == []
      invariant res + Concat(pipe.chunks) == Concat(old(pipe.chunks))
      decreases if success then 0 else 1 + |pipe.chunks|
    {
      ghost var before := pipe.chunks;
      var moreData, bytesRead;
      success, moreData, bytesRead := pipe.ReadFile(tmp);
      if !success && !moreData {
        break;
      }
      res := res + tmp[..bytesRead];
      assert before != [] && Concat(before) == before[0] + Concat(pipe.chunks);
    }
    if !success {
      return false, [];
    }
    assert res == Concat(old(pipe.chunks));
    return true, res;
  }
}
