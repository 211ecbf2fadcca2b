/** The "#r" + id prefix of every message, and the two-byte keywords. Client and server each
 *  have their own copy of this code; the copies are the same. */
module Framing {
  import opened Wire
  import opened DataSerializer
  import opened DataDeserializer

  function IdPart(id: int32): (r: RawData)
    ensures |r| == 7
  {
    "#r" + PutInt(id)
  }

  predicate Keyword(data: RawData, i: nat, key: Octet) {
    i + 2 <= |data| && data[i] == '#' && data[i + 1] == key
  }

  // The leading "#r" + id. Without one the id is -1 and the cursor stays at 0.
  function ScanRequestId(data: RawData): (r: Scan<int32>)
    ensures !r.Miss?
    ensures r.Hit? ==> r.next <= |data|
  {
    if !Keyword(data, 0, 'r') then Hit(-1, 0)
    else
      match ScanInt(data, 2)
      case Fault => Fault
      case Miss => Hit(-1, 0)
      case Hit(id, n) => Hit(id, n)
  }

  lemma KeywordAt(data: RawData, i: nat, key: Octet, rest: RawData)
    requires At(data, i, ['#', key] + rest)
    ensures At(data, i + 2, rest)
    ensures forall k: Octet :: Keyword(data, i, k) <==> k == key
    ensures i < |data| && data[i] == '#'
  {
    AtInside(data, i, ['#', key], rest);
    assert data[i..i + 2] == ['#', key];
    assert data[i] == data[i..i + 2][0] && data[i + 1] == data[i..i + 2][1];
  }

  lemma IdPartAt(id: int32, rest: RawData)
    ensures ScanRequestId(IdPart(id) + rest) == Hit(id, 7)
    ensures At(IdPart(id) + rest, 7, rest) && |IdPart(id) + rest| == 7 + |rest|
  {
    hide PutInt, ScanInt;
    var data := IdPart(id) + rest;
    assert data == "#r" + (PutInt(id) + rest);
    KeywordAt(data, 0, 'r', PutInt(id) + rest);
    AtInside(data, 2, PutInt(id), rest);
    ScanIntExact(data, 2, id, 7);
  }

  // `data` starts with an id.
  predicate HasId(data: RawData) {
    exists id: int32 :: At(data, 0, IdPart(id))
  }

  /** The id is -1, with the cursor at the front, exactly for a message that does not start with an
   *  id; the scan faults exactly if the message ends inside its id, one byte short or right after "#r". */
  lemma RequestIdExactly(data: RawData, id: int32, n: nat)
    ensures ScanRequestId(data).Fault? <==> At(data, 0, "#r") && ScanInt(data, 2).Fault?
    ensures ScanRequestId(data) == Hit(id, n)
       <==> || (At(data, 0, IdPart(id)) && n == 7)
            || (!HasId(data) && !(At(data, 0, "#r") && ScanInt(data, 2).Fault?) && id == -1 && n == 0)
  {
    hide PutInt, ScanInt, At;
    KeywordIsAt(data, 0, 'r');
    forall x: int32 ensures At(data, 0, IdPart(x)) <==> At(data, 0, "#r") && ScanInt(data, 2) == Hit(x, 7) {
      AtInside(data, 0, "#r", PutInt(x));
      ScanIntExact(data, 2, x, 7);
    }
    if ScanInt(data, 2).Hit? {
      ScanIntExact(data, 2, ScanInt(data, 2).value, ScanInt(data, 2).next);
    }
  }

  lemma KeywordIsAt(data: RawData, i: nat, key: Octet)
    ensures Keyword(data, i, key) <==> At(data, i, ['#', key])
  {
    if i + 2 <= |data| {
      assert data[i..i + 2] == [data[i], data[i + 1]];
    }
  }

  method CreateRequestIdData(id: int32) returns (data: RawData)
    ensures data == IdPart(id)
  {
    var stream := new Stream();
    stream.Append("#r");
    stream.SerializeInt(id);
    data := stream.contents;
  }

  // The cursor starts at the front of the message.
  method ParseRequestId(data: RawData) returns (id: int32, next: nat)
    requires !ScanRequestId(data).Fault?
    ensures ScanRequestId(data) == Hit(id, next)
  {
    next := 0;
    if |data| < next + 2 {
      return -1, next;
    }
    var idx := next;
    if data[idx] == '#' && data[idx + 1] == 'r' {
      var ok, value, j := ParseInt(data, idx + 2);
      if ok {
        return value, j;
      }
    }
    return -1, next;
  }
}
