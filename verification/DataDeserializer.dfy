/** The parser side: four readers that share one cursor convention. */
module DataDeserializer {
  import opened Wire
  import opened DataSerializer

  // Each reader looks at `data[i]` before it tests any size. The size test of ScanInt and
  // ScanDouble counts the payload only, not the tag byte that is consumed with it.

  function ScanBool(data: RawData, i: nat): Scan<bool> {
    if i >= |data| then Fault
    else if data[i] != 'b' || |data| < i + 1 then Miss
    else if |data| < i + 2 then Fault
    else Hit(data[i + 1] == '1', i + 1)  // the cursor stays on the digit
  }

  function ScanInt(data: RawData, i: nat): Scan<int32> {
    if i >= |data| then Fault
    else if data[i] != 'i' || |data| < i + 4 then Miss
    else if |data| < i + 5 then Fault
    else Hit(IntOf(data[i + 1..i + 5]), i + 5)
  }

  function ScanDouble(data: RawData, i: nat): Scan<Double> {
    if i >= |data| then Fault
    else if data[i] != 'd' || |data| < i + 8 then Miss
    else if |data| < i + 9 then Fault
    else Hit(data[i + 1..i + 9], i + 9)
  }

  function ScanString(data: RawData, i: nat): Scan<RawData> {
    if i >= |data| then Fault
    else if data[i] != 's' then Miss
    else
      match ScanInt(data, i + 1)
      case Fault => Fault
      case Miss => Miss
      case Hit(n, j) =>
        if n < 0 then
          // in `size_t` a negative j + n wraps above every size; otherwise the length itself is huge
          if j + n < 0 then Miss else Fault
        else if |data| < j + n then Miss
        else Hit(data[j..j + n], j + n)
  }

  /** A reader hits exactly on the printed form, whatever surrounds it. */
  lemma ScanIntExact(data: RawData, i: nat, x: int32, n: nat)
    ensures ScanInt(data, i) == Hit(x, n) <==> At(data, i, PutInt(x)) && n == i + 5
  {
    if i + 5 <= |data| {
      assert data[i..i + 5] == [data[i]] + data[i + 1..i + 5];
      assert PutInt(x)[0] == 'i' && PutInt(x)[1..] == IntBytes(x);
      IntBytesBijective(x, data[i + 1..i + 5]);
    }
  }

  lemma ScanDoubleExact(data: RawData, i: nat, d: Double, n: nat)
    ensures ScanDouble(data, i) == Hit(d, n) <==> At(data, i, PutDouble(d)) && n == i + 9
  {
    if i + 9 <= |data| {
      assert data[i..i + 9] == [data[i]] + data[i + 1..i + 9];
      assert PutDouble(d)[0] == 'd' && PutDouble(d)[1..] == d;
    }
  }

  lemma ScanStringExact(data: RawData, i: nat, s: RawData, n: nat)
    ensures ScanString(data, i) == Hit(s, n)
       <==> |s| <= INT_MAX && At(data, i, PutString(s)) && n == i + 6 + |s|
  {
    hide PutInt, ScanInt, At;
    var n' := Narrow(|s|);
    assert PutString(s) == "s" + (PutInt(n') + s);
    AtInside(data, i, "s", PutInt(n') + s);
    AtInside(data, i + 1, PutInt(n'), s);
    AtTag(data, i, 's');
    ScanIntExact(data, i + 1, n', i + 6);
    match ScanInt(data, i + 1)
    case Hit(m, j) =>
      ScanIntExact(data, i + 1, m, j);
      AtSlice(data, j, s);
    case _ =>
  }

  // Any digit other than '1' reads as false.
  lemma ScanBoolExact(data: RawData, i: nat, b: bool, n: nat)
    ensures ScanBool(data, i) == Hit(b, n)
       <==> At(data, i, "b") && i + 2 <= |data| && n == i + 1 && (b <==> At(data, i, PutBool(true)))
  {
    AtTag(data, i, 'b');
    AtTag(data, i + 1, '1');
    AtInside(data, i, "b", "1");
  }

  /** Exactly which inputs run off the buffer, or ask for a string of negative length; every input
   *  that is neither hit nor here is missed, and leaves the cursor alone. */
  lemma ScansFaultExactly(data: RawData, i: nat)
    ensures ScanBool(data, i).Fault? <==> |data| <= i || (At(data, i, "b") && |data| == i + 1)
    ensures ScanInt(data, i).Fault? <==> |data| <= i || (At(data, i, "i") && |data| == i + 4)
    ensures ScanDouble(data, i).Fault? <==> |data| <= i || (At(data, i, "d") && |data| == i + 8)
    ensures ScanString(data, i).Fault? <==>
              || |data| <= i
              || (At(data, i, "s") && |data| == i + 1)
              || (At(data, i, "si") && |data| == i + 5)
              || exists n: int32 :: n < 0 <= i + 6 + n && At(data, i, "s" + PutInt(n))
  {
    hide PutInt, IntOf, At;
    AtTag(data, i, 'b');
    AtTag(data, i, 'i');
    AtTag(data, i, 'd');
    AtTag(data, i, 's');
    AtTag(data, i + 1, 'i');
    AtInside(data, i, "s", "i");
    assert "s" + "i" == "si";
    forall n: int32
      ensures At(data, i, "s" + PutInt(n)) <==> At(data, i, "s") && ScanInt(data, i + 1) == Hit(n, i + 6)
    {
      AtInside(data, i, "s", PutInt(n));
      ScanIntExact(data, i + 1, n, i + 6);
    }
    if At(data, i, "s") && ScanInt(data, i + 1).Hit? {
      var n := ScanInt(data, i + 1).value;
      assert At(data, i, "s" + PutInt(n));
    }
  }

  lemma ScanBoolAt(data: RawData, i: nat, b: bool)
    requires At(data, i, PutBool(b))
    ensures ScanBool(data, i) == Hit(b, i + 1)
  {
    assert data[i] == data[i..i + 2][0] && data[i + 1] == data[i..i + 2][1];
  }

  /** The guards of the readers are one byte short: on a message that stops right before the
   *  last payload byte the guard passes and the read runs off the end. */
  lemma GuardIsOneByteShort(x: int32, d: Double)
    ensures forall k :: 0 <= k <= 5 ==> (ScanInt(PutInt(x)[..k], 0).Fault? <==> k == 0 || k == 4)
    ensures forall k :: 0 <= k <= 9 ==> (ScanDouble(PutDouble(d)[..k], 0).Fault? <==> k == 0 || k == 8)
  {
  }

  // ---------- value sequences ----------

  datatype Kind = IntK | DoubleK | BoolK | TextK

  function KindOf(v: Value): Kind {
    match v
    case IntV(_) => IntK
    case DoubleV(_) => DoubleK
    case BoolV(_) => BoolK
    case TextV(_) => TextK
  }

  function KindsOf(vs: seq<Value>): (ks: seq<Kind>)
    ensures |ks| == |vs|
  {
    if vs == [] then [] else [KindOf(vs[0])] + KindsOf(vs[1..])
  }

  function ScanValue(data: RawData, i: nat, k: Kind): Scan<Value> {
    match k
    case IntK =>
      (match ScanInt(data, i)
       case Hit(x, n) => Hit(IntV(x), n)
       case Miss => Miss
       case Fault => Fault)
    case DoubleK =>
      (match ScanDouble(data, i)
       case Hit(d, n) => Hit(DoubleV(d), n)
       case Miss => Miss
       case Fault => Fault)
    case BoolK =>
      (match ScanBool(data, i)
       case Hit(b, n) => Hit(BoolV(b), n)
       case Miss => Miss
       case Fault => Fault)
    case TextK =>
      (match ScanString(data, i)
       case Hit(s, n) => Hit(TextV(s), n)
       case Miss => Miss
       case Fault => Fault)
  }

  // Repeated parsing with one cursor, as the server does for arguments and
  // `CustomClass::Deserialize` for fields.
  function ScanAll(data: RawData, i: nat, kinds: seq<Kind>): Scan<seq<Value>>
    decreases kinds
  {
    if kinds == [] then Hit([], i)
    else
      match ScanValue(data, i, kinds[0])
      case Miss => Miss
      case Fault => Fault
      case Hit(v, n) => Prepend(v, ScanAll(data, n, kinds[1..]))
  }

  function Prepend(v: Value, more: Scan<seq<Value>>): Scan<seq<Value>> {
    match more
    case Hit(vs, m) => Hit([v] + vs, m)
    case Miss => Miss
    case Fault => Fault
  }

  predicate Admissible(v: Value) {
    v.TextV? ==> |v.s| <= INT_MAX
  }

  predicate BoolOnlyLast(vs: seq<Value>) {
    forall k :: 0 <= k < |vs| - 1 ==> !vs[k].BoolV?
  }

  // The bytes of a value that its reader leaves unread: the digit of a bool.
  function Unread(v: Value): nat {
    if v.BoolV? then 1 else 0
  }

  lemma ScanValueAt(data: RawData, i: nat, v: Value)
    requires Admissible(v) && At(data, i, PutValue(v))
    ensures ScanValue(data, i, KindOf(v)) == Hit(v, i + |PutValue(v)| - Unread(v))
  {
    match v
    case IntV(x) => ScanIntExact(data, i, x, i + 5);
    case DoubleV(d) => ScanDoubleExact(data, i, d, i + 9);
    case BoolV(b) => ScanBoolAt(data, i, b);
    case TextV(s) => ScanStringExact(data, i, s, i + 6 + |s|);
  }

  // Two printed values at the same place are the same value: the code is prefix-free.
  lemma PrefixFree(data: RawData, i: nat, v: Value, w: Value)
    requires Admissible(v) && Admissible(w)
    requires At(data, i, PutValue(v)) && At(data, i, PutValue(w))
    ensures v == w
  {
    ScanValueAt(data, i, v);
    ScanValueAt(data, i, w);
    assert PutValue(v)[0] == data[i] == PutValue(w)[0];
    assert KindOf(v) == KindOf(w);
  }

  /** Repeated parsing recovers a printed list, inside any surrounding buffer, exactly when no
   *  bool stands before the last position: the bool reader stops on its own digit. */
  lemma {:induction false} SequenceRoundTrip(data: RawData, i: nat, vs: seq<Value>)
    requires forall v :: v in vs ==> Admissible(v)
    requires At(data, i, PutAll(vs))
    ensures BoolOnlyLast(vs) ==>
              ScanAll(data, i, KindsOf(vs))
              == Hit(vs, i + |PutAll(vs)| - if vs == [] then 0 else Unread(vs[|vs| - 1]))
    ensures ScanAll(data, i, KindsOf(vs)).Hit? <==> BoolOnlyLast(vs)
    decreases vs
  {
    hide PutValue, ScanValue, At;
    if vs != [] {
      var v, rest := vs[0], vs[1..];
      ScanFirst(data, i, vs);
      if rest == [] {
        assert vs == [v] && PutAll(vs) == PutValue(v) + [] == PutValue(v);
        assert ScanAll(data, i + |PutValue(v)| - Unread(v), KindsOf(rest)) == Hit([], i + |PutValue(v)| - Unread(v));
        assert [v] + [] == vs && BoolOnlyLast(vs);
      } else if v.BoolV? {
        assert vs[0].BoolV?;
        StuckOnDigit(data, i, v, KindsOf(rest));
      } else {
        SequenceRoundTrip(data, i + |PutValue(v)|, rest);
        BoolOnlyLastTail(vs);
        assert vs == [v] + rest;
      }
    }
  }

  lemma ScanFirst(data: RawData, i: nat, vs: seq<Value>)
    requires vs != [] && Admissible(vs[0]) && At(data, i, PutAll(vs))
    ensures At(data, i, PutValue(vs[0])) && At(data, i + |PutValue(vs[0])|, PutAll(vs[1..]))
    ensures ScanAll(data, i, KindsOf(vs))
         == Prepend(vs[0], ScanAll(data, i + |PutValue(vs[0])| - Unread(vs[0]), KindsOf(vs[1..])))
  {
    hide PutValue, ScanValue, At;
    var v, rest := vs[0], vs[1..];
    assert At(data, i, PutValue(v)) && At(data, i + |PutValue(v)|, PutAll(rest)) by {
      AtInside(data, i, PutValue(v), PutAll(rest));
    }
    ScanValueAt(data, i, v);
    ScanAllCons(data, i, v, i + |PutValue(v)| - Unread(v), KindOf(v), KindsOf(rest));
  }

  lemma ScanAllCons(data: RawData, i: nat, v: Value, n: nat, k: Kind, ks: seq<Kind>)
    requires ScanValue(data, i, k) == Hit(v, n)
    ensures ScanAll(data, i, [k] + ks) == Prepend(v, ScanAll(data, n, ks))
  {
    assert ([k] + ks)[1..] == ks;
  }

  lemma BoolOnlyLastTail(vs: seq<Value>)
    requires |vs| > 1
    ensures BoolOnlyLast(vs) <==> !vs[0].BoolV? && BoolOnlyLast(vs[1..])
  {
    var rest := vs[1..];
    assert forall k :: 0 <= k < |rest| ==> rest[k] == vs[k + 1];
    if !vs[0].BoolV? && BoolOnlyLast(rest) {
      forall k | 0 <= k < |vs| - 1 ensures !vs[k].BoolV? {
        assert k > 0 ==> vs[k] == rest[k - 1];
      }
    }
  }

  lemma StuckOnDigit(data: RawData, i: nat, v: Value, kinds: seq<Kind>)
    requires v.BoolV? && At(data, i, PutValue(v)) && kinds != []
    ensures |PutValue(v)| == 2 && ScanAll(data, i + 1, kinds).Miss?
  {
    assert data[i + 1] == data[i..i + 2][1];
  }

  /** The string round trip fails from length 2^31 on, where the length no longer fits an `int`. */
  lemma StringRoundTripExactly(before: RawData, s: RawData, after: RawData)
    ensures ScanString(before + PutString(s) + after, |before|) == Hit(s, |before| + |PutString(s)|)
       <==> |s| <= INT_MAX
  {
    var data := before + PutString(s) + after;
    assert data[|before|..|before| + |PutString(s)|] == PutString(s);
    ScanStringExact(data, |before|, s, |before| + 6 + |s|);
  }

  // ---------- the readers as written, over a moving cursor ----------

  method ParseBool(data: RawData, seek: nat) returns (ok: bool, value: bool, next: nat)
    requires !ScanBool(data, seek).Fault?
    ensures ok ==> ScanBool(data, seek) == Hit(value, next)
    ensures !ok ==> ScanBool(data, seek).Miss? && next == seek && !value
  {
    next := seek;
    if data[next] != 'b' || |data| < next + 1 {
      return false, false, next;
    }
    next := next + 1;
    var ch := data[next];
    return true, ch == '1', next;
  }

  method ParseInt(data: RawData, seek: nat) returns (ok: bool, value: int32, next: nat)
    requires !ScanInt(data, seek).Fault?
    ensures ok ==> ScanInt(data, seek) == Hit(value, next)
    ensures !ok ==> ScanInt(data, seek).Miss? && next == seek && value == 0
  {
    next := seek;
    if data[next] != 'i' || |data| < next + 4 {
      return false, 0, next;
    }
    next := next + 1;
    var aux := new Octet[4](_ => ' ');
    var i := 0;
    while i < 4
      invariant 0 <= i <= 4 && next == seek + 1 + i
      invariant aux[..i] == data[seek + 1..seek + 1 + i]
    {
      aux[i] := data[next];
      next := next + 1;
      i := i + 1;
    }
    assert aux[..] == aux[..4];
    return true, IntOf(aux[..]), next;
  }

  method ParseDouble(data: RawData, seek: nat) returns (ok: bool, value: Double, next: nat)
    requires !ScanDouble(data, seek).Fault?
    ensures ok ==> ScanDouble(data, seek) == Hit(value, next)
    ensures !ok ==> ScanDouble(data, seek).Miss? && next == seek && value == seq(8, _ => '\0')
  {
    next := seek;
    var zero: RawData := seq(8, _ => '\0');
    if data[next] != 'd' || |data| < next + 8 {
      return false, zero, next;
    }
    next := next + 1;
    var aux := new Octet[8](_ => ' ');
    var i := 0;
    while i < 8
      invariant 0 <= i <= 8 && next == seek + 1 + i
      invariant aux[..i] == data[seek + 1..seek + 1 + i]
    {
      aux[i] := data[next];
      next := next + 1;
      i := i + 1;
    }
    assert aux[..] == aux[..8];
    return true, aux[..], next;
  }

  method ParseString(data: RawData, seek: nat) returns (ok: bool, value: RawData, next: nat)
    requires !ScanString(data, seek).Fault?
    ensures ok ==> ScanString(data, seek) == Hit(value, next)
    ensures !ok ==> ScanString(data, seek).Miss? && next == seek && value == []
  {
    next := seek;
    if data[seek] != 's' {
      return false, [], seek;
    }
    var known, length, idx := ParseInt(data, seek + 1);
    if !known || idx + length < 0 || |data| < idx + length {
      return false, [], seek;
    }
    var start := idx;
    var str := new Octet[length](_ => '\0');
    var i := 0;
    while i < str.Length
      invariant 0 <= i <= str.Length && idx == start + i
      invariant str[..i] == data[start..start + i]
    {
      str[i] := data[idx];
      idx := idx + 1;
      i := i + 1;
    }
    assert str[..] == str[..str.Length];
    return true, str[..], idx;
  }
}
