/** Bytes, 32-bit integers and the outcome of reading a value at a cursor. */
module Wire {

  // One C++ `char` of a message; a message and a `std::string` are both byte sequences.
  type Octet = c: char | c as int < 256 witness ' '
  type RawData = seq<Octet>

  type int32 = x: int | -0x8000_0000 <= x <= 0x7FFF_FFFF
  const INT_MAX: int := 0x7FFF_FFFF

  // A `double` is carried as its eight bytes, uninterpreted.
  type Double = d: RawData | |d| == 8 witness "        "

  /** What reading one value at a cursor does.
   *  - Hit: the value, and the cursor after it
   *  - Miss: the parser answers "not this type" and leaves the cursor alone
   *  - Fault: the C++ leaves defined behaviour, by indexing the buffer out of range
   *    or by asking for a string of negative length
   */
  datatype Scan<+T> = Hit(value: T, next: nat) | Miss | Fault

  datatype Option<+T> = None | Some(value: T)

  // `piece` stands in `data` at offset `i`.
  predicate At(data: RawData, i: nat, piece: RawData) {
    i + |piece| <= |data| && data[i..i + |piece|] == piece
  }

  // The conversion of a `size_t` length to `int`.
  function Narrow(n: nat): (x: int32)
    ensures n <= INT_MAX <==> x == n
    ensures INT_MAX < n < 0x1_0000_0000 ==> x == n - 0x1_0000_0000
  {
    var m := n % 0x1_0000_0000;
    if m > INT_MAX then m - 0x1_0000_0000 else m
  }

  lemma NarrowWraps(n: nat)
    ensures Narrow(n + 0x1_0000_0000) == Narrow(n)
  {
  }

  function Low(u: nat): Octet {
    (u % 0x100) as char
  }

  // The four bytes of an `int` in memory: two's complement, least significant byte first.
  function IntBytes(x: int32): (r: RawData)
    ensures |r| == 4
  {
    var u := if x < 0 then x + 0x1_0000_0000 else x;
    var v := u / 0x100;
    var w := v / 0x100;
    [Low(u), Low(v), Low(w), Low(w / 0x100)]
  }

  function IntOf(b: RawData): (x: int32)
    requires |b| == 4
  {
    var u := b[0] as int + 0x100 * (b[1] as int + 0x100 * (b[2] as int + 0x100 * (b[3] as int)));
    if u > INT_MAX then u - 0x1_0000_0000 else u
  }

  lemma LowDigit(d: int, q: int)
    requires 0 <= d < 0x100
    ensures (d + 0x100 * q) / 0x100 == q && (d + 0x100 * q) % 0x100 == d
  {
  }

  lemma IntOfBytes(x: int32)
    ensures IntOf(IntBytes(x)) == x
  {
  }

  lemma BytesOfInt(b: RawData)
    requires |b| == 4
    ensures IntBytes(IntOf(b)) == b
  {
    var w := b[2] as int + 0x100 * (b[3] as int);
    var v := b[1] as int + 0x100 * w;
    LowDigit(b[2] as int, b[3] as int);
    LowDigit(b[1] as int, w);
    LowDigit(b[0] as int, v);
  }

  /** Integers and byte quadruples correspond one to one. */
  lemma IntBytesBijective(x: int32, b: RawData)
    requires |b| == 4
    ensures IntBytes(x) == b <==> IntOf(b) == x
  {
    hide IntBytes, IntOf;
    IntOfBytes(x);
    BytesOfInt(b);
  }

  lemma AtInside(data: RawData, i: nat, left: RawData, right: RawData)
    ensures At(data, i, left + right) <==> At(data, i, left) && At(data, i + |left|, right)
  {
    if i + |left| + |right| <= |data| {
      var whole := data[i..i + |left| + |right|];
      assert whole[..|left|] == data[i..i + |left|];
      assert whole[|left|..] == data[i + |left|..i + |left| + |right|];
      assert whole == whole[..|left|] + whole[|left|..];
      assert (left + right)[..|left|] == left && (left + right)[|left|..] == right;
    }
  }

  lemma AtTag(data: RawData, i: nat, tag: Octet)
    ensures At(data, i, [tag]) <==> i < |data| && data[i] == tag
  {
    if i < |data| {
      assert data[i..i + 1] == [data[i]];
    }
  }

  lemma AtSlice(data: RawData, i: nat, piece: RawData)
    ensures At(data, i, piece) <==> i + |piece| <= |data| && data[i..i + |piece|] == piece
  {
  }
}
