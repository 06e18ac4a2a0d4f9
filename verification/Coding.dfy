/** Base-128 varints, fixed-width little-endian numbers and length-prefixed slices. */
module Coding {
  import opened Types

  /** What a decoder takes off the front of a slice. */
  datatype Parsed<T> = Fail | Got(value: T, rest: Bytes)

  const TWO_32: nat := 0x1_0000_0000
  const TWO_64: nat := 0x1_0000_0000_0000_0000

  function Power(base: nat, n: nat): nat {
    if n == 0 then 1 else base * Power(base, n - 1)
  }

  lemma Regroup(a: Bytes, b: Bytes, c: Bytes)
    ensures (a + b) + c == a + (b + c)
  {
  }

  // ---- varints

  function Varint(v: nat): (r: Bytes)
    ensures |r| > 0
  {
    if v < 128 then [v as Byte] else [(v % 128 + 128) as Byte] + Varint(v / 128)
  }

  /** The encoding loop. */
  method EncodeVarint(value: nat) returns (dst: Bytes)
    ensures dst == Varint(value)
  {
    var v := value;
    dst := [];
    while v >= 128
      invariant dst + Varint(v) == Varint(value)
    {
      dst := dst + [(v % 128 + 128) as Byte];
      v := v / 128;
    }
    dst := dst + [v as Byte];
  }

  /** A varint of at most `room` bytes. */
  function ReadVarint(src: Bytes, room: nat): (r: Parsed<nat>)
    ensures r.Got? ==> |r.rest| < |src|
    decreases |src|
  {
    if room == 0 || src == [] then Fail
    else if src[0] < 128 then Got(src[0] as nat, src[1..])
    else
      match ReadVarint(src[1..], room - 1)
      case Fail => Fail
      case Got(v, rest) => Got(src[0] as nat - 128 + 128 * v, rest)
  }

  /** Ten bytes carry 70 bits; what does not fit in 64 is shifted out. */
  function GetVarint64(src: Bytes): (r: Parsed<nat>)
    ensures r.Got? ==> |r.rest| < |src| && r.value < TWO_64
  {
    match ReadVarint(src, 10)
    case Fail => Fail
    case Got(v, rest) => Got(v % TWO_64, rest)
  }

  function GetVarint32(src: Bytes): (r: Parsed<nat>)
    ensures r.Got? ==> |r.rest| < |src| && r.value < TWO_32
  {
    match ReadVarint(src, 5)
    case Fail => Fail
    case Got(v, rest) => Got(v % TWO_32, rest)
  }

  /** A number read at weight `scale`, on top of what was read before it. */
  function Weighted(p: Parsed<nat>, acc: nat, scale: nat): Parsed<nat> {
    if p.Fail? then Fail else Got(acc + scale * p.value, p.rest)
  }

  /** A byte with more to come. */
  lemma WeightedStep(src: Bytes, room: nat, acc: nat, scale: nat, b: nat)
    requires room > 0 && src != [] && src[0] as nat == 128 + b
    ensures Weighted(ReadVarint(src, room), acc, scale) ==
              Weighted(ReadVarint(src[1..], room - 1), acc + b * scale, scale * 128)
  {
    var p := ReadVarint(src[1..], room - 1);
    if p.Got? {
      assert scale * (b + 128 * p.value) == b * scale + (scale * 128) * p.value;
    }
  }

  /** The last byte. */
  lemma WeightedEnd(src: Bytes, room: nat, acc: nat, scale: nat, b: nat)
    requires room > 0 && src != [] && src[0] as nat == b < 128
    ensures Weighted(ReadVarint(src, room), acc, scale) == Got(acc + scale * b, src[1..])
  {
  }

  /** What is left to read, and what has been read of it so far. */
  predicate Decoding(src: Bytes, room: nat, left: Bytes, more: nat, acc: nat, scale: nat) {
    ReadVarint(src, room) == Weighted(ReadVarint(left, more), acc, scale)
  }

  /** The decoding loop, before the value is cut to its width. */
  method DecodeVarint(src: Bytes, room: nat) returns (r: Parsed<nat>)
    ensures r == ReadVarint(src, room)
  {
    var acc: nat, scale: nat, left, more := 0, 1, src, room;
    while more > 0 && left != []
      invariant Decoding(src, room, left, more, acc, scale)
      decreases |left|
    {
      var byte := left[0] as nat;
      if byte < 128 {
        WeightedEnd(left, more, acc, scale, byte);
        return Got(acc + scale * byte, left[1..]);
      }
      WeightedStep(left, more, acc, scale, byte - 128);
      acc, scale, left, more := acc + (byte - 128) * scale, scale * 128, left[1..], more - 1;
    }
    return Fail;
  }

  lemma {:induction false} VarintReads(v: nat, rest: Bytes, room: nat)
    requires |Varint(v)| <= room
    ensures ReadVarint(Varint(v) + rest, room) == Got(v, rest)
    decreases v
  {
    if v < 128 {
      assert ([v as Byte] + rest)[1..] == rest;
    } else {
      VarintReads(v / 128, rest, room - 1);
      assert (Varint(v) + rest)[1..] == Varint(v / 128) + rest;
    }
  }

  lemma {:induction false} VarintLength(v: nat, room: nat)
    requires room > 0 && v < Power(128, room)
    ensures |Varint(v)| <= room
  {
    if v >= 128 {
      assert Power(128, room) == 128 * Power(128, room - 1);
      VarintLength(v / 128, room - 1);
    }
  }

  lemma Powers()
    ensures TWO_32 <= Power(128, 5) && TWO_64 <= Power(128, 10)
  {
    assert Power(128, 2) == 16384;
    assert Power(128, 4) == 0x1000_0000;
    assert Power(128, 5) == 0x8_0000_0000;
    assert Power(128, 7) == 0x2_0000_0000_0000;
    assert Power(128, 9) == 0x8000_0000_0000_0000;
  }

  lemma VarintFits(v: nat)
    ensures v < TWO_32 ==> |Varint(v)| <= 5
    ensures v < TWO_64 ==> |Varint(v)| <= 10
  {
    Powers();
    if v < TWO_32 {
      VarintLength(v, 5);
    }
    if v < TWO_64 {
      VarintLength(v, 10);
    }
  }

  lemma SmallRead(src: Bytes, v: nat, rest: Bytes)
    ensures v < TWO_64 && ReadVarint(src, 10) == Got(v, rest) ==> GetVarint64(src) == Got(v, rest)
    ensures v < TWO_32 && ReadVarint(src, 5) == Got(v, rest) ==> GetVarint32(src) == Got(v, rest)
  {
  }

  lemma Varint64Back(v: nat, rest: Bytes)
    requires v < TWO_64
    ensures GetVarint64(Varint(v) + rest) == Got(v, rest)
  {
    VarintFits(v);
    VarintReads(v, rest, 10);
    SmallRead(Varint(v) + rest, v, rest);
  }

  lemma Varint32Back(v: nat, rest: Bytes)
    requires v < TWO_32
    ensures GetVarint32(Varint(v) + rest) == Got(v, rest)
  {
    VarintFits(v);
    VarintReads(v, rest, 5);
    SmallRead(Varint(v) + rest, v, rest);
  }

  // ---- slices

  /** The length is written as a 32-bit number. */
  function Prefixed(s: Bytes): Bytes {
    Varint(|s| % TWO_32) + s
  }

  function GetPrefixed(src: Bytes): (r: Parsed<Bytes>)
    ensures r.Got? ==> |r.rest| < |src|
  {
    match GetVarint32(src)
    case Fail => Fail
    case Got(len, rest) => if len <= |rest| then Got(rest[..len], rest[len..]) else Fail
  }

  lemma PrefixedBack(s: Bytes, rest: Bytes)
    requires |s| < TWO_32
    ensures GetPrefixed(Prefixed(s) + rest) == Got(s, rest)
  {
    Varint32Back(|s|, s + rest);
    assert Prefixed(s) + rest == Varint(|s|) + (s + rest);
    assert (s + rest)[..|s|] == s && (s + rest)[|s|..] == rest;
  }

  // ---- fixed width

  function Fixed(v: nat, width: nat): (r: Bytes)
    ensures |r| == width
  {
    if width == 0 then [] else [(v % 256) as Byte] + Fixed(v / 256, width - 1)
  }

  function FixedValue(src: Bytes): nat {
    if src == [] then 0 else src[0] as nat + 256 * FixedValue(src[1..])
  }

  function GetFixed(src: Bytes, width: nat): (r: Parsed<nat>)
    ensures r.Got? <==> width <= |src|
    ensures r.Got? ==> r.rest == src[width..]
  {
    if |src| < width then Fail else Got(FixedValue(src[..width]), src[width..])
  }

  lemma {:induction false} FixedBack(v: nat, width: nat)
    requires v < Power(256, width)
    ensures FixedValue(Fixed(v, width)) == v
  {
    if width > 0 {
      FixedBack(v / 256, width - 1);
      assert Fixed(v, width)[1..] == Fixed(v / 256, width - 1);
    }
  }

  /** Bytes are the encoding of the number they stand for. */
  lemma {:induction false} FixedOf(src: Bytes)
    ensures Fixed(FixedValue(src), |src|) == src
  {
    if src != [] {
      FixedOf(src[1..]);
    }
  }

  lemma FixedReads(v: nat, width: nat, rest: Bytes)
    requires v < Power(256, width)
    ensures GetFixed(Fixed(v, width) + rest, width) == Got(v, rest)
  {
    FixedBack(v, width);
    assert (Fixed(v, width) + rest)[..width] == Fixed(v, width);
  }

  lemma FixedPowers()
    ensures Power(256, 4) == TWO_32 && Power(256, 8) == TWO_64
  {
    assert Power(256, 2) == 65536;
    assert Power(256, 4) == 0x1_0000_0000;
    assert Power(256, 6) == 0x1_0000_0000_0000;
  }
}
