/** The bitmap of invalid entries of a blob file. */
module Bitmaps {

  datatype Op = And | Or | Xor

  // ---- bits of a byte

  /** Bit 0 is the most significant one. */
  function Mask(k: nat): (m: bv8)
    requires k < 8
    ensures m != 0
  {
    if k == 0 then 0x80 else if k == 1 then 0x40 else if k == 2 then 0x20 else if k == 3 then 0x10
    else if k == 4 then 0x08 else if k == 5 then 0x04 else if k == 6 then 0x02 else 0x01
  }

  predicate HasBit(b: bv8, k: nat)
    requires k < 8
  {
    b & Mask(k) != 0
  }

  function PutBit(b: bv8, k: nat, on: bool): bv8
    requires k < 8
  {
    (b & !Mask(k)) | (if on then Mask(k) else 0)
  }

  lemma PutBitOnly(b: bv8, k: nat, on: bool, j: nat)
    requires k < 8 && j < 8
    ensures HasBit(PutBit(b, k, on), j) == if j == k then on else HasBit(b, j)
  {
    if j != k {
      assert Mask(k) & Mask(j) == 0;
    }
  }

  function OpByte(op: Op, x: bv8, y: bv8): bv8 {
    match op
    case And => x & y
    case Or => x | y
    case Xor => x ^ y
  }

  function OpBool(op: Op, x: bool, y: bool): bool {
    match op
    case And => x && y
    case Or => x || y
    case Xor => x != y
  }

  lemma Distributes(x: bv8, y: bv8, m: bv8)
    ensures (x & y) & m == (x & m) & (y & m)
    ensures (x | y) & m == (x & m) | (y & m)
    ensures (x ^ y) & m == (x & m) ^ (y & m)
  {
  }

  lemma OneBit(k: nat, x: bv8)
    requires k < 8
    ensures x & Mask(k) == 0 || x & Mask(k) == Mask(k)
  {
  }

  lemma OneBitOps(a: bv8, b: bv8, m: bv8)
    requires m != 0 && (a == 0 || a == m) && (b == 0 || b == m)
    ensures (a & b != 0) == (a != 0 && b != 0)
    ensures (a | b != 0) == (a != 0 || b != 0)
    ensures (a ^ b != 0) == ((a != 0) != (b != 0))
  {
  }

  lemma MaskedOps(op: Op, x: bv8, y: bv8, m: bv8)
    requires m != 0 && (x & m == 0 || x & m == m) && (y & m == 0 || y & m == m)
    ensures (OpByte(op, x, y) & m != 0) == OpBool(op, x & m != 0, y & m != 0)
  {
    Distributes(x, y, m);
    OneBitOps(x & m, y & m, m);
  }

  lemma OpBits(op: Op, x: bv8, y: bv8, k: nat)
    requires k < 8
    ensures HasBit(OpByte(op, x, y), k) == OpBool(op, HasBit(x, k), HasBit(y, k))
  {
    OneBit(k, x);
    OneBit(k, y);
    MaskedOps(op, x, y, Mask(k));
  }

  // ---- words

  /** Eight bytes as a little-endian machine word. */
  function Word8(x0: bv8, x1: bv8, x2: bv8, x3: bv8, x4: bv8, x5: bv8, x6: bv8, x7: bv8): bv64 {
    (x0 as bv64) | ((x1 as bv64) << 8) | ((x2 as bv64) << 16) | ((x3 as bv64) << 24) |
    ((x4 as bv64) << 32) | ((x5 as bv64) << 40) | ((x6 as bv64) << 48) | ((x7 as bv64) << 56)
  }

  function Word(b: seq<bv8>): bv64
    requires |b| == 8
  {
    Word8(b[0], b[1], b[2], b[3], b[4], b[5], b[6], b[7])
  }

  function Low(w: bv64): bv8 {
    (w & 0xff) as bv8
  }

  function Unword(w: bv64): (b: seq<bv8>)
    ensures |b| == 8
  {
    [Low(w), Low(w >> 8), Low(w >> 16), Low(w >> 24), Low(w >> 32), Low(w >> 40), Low(w >> 48), Low(w >> 56)]
  }

  lemma WordBytes(x0: bv8, x1: bv8, x2: bv8, x3: bv8, x4: bv8, x5: bv8, x6: bv8, x7: bv8)
    ensures Unword(Word8(x0, x1, x2, x3, x4, x5, x6, x7)) == [x0, x1, x2, x3, x4, x5, x6, x7]
  {
  }

  lemma WordAnd(x0: bv8, x1: bv8, x2: bv8, x3: bv8, x4: bv8, x5: bv8, x6: bv8, x7: bv8,
               y0: bv8, y1: bv8, y2: bv8, y3: bv8, y4: bv8, y5: bv8, y6: bv8, y7: bv8)
    ensures Word8(x0, x1, x2, x3, x4, x5, x6, x7) & Word8(y0, y1, y2, y3, y4, y5, y6, y7)
            == Word8(x0 & y0, x1 & y1, x2 & y2, x3 & y3, x4 & y4, x5 & y5, x6 & y6, x7 & y7)
  {
  }

  lemma WordOr(x0: bv8, x1: bv8, x2: bv8, x3: bv8, x4: bv8, x5: bv8, x6: bv8, x7: bv8,
               y0: bv8, y1: bv8, y2: bv8, y3: bv8, y4: bv8, y5: bv8, y6: bv8, y7: bv8)
    ensures Word8(x0, x1, x2, x3, x4, x5, x6, x7) | Word8(y0, y1, y2, y3, y4, y5, y6, y7)
            == Word8(x0 | y0, x1 | y1, x2 | y2, x3 | y3, x4 | y4, x5 | y5, x6 | y6, x7 | y7)
  {
  }

  lemma WordXor(x0: bv8, x1: bv8, x2: bv8, x3: bv8, x4: bv8, x5: bv8, x6: bv8, x7: bv8,
               y0: bv8, y1: bv8, y2: bv8, y3: bv8, y4: bv8, y5: bv8, y6: bv8, y7: bv8)
    ensures Word8(x0, x1, x2, x3, x4, x5, x6, x7) ^ Word8(y0, y1, y2, y3, y4, y5, y6, y7)
            == Word8(x0 ^ y0, x1 ^ y1, x2 ^ y2, x3 ^ y3, x4 ^ y4, x5 ^ y5, x6 ^ y6, x7 ^ y7)
  {
  }

  function OpBytes(op: Op, x: seq<bv8>, y: seq<bv8>): (r: seq<bv8>)
    requires |x| == |y|
    ensures |r| == |x|
    ensures forall i :: 0 <= i < |r| ==> r[i] == OpByte(op, x[i], y[i])
  {
    seq(|x|, i requires 0 <= i < |x| => OpByte(op, x[i], y[i]))
  }

  lemma UnwordWord(z: seq<bv8>)
    requires |z| == 8
    ensures Unword(Word(z)) == z
  {
    WordBytes(z[0], z[1], z[2], z[3], z[4], z[5], z[6], z[7]);
  }

  lemma Substitute(w: bv64, z: seq<bv8>)
    requires |z| == 8 && w == Word(z)
    ensures Unword(w) == z
  {
    UnwordWord(z);
  }

  lemma AndBytes(x: seq<bv8>, y: seq<bv8>)
    requires |x| == |y| == 8
    ensures Word(x) & Word(y) == Word(OpBytes(And, x, y))
  {
    WordAnd(x[0], x[1], x[2], x[3], x[4], x[5], x[6], x[7], y[0], y[1], y[2], y[3], y[4], y[5], y[6], y[7]);
  }

  lemma OrBytes(x: seq<bv8>, y: seq<bv8>)
    requires |x| == |y| == 8
    ensures Word(x) | Word(y) == Word(OpBytes(Or, x, y))
  {
    WordOr(x[0], x[1], x[2], x[3], x[4], x[5], x[6], x[7], y[0], y[1], y[2], y[3], y[4], y[5], y[6], y[7]);
  }

  lemma XorBytes(x: seq<bv8>, y: seq<bv8>)
    requires |x| == |y| == 8
    ensures Word(x) ^ Word(y) == Word(OpBytes(Xor, x, y))
  {
    WordXor(x[0], x[1], x[2], x[3], x[4], x[5], x[6], x[7], y[0], y[1], y[2], y[3], y[4], y[5], y[6], y[7]);
  }

  function Overwrite(s: seq<bv8>, j: nat, bytes: seq<bv8>): (r: seq<bv8>)
    requires j + |bytes| <= |s|
    ensures |r| == |s|
    ensures forall i :: 0 <= i < |s| ==> r[i] == if j <= i < j + |bytes| then bytes[i - j] else s[i]
  {
    s[..j] + bytes + s[j + |bytes|..]
  }

  method StoreWord(dst: array<bv8>, j: nat, w: bv64)
    requires j + 8 <= dst.Length
    modifies dst
    ensures dst[..] == Overwrite(old(dst[..]), j, Unword(w))
  {
    var bytes := Unword(w);
    for i := 0 to 8
      invariant dst[..] == Overwrite(old(dst[..]), j, bytes[..i])
    {
      dst[j + i] := bytes[i];
    }
    assert bytes[..8] == bytes;
  }

  method AndWord(dst: array<bv8>, src: array<bv8>, j: nat)
    requires j + 8 <= dst.Length && j + 8 <= src.Length
    modifies dst
    ensures dst[..] == Overwrite(old(dst[..]), j, OpBytes(And, old(dst[j..j + 8]), old(src[j..j + 8])))
  {
    ghost var z := OpBytes(And, dst[j..j + 8], src[j..j + 8]);
    AndBytes(dst[j..j + 8], src[j..j + 8]);
    var w := Word(dst[j..j + 8]) & Word(src[j..j + 8]);
    Substitute(w, z);
    StoreWord(dst, j, w);
  }

  method OrWord(dst: array<bv8>, src: array<bv8>, j: nat)
    requires j + 8 <= dst.Length && j + 8 <= src.Length
    modifies dst
    ensures dst[..] == Overwrite(old(dst[..]), j, OpBytes(Or, old(dst[j..j + 8]), old(src[j..j + 8])))
  {
    ghost var z := OpBytes(Or, dst[j..j + 8], src[j..j + 8]);
    OrBytes(dst[j..j + 8], src[j..j + 8]);
    var w := Word(dst[j..j + 8]) | Word(src[j..j + 8]);
    Substitute(w, z);
    StoreWord(dst, j, w);
  }

  method XorWord(dst: array<bv8>, src: array<bv8>, j: nat)
    requires j + 8 <= dst.Length && j + 8 <= src.Length
    modifies dst
    ensures dst[..] == Overwrite(old(dst[..]), j, OpBytes(Xor, old(dst[j..j + 8]), old(src[j..j + 8])))
  {
    ghost var z := OpBytes(Xor, dst[j..j + 8], src[j..j + 8]);
    XorBytes(dst[j..j + 8], src[j..j + 8]);
    var w := Word(dst[j..j + 8]) ^ Word(src[j..j + 8]);
    Substitute(w, z);
    StoreWord(dst, j, w);
  }

  method OneWord(op: Op, dst: array<bv8>, src: array<bv8>, j: nat)
    requires j + 8 <= dst.Length && j + 8 <= src.Length
    modifies dst
    ensures dst[..] == Overwrite(old(dst[..]), j, OpBytes(op, old(dst[j..j + 8]), old(src[j..j + 8])))
  {
    match op
    case And => AndWord(dst, src, j);
    case Or => OrWord(dst, src, j);
    case Xor => XorWord(dst, src, j);
  }

  // ---- the operation on whole buffers

  /** The first j bytes hold results, the rest is as before. */
  predicate Done(op: Op, dst0: seq<bv8>, src0: seq<bv8>, now: seq<bv8>, j: nat) {
    && |now| == |dst0| == |src0| && j <= |now|
    && (forall k :: 0 <= k < |now| ==> now[k] == if k < j then OpByte(op, dst0[k], src0[k]) else dst0[k])
  }

  /** The source buffer, which may be the destination itself. */
  predicate Beside(dst: array<bv8>, src: array<bv8>, dst0: seq<bv8>, src0: seq<bv8>)
    reads src
  {
    if src == dst then src0 == dst0 else src[..] == src0
  }

  method WordStep(op: Op, dst: array<bv8>, src: array<bv8>, j: nat, ghost dst0: seq<bv8>, ghost src0: seq<bv8>)
    requires Done(op, dst0, src0, dst[..], j) && Beside(dst, src, dst0, src0) && j + 8 <= dst.Length == src.Length
    modifies dst
    ensures Done(op, dst0, src0, dst[..], j + 8) && Beside(dst, src, dst0, src0)
  {
    ghost var now := dst[..];
    assert dst[j..j + 8] == dst0[j..j + 8] && src[j..j + 8] == src0[j..j + 8];
    OneWord(op, dst, src, j);
    assert dst[..] == Overwrite(now, j, OpBytes(op, dst0[j..j + 8], src0[j..j + 8]));
  }

  method ByteStep(op: Op, dst: array<bv8>, src: array<bv8>, j: nat, ghost dst0: seq<bv8>, ghost src0: seq<bv8>)
    requires Done(op, dst0, src0, dst[..], j) && Beside(dst, src, dst0, src0) && j < dst.Length == src.Length
    modifies dst
    ensures Done(op, dst0, src0, dst[..], j + 1) && Beside(dst, src, dst0, src0)
  {
    var output := OneByte(op, dst[j], src[j]);
    ghost var now := dst[..];
    dst[j] := output;
    assert dst[..] == now[j := output];
  }

  method OneByte(op: Op, x: bv8, y: bv8) returns (output: bv8)
    ensures output == OpByte(op, x, y)
  {
    output := x;
    match op {
      case And => output := output & y;
      case Or => output := output | y;
      case Xor => output := output ^ y;
    }
  }

  /** Four words at a time, then the bytes that are left. */
  method Combine(op: Op, dst: array<bv8>, src: array<bv8>)
    requires dst.Length == src.Length
    modifies dst
    ensures dst[..] == OpBytes(op, old(dst[..]), old(src[..]))
  {
    ghost var dst0, src0 := dst[..], src[..];
    var n, j := dst.Length, 0;
    while n - j >= 32
      invariant j <= n && Done(op, dst0, src0, dst[..], j) && Beside(dst, src, dst0, src0)
    {
      WordStep(op, dst, src, j, dst0, src0);
      WordStep(op, dst, src, j + 8, dst0, src0);
      WordStep(op, dst, src, j + 16, dst0, src0);
      WordStep(op, dst, src, j + 24, dst0, src0);
      j := j + 32;
    }
    while j < n
      invariant j <= n && Done(op, dst0, src0, dst[..], j) && Beside(dst, src, dst0, src0)
    {
      ByteStep(op, dst, src, j, dst0, src0);
      j := j + 1;
    }
    assert dst[..] == OpBytes(op, dst0, src0);
  }

  // ---- the bitmap

  predicate Bit(bytes: seq<bv8>, i: nat)
    requires i < 8 * |bytes|
  {
    HasBit(bytes[i / 8], i % 8)
  }

  /** Byte-wise results are bit-wise results. */
  lemma OpBitwise(op: Op, x: seq<bv8>, y: seq<bv8>, i: nat)
    requires |x| == |y| && i < 8 * |x|
    ensures Bit(OpBytes(op, x, y), i) == OpBool(op, Bit(x, i), Bit(y, i))
  {
    OpBits(op, x[i / 8], y[i / 8], i % 8);
  }

  /** Writing one byte changes one bit. */
  lemma OneBitChanges(x: seq<bv8>, at: nat, on: bool, i: nat)
    requires at < 8 * |x| && i < 8 * |x|
    ensures Bit(x[at / 8 := PutBit(x[at / 8], at % 8, on)], i) == if i == at then on else Bit(x, i)
  {
    if i / 8 == at / 8 {
      PutBitOnly(x[at / 8], at % 8, on, i % 8);
    }
  }

  lemma OnlyOneBit(x: seq<bv8>, at: nat, on: bool, value: bv8)
    requires at < 8 * |x| && value == PutBit(x[at / 8], at % 8, on)
    ensures forall i :: 0 <= i < 8 * |x| ==> Bit(x[at / 8 := value], i) == if i == at then on else Bit(x, i)
  {
    forall i | 0 <= i < 8 * |x|
      ensures Bit(x[at / 8 := value], i) == if i == at then on else Bit(x, i)
    {
      OneBitChanges(x, at, on, i);
    }
  }

  class BitMap {
    var validBits: nat
    var bits: array?<bv8>

    predicate Valid()
      reads this
    {
      if bits == null then validBits == 0 else bits.Length == validBits / 8 + 1
    }

    ghost function Bytes(): seq<bv8>
      reads this, bits
    {
      if bits == null then [] else bits[..]
    }

    constructor (n: nat)
      ensures Valid() && bits != null && fresh(bits) && validBits == n
      ensures forall i :: 0 <= i < 8 * |Bytes()| ==> !Bit(Bytes(), i)
    {
      validBits := n;
      bits := new bv8[n / 8 + 1](_ => 0);
    }

    constructor Empty()
      ensures Valid() && bits == null
    {
      validBits, bits := 0, null;
    }

    /** Sets or clears exactly one bit, and only inside the buffer. */
    method SetBit(offset: nat, on: int) returns (ok: bool)
      requires Valid() && bits != null
      modifies bits
      ensures ok <==> (on == 0 || on == 1) && offset <= validBits
      ensures offset <= validBits ==> offset < 8 * |Bytes()|
      ensures forall i :: 0 <= i < 8 * |Bytes()| ==>
                Bit(Bytes(), i) == if ok && i == offset then on == 1 else Bit(old(Bytes()), i)
    {
      if !(on == 0 || on == 1) || offset > validBits {
        return false;
      }
      var byte, k := offset / 8, offset % 8;
      ghost var was := bits[..];
      if HasBit(bits[byte], k) != (on == 1) {
        var value := PutBit(bits[byte], k, on == 1);
        bits[byte] := value;
        assert bits[..] == was[byte := value];
        OnlyOneBit(was, offset, on == 1, value);
      }
      return true;
    }

    method GetBit(offset: nat) returns (ok: bool, result: int)
      requires Valid() && bits != null
      ensures ok <==> offset <= validBits
      ensures offset <= validBits ==> offset < 8 * |Bytes()| && result == if Bit(Bytes(), offset) then 1 else 0
    {
      if offset > validBits {
        return false, 0;
      }
      return true, if HasBit(bits[offset / 8], offset % 8) then 1 else 0;
    }

    ghost function Buffer(): set<object>
      reads this
    {
      if bits == null then {} else {bits}
    }

    /** Bit by bit, whatever the split into words and bytes, also when the other bitmap is this one. */
    method BitOps(op: Op, other: BitMap?) returns (ok: bool)
      requires Valid() && (other != null ==> other.Valid())
      modifies Buffer()
      ensures ok <==> other != null && validBits == other.validBits
      ensures |Bytes()| == |old(Bytes())|
      ensures forall i :: 0 <= i < 8 * |Bytes()| ==>
                Bit(Bytes(), i) == if ok && i < 8 * |old(other.Bytes())|
                                   then OpBool(op, Bit(old(Bytes()), i), Bit(old(other.Bytes()), i))
                                   else Bit(old(Bytes()), i)
    {
      if other == null || validBits != other.validBits {
        return false;
      }
      if bits != null && other.bits != null {
        ghost var x, y := bits[..], other.bits[..];
        Combine(op, bits, other.bits);
        forall i | 0 <= i < 8 * |x|
          ensures Bit(bits[..], i) == OpBool(op, Bit(x, i), Bit(y, i))
        {
          OpBitwise(op, x, y, i);
        }
      }
      return true;
    }

    method CopyTo(dest: BitMap) returns (ok: bool)
      requires Valid() && bits != null && dest.Valid()
      modifies dest
      ensures ok <==> old(dest.bits) == null
      ensures dest.Valid()
      ensures if ok then dest.validBits == validBits && dest.Bytes() == Bytes() && fresh(dest.bits)
              else unchanged(dest)
    {
      if dest.bits != null {
        return false;
      }
      var copy := new bv8[bits.Length](_ => 0);
      for i := 0 to bits.Length
        invariant copy[..i] == bits[..i]
      {
        copy[i] := bits[i];
      }
      assert copy[..] == bits[..];
      dest.validBits, dest.bits := validBits, copy;
      return true;
    }
  }

  /** The entries up to the last valid one whose bits are set. */
  predicate Marked(bytes: seq<bv8>, validBits: nat, i: nat)
    requires validBits < 8 * |bytes|
  {
    i <= validBits && Bit(bytes, i)
  }

  method SetAll(bm: BitMap, indexes: seq<nat>, on: bool)
    requires bm.Valid() && bm.bits != null
    modifies bm.bits
    ensures |bm.Bytes()| == |old(bm.Bytes())|
    ensures forall i :: 0 <= i <= bm.validBits ==>
              Marked(bm.Bytes(), bm.validBits, i) ==
                if i in indexes then on else Marked(old(bm.Bytes()), bm.validBits, i)
  {
    for n := 0 to |indexes|
      invariant |bm.Bytes()| == |old(bm.Bytes())|
      invariant forall i :: 0 <= i <= bm.validBits ==>
          Marked(bm.Bytes(), bm.validBits, i) ==
            if i in indexes[..n] then on else Marked(old(bm.Bytes()), bm.validBits, i)
    {
      ghost var was := bm.Bytes();
      var ok := bm.SetBit(indexes[n], if on then 1 else 0);
      assert indexes[..n + 1] == indexes[..n] + [indexes[n]];
      forall i | 0 <= i <= bm.validBits
        ensures Marked(bm.Bytes(), bm.validBits, i) == if i == indexes[n] then on else Marked(was, bm.validBits, i)
      {
        assert Bit(bm.Bytes(), i) == if ok && i == indexes[n] then on else Bit(was, i);
      }
    }
    assert indexes[..|indexes|] == indexes;
  }

  /**
   The bitmap part of OnCompactionCompleted for one blob file: entries that the inputs referred to
   and the outputs do not become invalid, and what was invalid stays so.
   */
  method RecordCompaction(file: BitMap, inputs: seq<nat>, outputs: seq<nat>)
    requires file.Valid() && file.bits != null
    modifies file.bits
    ensures |file.Bytes()| == |old(file.Bytes())|
    ensures forall i :: 0 <= i <= file.validBits ==>
              (Marked(file.Bytes(), file.validBits, i) <==>
                 Marked(old(file.Bytes()), file.validBits, i) || (i in inputs && i !in outputs))
  {
    var bm := new BitMap(file.validBits);
    SetAll(bm, inputs, true);
    SetAll(bm, outputs, false);
    ghost var x, y := file.Bytes(), bm.Bytes();
    var ok := file.BitOps(Or, bm);
    forall i | 0 <= i <= file.validBits
      ensures Marked(file.Bytes(), file.validBits, i) == (Marked(x, file.validBits, i) || Marked(y, file.validBits, i))
    {
      assert Bit(file.Bytes(), i) == OpBool(Or, Bit(x, i), Bit(y, i));
    }
  }
}
