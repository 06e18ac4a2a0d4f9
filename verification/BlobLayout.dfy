/** Where the records of a blob file stand, for any encoding of a single record. */
module BlobLayout {
  import opened Types
  import opened Coding
  import opened Codec

  const FILE_HEADER: nat := 12
  const RECORD_HEADER: nat := 9
  const TRAILER: nat := 5

  /**
   The pieces a file is made of: its header, a record encoded and then stored with a dictionary,
   the trained dictionary, and the blocks and footer that end the file.
   */
  datatype Format = Format(
    head: Bytes,
    encode: Rec -> Bytes,
    store: (Bytes, Bytes) -> Bytes,
    train: seq<Bytes> -> Bytes,
    trailer: Bytes -> Bytes,
    metaIndex: BlockHandle -> Bytes,
    footer: BlockHandle -> Bytes)

  function Stored(fmt: Format, dict: Bytes, rec: Rec): Bytes {
    fmt.store(dict, fmt.encode(rec))
  }

  function Body(fmt: Format, dict: Bytes, recs: seq<Rec>): Bytes {
    if recs == [] then [] else Body(fmt, dict, recs[..|recs| - 1]) + Stored(fmt, dict, recs[|recs| - 1])
  }

  /** Where record i starts; for i = |recs|, where the records end. */
  function OffsetOf(fmt: Format, dict: Bytes, recs: seq<Rec>, i: nat): nat
    requires i <= |recs|
  {
    |fmt.head| + |Body(fmt, dict, recs[..i])|
  }

  function HandleOf(fmt: Format, dict: Bytes, recs: seq<Rec>, i: nat): Handle
    requires i < |recs|
  {
    Handle(OffsetOf(fmt, dict, recs, i), |Stored(fmt, dict, recs[i])|, i)
  }

  /** Header and records. */
  function Records(fmt: Format, dict: Bytes, recs: seq<Rec>): Bytes {
    fmt.head + Body(fmt, dict, recs)
  }

  function RawBlock(fmt: Format, block: Bytes): Bytes {
    block + fmt.trailer(block)
  }

  /** The dictionary block and the meta index block, written at `at`, and the handle of the latter. */
  function MetaBlocks(fmt: Format, dict: Bytes, at: nat): (Bytes, BlockHandle) {
    var index := fmt.metaIndex(BlockHandle(at, |dict|));
    var dictBlock := RawBlock(fmt, dict);
    (dictBlock + RawBlock(fmt, index), BlockHandle(at + |dictBlock|, |index|))
  }

  /** The meta blocks that follow the records, and the handle the footer holds. */
  function Tail(fmt: Format, useDict: bool, dict: Bytes, at: nat): (Bytes, BlockHandle) {
    if useDict then MetaBlocks(fmt, dict, at) else ([], BlockHandle(0, 0))
  }

  /** Everything after the records, which end at `at`. */
  function FileEnd(fmt: Format, useDict: bool, dict: Bytes, at: nat): Bytes {
    var (blocks, handle) := Tail(fmt, useDict, dict, at);
    blocks + fmt.footer(handle)
  }

  /** What a finished file was built from. */
  datatype Image = Image(useDict: bool, dict: Bytes, recs: seq<Rec>)

  function FileBytes(fmt: Format, img: Image): Bytes {
    var records := Records(fmt, img.dict, img.recs);
    records + FileEnd(fmt, img.useDict, img.dict, |records|)
  }

  // ---- slices

  lemma SliceBefore(a: Bytes, b: Bytes, from: nat, to: nat)
    requires from <= to <= |a|
    ensures (a + b)[from..to] == a[from..to]
  {
  }

  lemma SliceAfter(a: Bytes, b: Bytes, from: nat, to: nat)
    requires |a| <= from <= to <= |a| + |b|
    ensures (a + b)[from..to] == b[from - |a|..to - |a|]
  {
  }

  lemma SliceLast(a: Bytes, b: Bytes)
    ensures (a + b)[|a|..|a| + |b|] == b
  {
  }

  lemma SliceOfPrefix(s: Bytes, n: nat, from: nat, to: nat)
    requires from <= to <= n <= |s|
    ensures s[from..to] == s[..n][from..to]
  {
  }

  // ---- records in place

  lemma BodySplit(fmt: Format, dict: Bytes, recs: seq<Rec>, i: nat)
    requires i < |recs|
    ensures Body(fmt, dict, recs[..i + 1]) == Body(fmt, dict, recs[..i]) + Stored(fmt, dict, recs[i])
  {
    assert recs[..i + 1][..i] == recs[..i];
  }

  lemma BodyMore(fmt: Format, dict: Bytes, recs: seq<Rec>, rec: Rec)
    ensures Body(fmt, dict, recs + [rec]) == Body(fmt, dict, recs) + Stored(fmt, dict, rec)
  {
    assert (recs + [rec])[..|recs|] == recs;
  }

  /** Record i stands whole at its offset, whatever comes after it. */
  lemma {:induction false} RecordIn(fmt: Format, dict: Bytes, recs: seq<Rec>, n: nat, i: nat)
    requires i < n <= |recs|
    ensures var b, at := Body(fmt, dict, recs[..n]), |Body(fmt, dict, recs[..i])|;
            && at + |Stored(fmt, dict, recs[i])| <= |b|
            && b[at..at + |Stored(fmt, dict, recs[i])|] == Stored(fmt, dict, recs[i])
    decreases n
  {
    BodySplit(fmt, dict, recs, n - 1);
    if i < n - 1 {
      RecordIn(fmt, dict, recs, n - 1, i);
      var at := |Body(fmt, dict, recs[..i])|;
      SliceBefore(Body(fmt, dict, recs[..n - 1]), Stored(fmt, dict, recs[n - 1]), at, at + |Stored(fmt, dict, recs[i])|);
    } else {
      SliceLast(Body(fmt, dict, recs[..i]), Stored(fmt, dict, recs[i]));
    }
  }

  lemma {:induction false} OffsetsRise(fmt: Format, dict: Bytes, recs: seq<Rec>, i: nat, j: nat)
    requires i <= j <= |recs|
    ensures OffsetOf(fmt, dict, recs, i) <= OffsetOf(fmt, dict, recs, j)
    ensures i < j ==> OffsetOf(fmt, dict, recs, i) + |Stored(fmt, dict, recs[i])| <= OffsetOf(fmt, dict, recs, j)
    decreases j - i
  {
    if i < j {
      BodySplit(fmt, dict, recs, i);
      OffsetsRise(fmt, dict, recs, i + 1, j);
    }
  }

  /** A file that starts with these records, finished or not. */
  predicate StartsWith(fmt: Format, dict: Bytes, recs: seq<Rec>, file: Bytes) {
    var start := Records(fmt, dict, recs);
    |start| <= |file| && file[..|start|] == start
  }

  lemma FileStarts(fmt: Format, img: Image)
    ensures StartsWith(fmt, img.dict, img.recs, FileBytes(fmt, img))
  {
  }

  lemma StoredAt(fmt: Format, dict: Bytes, recs: seq<Rec>, file: Bytes, i: nat)
    requires StartsWith(fmt, dict, recs, file) && i < |recs|
    ensures var h := HandleOf(fmt, dict, recs, i);
            && h.offset + h.size <= OffsetOf(fmt, dict, recs, |recs|) <= |file|
            && file[h.offset..h.offset + h.size] == Stored(fmt, dict, recs[i])
  {
    var h := HandleOf(fmt, dict, recs, i);
    assert recs[..|recs|] == recs;
    RecordIn(fmt, dict, recs, |recs|, i);
    SliceAfter(fmt.head, Body(fmt, dict, recs), h.offset, h.offset + h.size);
    SliceOfPrefix(file, OffsetOf(fmt, dict, recs, |recs|), h.offset, h.offset + h.size);
  }

  // ---- reading

  datatype RecordHeader = RecordHeader(crc: nat, size: nat, compression: Byte)

  /** Whether a footer passed all checks, and the handle that reading it left behind. */
  datatype FooterRead = FooterRead(ok: bool, handle: BlockHandle)

  /** The decoders of the same pieces. */
  datatype Reader = Reader(
    header: Bytes -> Parsed<Header>,
    footer: Bytes -> FooterRead,
    recordHeader: Bytes -> Parsed<RecordHeader>,
    payload: (Bytes, RecordHeader, Bytes) -> Option<Rec>,
    findDict: Bytes -> Option<BlockHandle>)

  /** Record lengths and compressed sizes are 32-bit. */
  predicate RecFits(fmt: Format, rec: Rec) {
    |rec.key| < TWO_32 && |rec.value| < TWO_32 && |fmt.encode(rec)| < TWO_32 - 1
  }

  /** Header and payload of a stored record give the record back. */
  ghost predicate RecordInverts(fmt: Format, reader: Reader, dict: Bytes, rec: Rec) {
    var stored := Stored(fmt, dict, rec);
    && |stored| >= RECORD_HEADER
    && var header := reader.recordHeader(stored[..RECORD_HEADER]);
       && header.Got?
       && header.value.size == |stored| - RECORD_HEADER
       && reader.payload(dict, header.value, stored[RECORD_HEADER..]) == Some(rec)
  }

  ghost predicate BlockInverts(fmt: Format, reader: Reader, h: BlockHandle) {
    && |fmt.metaIndex(h)| > 0 && reader.findDict(fmt.metaIndex(h)) == Some(h)
    && (h.offset < TWO_64 && h.size < TWO_64 ==>
          |fmt.footer(h)| == FOOTER_SIZE && reader.footer(fmt.footer(h)) == FooterRead(true, h))
  }

  /** The decoders undo the format piece by piece. */
  ghost predicate Inverts(fmt: Format, reader: Reader, useDict: bool) {
    && |fmt.head| == FILE_HEADER
    && reader.header(fmt.head) == Got(Header(2, if useDict then 1 else 0), [])
    && (forall h :: BlockInverts(fmt, reader, h))
    && (forall b :: |fmt.trailer(b)| == TRAILER)
    && (forall dict, rec :: RecFits(fmt, rec) ==> RecordInverts(fmt, reader, dict, rec))
  }
}
