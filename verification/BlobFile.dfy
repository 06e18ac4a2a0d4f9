/** The layout of a finished blob file. */
module BlobFile {
  import opened Types
  import opened Coding
  import opened Codec
  import opened BlobLayout

  /**
   What the format leaves to libraries: compression with a dictionary, dictionary training,
   checksums, block trailers and the meta index block that locates the dictionary.
   */
  datatype Lib = Lib(
    compress: (Bytes, Bytes) -> (Byte, Bytes),
    uncompress: (Bytes, Byte, Bytes) -> Option<Bytes>,
    train: seq<Bytes> -> Bytes,
    crc: Bytes -> nat,
    trailer: Bytes -> Bytes,
    metaIndex: BlockHandle -> Bytes,
    findDict: Bytes -> Option<BlockHandle>)

  ghost predicate CompressLaw(lib: Lib, dict: Bytes, r: Bytes) {
    var (t, data) := lib.compress(dict, r);
    |data| <= |r| && (if t == 0 then data == r else lib.uncompress(dict, t, data) == Some(r))
  }

  ghost predicate Lawful(lib: Lib) {
    && (forall dict, r :: CompressLaw(lib, dict, r))
    && (forall b :: lib.crc(b) < TWO_32)
    && (forall b :: |lib.trailer(b)| == TRAILER)
    && (forall h :: |lib.metaIndex(h)| > 0 && lib.findDict(lib.metaIndex(h)) == Some(h))
  }

  // ---- one record

  function RecordBytes(rec: Rec): Bytes {
    Prefixed(rec.key) + Prefixed(rec.value)
  }

  function DecodeRecord(src: Bytes): Option<Rec> {
    match GetPrefixed(src)
    case Fail => None
    case Got(key, rest) =>
      match GetPrefixed(rest)
      case Fail => None
      case Got(value, rest2) => if rest2 == [] then Some(Rec(key, value)) else None
  }

  predicate Fits(rec: Rec) {
    |rec.key| < TWO_32 && |rec.value| < TWO_32 && |RecordBytes(rec)| < TWO_32 - 1
  }

  lemma RecordBack(rec: Rec)
    requires Fits(rec)
    ensures DecodeRecord(RecordBytes(rec)) == Some(rec)
  {
    PrefixedBack(rec.key, Prefixed(rec.value));
    PrefixedBack(rec.value, []);
    assert Prefixed(rec.value) + [] == Prefixed(rec.value);
  }

  /** Size and compression type, the part of the header that the checksum covers. */
  function SizeAndType(size: nat, t: Byte): (r: Bytes)
    ensures |r| == 5
  {
    Fixed(size, 4) + [t]
  }

  /** Header and payload of a record that is already encoded. */
  function StoredBytes(lib: Lib, dict: Bytes, encoded: Bytes): (r: Bytes)
    ensures |r| == RECORD_HEADER + |lib.compress(dict, encoded).1|
  {
    var (t, data) := lib.compress(dict, encoded);
    var covered := SizeAndType(|data|, t);
    Fixed(lib.crc(covered + data), 4) + covered + data
  }

  function DecodeRecordHeader(src: Bytes): Parsed<RecordHeader> {
    match GetFixed(src, 4)
    case Fail => Fail
    case Got(crc, rest) =>
      match GetFixed(rest, 4)
      case Fail => Fail
      case Got(size, rest2) => if rest2 == [] then Fail else Got(RecordHeader(crc, size, rest2[0]), rest2[1..])
  }

  /** The payload of a record, checked against its header. */
  function DecodePayload(lib: Lib, dict: Bytes, h: RecordHeader, payload: Bytes): Option<Rec> {
    if |payload| != h.size || lib.crc(SizeAndType(h.size, h.compression) + payload) != h.crc then None
    else if h.compression == 0 then DecodeRecord(payload)
    else
      match lib.uncompress(dict, h.compression, payload)
      case None => None
      case Some(encoded) => DecodeRecord(encoded)
  }

  lemma HeaderLayout(a: Bytes, b: Bytes, t: Byte, data: Bytes)
    ensures a + (b + [t]) + data == a + (b + ([t] + data))
    ensures ([t] + data)[0] == t && ([t] + data)[1..] == data
  {
  }

  /** The header of a stored record tells its size, and the payload after it decodes to the record. */
  lemma StoredBack(lib: Lib, dict: Bytes, rec: Rec)
    requires Lawful(lib) && Fits(rec)
    ensures var stored := StoredBytes(lib, dict, RecordBytes(rec));
            var header := DecodeRecordHeader(stored);
            && header.Got?
            && header.value.size == |stored| - RECORD_HEADER
            && header.rest == stored[RECORD_HEADER..]
            && DecodePayload(lib, dict, header.value, header.rest) == Some(rec)
  {
    var encoded := RecordBytes(rec);
    var (t, data) := lib.compress(dict, encoded);
    assert CompressLaw(lib, dict, encoded);
    var sum := lib.crc(SizeAndType(|data|, t) + data);
    FixedPowers();
    HeaderLayout(Fixed(sum, 4), Fixed(|data|, 4), t, data);
    FixedReads(sum, 4, Fixed(|data|, 4) + ([t] + data));
    FixedReads(|data|, 4, [t] + data);
    RecordBack(rec);
  }

  /** A stored record whose covered bytes change so that their checksum does is refused. */
  lemma DamageIsSeen(lib: Lib, dict: Bytes, encoded: Bytes, body: Bytes)
    requires Lawful(lib)
    requires var stored := StoredBytes(lib, dict, encoded); lib.crc(body) != lib.crc(stored[4..])
    ensures var damaged := StoredBytes(lib, dict, encoded)[..4] + body;
            var header := DecodeRecordHeader(damaged);
            header.Got? ==> DecodePayload(lib, dict, header.value, header.rest) == None
  {
    var (t, data) := lib.compress(dict, encoded);
    var covered := SizeAndType(|data|, t) + data;
    var stored := StoredBytes(lib, dict, encoded);
    assert stored == Fixed(lib.crc(covered), 4) + covered;
    assert stored[4..] == covered && stored[..4] == Fixed(lib.crc(covered), 4);
    FixedPowers();
    FixedReads(lib.crc(covered), 4, body);
    var header := DecodeRecordHeader(stored[..4] + body);
    if header.Got? && |header.rest| == header.value.size {
      FixedOf(body[..4]);
      assert body == Fixed(header.value.size, 4) + [header.value.compression] + header.rest;
    }
  }

  /** Only the nine header bytes are needed to know the size. */
  lemma HeaderAlone(src: Bytes, rest: Bytes)
    requires |src| == RECORD_HEADER
    ensures DecodeRecordHeader(src).Got? && DecodeRecordHeader(src + rest).Got?
    ensures DecodeRecordHeader(src).value == DecodeRecordHeader(src + rest).value
  {
    assert (src + rest)[..4] == src[..4];
    assert (src + rest)[4..][..4] == src[4..][..4];
    assert (src + rest)[4..][4..][0] == src[4..][4..][0];
  }

  // ---- a whole file

  function Footer(lib: Lib, h: BlockHandle): Bytes {
    EncodeFooter(BlockHandle(h.offset % TWO_64, h.size % TWO_64), lib.crc)
  }

  function FormatOf(lib: Lib, useDict: bool): Format {
    Format(EncodeHeader(Header(2, if useDict then 1 else 0)), RecordBytes,
           (dict, encoded) => StoredBytes(lib, dict, encoded), lib.train, lib.trailer, lib.metaIndex,
           handle => Footer(lib, handle))
  }

  function ReadFooter(lib: Lib, src: Bytes): FooterRead {
    FooterRead(|src| >= FOOTER_SIZE && DecodeFooter(src, lib.crc).Got?, LeftHandle(src))
  }

  function ReaderOf(lib: Lib): Reader {
    Reader(DecodeHeader, src => ReadFooter(lib, src), DecodeRecordHeader,
           (dict, h, payload) => DecodePayload(lib, dict, h, payload), lib.findDict)
  }

  lemma RecordsInvert(lib: Lib, useDict: bool, dict: Bytes, rec: Rec)
    requires Lawful(lib) && Fits(rec)
    ensures RecordInverts(FormatOf(lib, useDict), ReaderOf(lib), dict, rec)
  {
    var stored := StoredBytes(lib, dict, RecordBytes(rec));
    StoredBack(lib, dict, rec);
    HeaderAlone(stored[..RECORD_HEADER], stored[RECORD_HEADER..]);
    assert stored[..RECORD_HEADER] + stored[RECORD_HEADER..] == stored;
  }

  lemma FootersInvert(lib: Lib, h: BlockHandle)
    requires Lawful(lib) && h.offset < TWO_64 && h.size < TWO_64
    ensures |Footer(lib, h)| == FOOTER_SIZE && ReadFooter(lib, Footer(lib, h)) == FooterRead(true, h)
  {
    assert BlockHandle(h.offset % TWO_64, h.size % TWO_64) == h;
    FooterBack(h, lib.crc);
    LeftIsDecoded(Footer(lib, h), lib.crc);
  }

  lemma HeadersInvert(useDict: bool)
    ensures var head := EncodeHeader(Header(2, if useDict then 1 else 0));
            |head| == FILE_HEADER && DecodeHeader(head) == Got(Header(2, if useDict then 1 else 0), [])
  {
    var head := EncodeHeader(Header(2, if useDict then 1 else 0));
    HeaderBack(Header(2, if useDict then 1 else 0), []);
    assert head + [] == head;
  }

  /** The blob file format is read back by its decoders. */
  lemma LibInverts(lib: Lib, useDict: bool)
    requires Lawful(lib)
    ensures Inverts(FormatOf(lib, useDict), ReaderOf(lib), useDict)
  {
    var fmt, reader := FormatOf(lib, useDict), ReaderOf(lib);
    HeadersInvert(useDict);
    forall h
      ensures BlockInverts(fmt, reader, h)
    {
      if h.offset < TWO_64 && h.size < TWO_64 {
        FootersInvert(lib, h);
      }
    }
    forall dict, rec | RecFits(fmt, rec)
      ensures RecordInverts(fmt, reader, dict, rec)
    {
      RecordsInvert(lib, useDict, dict, rec);
    }
  }
}
