/** Reading a blob file from front to back. */
module BlobFileIterating {
  import opened Types
  import opened Coding
  import opened Codec
  import opened BlobLayout

  /** A read stops at the end of the file. */
  function ReadAt(file: Bytes, offset: nat, n: nat): Bytes {
    if offset >= |file| then []
    else if offset + n <= |file| then file[offset..offset + n]
    else file[offset..]
  }

  /** `clean` is the status that opening leaves; a footer that fails its checks does not stop it. */
  datatype Opening = Opening(headerSize: nat, end: nat, dict: Bytes, clean: bool)

  /** An unsigned 64-bit difference. */
  function Wrapped(x: int): nat {
    if 0 <= x < TWO_64 then x else x % TWO_64
  }

  function FooterOf(reader: Reader, file: Bytes): FooterRead {
    reader.footer(ReadAt(file, Wrapped(|file| - FOOTER_SIZE), FOOTER_SIZE))
  }

  /** Header and footer of a file: where its records start and end, and its dictionary. */
  function OpenFile(reader: Reader, file: Bytes): Option<Opening> {
    var header := reader.header(ReadAt(file, 0, FILE_HEADER));
    if header.Fail? then None
    else
      var headerSize := if header.value.version == 1 then 8 else FILE_HEADER;
      var footer := FooterOf(reader, file);
      var handle := footer.handle;
      var end := |file| - FOOTER_SIZE - if handle == BlockHandle(0, 0) then 0 else handle.size + TRAILER;
      if header.value.flags != 1 then Some(Opening(headerSize, Wrapped(end), [], footer.ok))
      else
        match reader.findDict(ReadAt(file, handle.offset, handle.size))
        case None => None
        case Some(d) =>
          var dict := ReadAt(file, d.offset, d.size);
          Some(Opening(headerSize, Wrapped(end - |dict| - TRAILER), dict, true))
  }

  /** The record at an offset, and the bytes it takes. */
  function GetRecord(reader: Reader, dict: Bytes, file: Bytes, offset: nat): Option<(Rec, nat)> {
    var header := reader.recordHeader(ReadAt(file, offset, RECORD_HEADER));
    if header.Fail? then None
    else
      match reader.payload(dict, header.value, ReadAt(file, offset + RECORD_HEADER, header.value.size))
      case None => None
      case Some(rec) => Some((rec, RECORD_HEADER + header.value.size))
  }

  /** The length of the record at an offset, from its header alone. */
  function RecordLength(reader: Reader, file: Bytes, offset: nat): Option<nat> {
    var header := reader.recordHeader(ReadAt(file, offset, RECORD_HEADER));
    if header.Fail? then None else Some(RECORD_HEADER + header.value.size)
  }

  /** The file is what a builder made of these records. */
  predicate IsImage(fmt: Format, img: Image, file: Bytes) {
    && file == FileBytes(fmt, img)
    && |file| < TWO_64
    && (forall i :: 0 <= i < |img.recs| ==> RecFits(fmt, img.recs[i]))
    && (!img.useDict ==> img.dict == [])
  }

  function Offset(fmt: Format, img: Image, i: nat): nat
    requires i <= |img.recs|
  {
    OffsetOf(fmt, img.dict, img.recs, i)
  }

  function Place(fmt: Format, img: Image, i: nat): Handle
    requires i < |img.recs|
  {
    HandleOf(fmt, img.dict, img.recs, i)
  }

  // ---- reading what was built

  lemma SliceMiddle(a: Bytes, b: Bytes, c: Bytes)
    ensures ReadAt(a + b + c, |a|, |b|) == b
  {
    if |c| > 0 || |b| > 0 {
      assert (a + b + c)[|a|..|a| + |b|] == b;
    }
  }

  /** A dictionary file from its parts: the dictionary and the meta index are where the handles say. */
  lemma FindBlocks(records: Bytes, dict: Bytes, t1: Bytes, index: Bytes, t2: Bytes, footer: Bytes)
    ensures var file := records + (dict + t1 + (index + t2) + footer);
            && ReadAt(file, |records|, |dict|) == dict
            && ReadAt(file, |records| + |dict + t1|, |index|) == index
            && |file| == |records| + |dict| + |t1| + |index| + |t2| + |footer|
            && file[|file| - |footer|..] == footer
  {
    var file := records + (dict + t1 + (index + t2) + footer);
    assert file == records + dict + (t1 + index + t2 + footer);
    SliceMiddle(records, dict, t1 + index + t2 + footer);
    assert file == (records + (dict + t1)) + index + (t2 + footer);
    SliceMiddle(records + (dict + t1), index, t2 + footer);
  }

  lemma HeadRead(fmt: Format, img: Image, file: Bytes)
    requires IsImage(fmt, img, file) && |fmt.head| == FILE_HEADER
    ensures ReadAt(file, 0, FILE_HEADER) == fmt.head
    ensures Offset(fmt, img, |img.recs|) == |Records(fmt, img.dict, img.recs)|
  {
    var records := Records(fmt, img.dict, img.recs);
    assert img.recs[..|img.recs|] == img.recs;
    assert file[..|records|] == records;
    assert records[..FILE_HEADER] == fmt.head;
    SliceOfPrefix(file, |records|, 0, FILE_HEADER);
  }

  lemma FooterFound(reader: Reader, rest: Bytes, footer: Bytes, file: Bytes)
    requires file == rest + footer && |footer| == FOOTER_SIZE && |file| < TWO_64
    ensures FooterOf(reader, file) == reader.footer(footer)
  {
    assert file[|rest|..|rest| + FOOTER_SIZE] == footer;
  }

  lemma OpenPlain(fmt: Format, reader: Reader, img: Image, file: Bytes)
    requires Inverts(fmt, reader, false) && IsImage(fmt, img, file) && !img.useDict
    ensures OpenFile(reader, file) == Some(Opening(FILE_HEADER, Offset(fmt, img, |img.recs|), img.dict, true))
    ensures FooterOf(reader, file).ok
  {
    HeadRead(fmt, img, file);
    var records := Records(fmt, img.dict, img.recs);
    assert BlockInverts(fmt, reader, BlockHandle(0, 0));
    var footer := fmt.footer(BlockHandle(0, 0));
    assert FileEnd(fmt, false, img.dict, |records|) == footer;
    FooterFound(reader, records, footer, file);
  }

  lemma OpenDict(fmt: Format, reader: Reader, img: Image, file: Bytes)
    requires Inverts(fmt, reader, true) && IsImage(fmt, img, file) && img.useDict
    ensures OpenFile(reader, file) == Some(Opening(FILE_HEADER, Offset(fmt, img, |img.recs|), img.dict, true))
    ensures FooterOf(reader, file).ok
  {
    HeadRead(fmt, img, file);
    var records := Records(fmt, img.dict, img.recs);
    var d := BlockHandle(|records|, |img.dict|);
    var index := fmt.metaIndex(d);
    var h := BlockHandle(|records| + |img.dict + fmt.trailer(img.dict)|, |index|);
    FindBlocks(records, img.dict, fmt.trailer(img.dict), index, fmt.trailer(index), fmt.footer(h));
    assert BlockInverts(fmt, reader, d) && BlockInverts(fmt, reader, h);
    var blocks := img.dict + fmt.trailer(img.dict) + (index + fmt.trailer(index));
    Regroup(records, blocks, fmt.footer(h));
    FooterFound(reader, records + blocks, fmt.footer(h), file);
  }

  /** Opening a finished file finds exactly its record area and its dictionary. */
  lemma OpenImage(fmt: Format, reader: Reader, img: Image, file: Bytes)
    requires Inverts(fmt, reader, img.useDict) && IsImage(fmt, img, file)
    ensures OpenFile(reader, file) == Some(Opening(FILE_HEADER, Offset(fmt, img, |img.recs|), img.dict, true))
    ensures FooterOf(reader, file).ok
  {
    if img.useDict {
      OpenDict(fmt, reader, img, file);
    } else {
      OpenPlain(fmt, reader, img, file);
    }
  }

  /** At the offset of record i stands record i. */
  lemma RecordAt(fmt: Format, reader: Reader, img: Image, file: Bytes, i: nat)
    requires Inverts(fmt, reader, img.useDict) && IsImage(fmt, img, file) && i < |img.recs|
    ensures var size := Place(fmt, img, i).size;
            && GetRecord(reader, img.dict, file, Offset(fmt, img, i)) == Some((img.recs[i], size))
            && RecordLength(reader, file, Offset(fmt, img, i)) == Some(size)
            && size >= RECORD_HEADER
            && Offset(fmt, img, i + 1) == Offset(fmt, img, i) + size
    ensures Offset(fmt, img, i + 1) <= Offset(fmt, img, |img.recs|)
  {
    var stored, at := Stored(fmt, img.dict, img.recs[i]), Offset(fmt, img, i);
    FileStarts(fmt, img);
    StoredAt(fmt, img.dict, img.recs, file, i);
    BodySplit(fmt, img.dict, img.recs, i);
    OffsetsRise(fmt, img.dict, img.recs, i + 1, |img.recs|);
    assert RecordInverts(fmt, reader, img.dict, img.recs[i]);
    HeaderAndPayload(file, at, stored);
  }

  lemma HeaderAndPayload(file: Bytes, at: nat, stored: Bytes)
    requires at + |stored| <= |file| && file[at..at + |stored|] == stored && |stored| >= RECORD_HEADER
    ensures ReadAt(file, at, RECORD_HEADER) == stored[..RECORD_HEADER]
    ensures ReadAt(file, at + RECORD_HEADER, |stored| - RECORD_HEADER) == stored[RECORD_HEADER..]
  {
    assert file[at..at + RECORD_HEADER] == stored[..RECORD_HEADER];
    assert file[at + RECORD_HEADER..at + |stored|] == stored[RECORD_HEADER..];
  }

  /** Record i is found at its offset, whole or by its header. */
  predicate ReadsRecord(fmt: Format, reader: Reader, img: Image, file: Bytes, i: nat)
    requires i < |img.recs|
  {
    var at, size := Offset(fmt, img, i), Place(fmt, img, i).size;
    && GetRecord(reader, img.dict, file, at) == Some((img.recs[i], size))
    && RecordLength(reader, file, at) == Some(size)
    && 0 < size && Offset(fmt, img, i + 1) == at + size <= Offset(fmt, img, |img.recs|)
  }

  /** The reader makes of the file what was built into it. */
  predicate Readable(fmt: Format, reader: Reader, img: Image, file: Bytes) {
    && OpenFile(reader, file) == Some(Opening(FILE_HEADER, Offset(fmt, img, |img.recs|), img.dict, true))
    && FooterOf(reader, file).ok
    && Offset(fmt, img, 0) == FILE_HEADER
    && (forall i :: 0 <= i < |img.recs| ==> ReadsRecord(fmt, reader, img, file, i))
  }

  lemma ImageReadable(fmt: Format, reader: Reader, img: Image, file: Bytes)
    requires Inverts(fmt, reader, img.useDict) && IsImage(fmt, img, file)
    ensures Readable(fmt, reader, img, file)
  {
    OpenImage(fmt, reader, img, file);
    assert img.recs[..0] == [];
    forall i | 0 <= i < |img.recs|
      ensures ReadsRecord(fmt, reader, img, file, i)
    {
      RecordAt(fmt, reader, img, file, i);
    }
  }

  // ---- positions

  /** The fields of an iterator. */
  datatype Cursor = Cursor(
    inited: bool, ok: bool, valid: bool, headerSize: nat, end: nat, dict: Bytes, offset: nat, index: nat,
    record: Rec, place: Handle)

  const NEW_CURSOR := Cursor(false, true, false, 0, 0, [], 0, 0, Rec([], []), ZERO_HANDLE)

  predicate Opened(fmt: Format, img: Image, c: Cursor) {
    c.inited && c.headerSize == FILE_HEADER && c.end == Offset(fmt, img, |img.recs|) && c.dict == img.dict
  }

  /** The next record to read is record i. */
  predicate At(fmt: Format, img: Image, c: Cursor, i: nat) {
    Opened(fmt, img, c) && i <= |img.recs| && c.offset == Offset(fmt, img, i) && c.index == i
  }

  /** The current record is record i, with the place the builder gave it. */
  predicate On(fmt: Format, img: Image, c: Cursor, i: nat) {
    && i < |img.recs| && At(fmt, img, c, i + 1) && c.valid && c.ok
    && c.record == img.recs[i] && c.place == Place(fmt, img, i)
  }

  function Inited(reader: Reader, file: Bytes, c: Cursor): Cursor {
    match OpenFile(reader, file)
    case None => c.(ok := false)
    case Some(o) => c.(ok := o.clean, inited := true, headerSize := o.headerSize, end := o.end, dict := o.dict)
  }

  /** One record further, unless the records or the entries of the file are used up. */
  function Fetched(reader: Reader, file: Bytes, fileEntries: nat, c: Cursor): Cursor {
    if c.offset >= c.end || c.index >= fileEntries then c.(valid := false)
    else
      match GetRecord(reader, c.dict, file, c.offset)
      case None => c.(ok := false)
      case Some(got) =>
        c.(record := got.0, place := Handle(c.offset, got.1, c.index), index := c.index + 1,
           offset := c.offset + got.1, valid := true)
  }

  lemma FetchedAt(fmt: Format, reader: Reader, img: Image, file: Bytes, fileEntries: nat, c: Cursor, i: nat)
    requires Readable(fmt, reader, img, file) && At(fmt, img, c, i) && c.ok
    ensures var c' := Fetched(reader, file, fileEntries, c);
            if i < |img.recs| && i < fileEntries then On(fmt, img, c', i) else At(fmt, img, c', i) && !c'.valid && c'.ok
  {
    if i < |img.recs| {
      assert ReadsRecord(fmt, reader, img, file, i);
    }
  }

  // ---- walking by record headers

  /** Where a walk over record headers ends, with the ordinal there and the last length passed. */
  datatype Stop = Stop(ok: bool, offset: nat, index: nat, length: nat)

  /** From `offset` on to the first record that starts at or after `target`, or to a header that cannot be read. */
  function Walk(reader: Reader, file: Bytes, target: nat, offset: nat, index: nat, length: nat): Stop
    decreases target - offset
  {
    if offset >= target then Stop(true, offset, index, length)
    else
      match RecordLength(reader, file, offset)
      case None => Stop(false, offset, index, length)
      case Some(n) => Walk(reader, file, target, offset + n, index + 1, n)
  }

  /** A position before the end of the records has a record, which ends after it. */
  lemma RecordHere(fmt: Format, reader: Reader, img: Image, file: Bytes, i: nat)
    requires Readable(fmt, reader, img, file) && i <= |img.recs| && Offset(fmt, img, i) < Offset(fmt, img, |img.recs|)
    ensures i < |img.recs|
    ensures RecordLength(reader, file, Offset(fmt, img, i)) == Some(Place(fmt, img, i).size)
    ensures Offset(fmt, img, i) < Offset(fmt, img, i + 1) == Offset(fmt, img, i) + Place(fmt, img, i).size
  {
    assert i < |img.recs| ==> ReadsRecord(fmt, reader, img, file, i);
  }

  /** So many whole records lie before the position, the last of them starting before `target`. */
  predicate Walked(fmt: Format, img: Image, target: nat, offset: nat, index: nat, length: nat) {
    && index <= |img.recs| && offset == Offset(fmt, img, index)
    && (index == 0 ==> length == 0)
    && (index > 0 ==> offset == Offset(fmt, img, index - 1) + length && Offset(fmt, img, index - 1) < target)
  }

  lemma WalkedStep(fmt: Format, reader: Reader, img: Image, file: Bytes, target: nat, offset: nat, index: nat, length: nat)
    requires Readable(fmt, reader, img, file) && offset < target < Offset(fmt, img, |img.recs|)
    requires Walked(fmt, img, target, offset, index, length)
    ensures index < |img.recs|
    ensures var n := Place(fmt, img, index).size;
            n > 0 && RecordLength(reader, file, offset) == Some(n) && Walked(fmt, img, target, offset + n, index + 1, n)
  {
    RecordHere(fmt, reader, img, file, index);
  }

  lemma {:induction false} WalkedOn(fmt: Format, reader: Reader, img: Image, file: Bytes, target: nat, offset: nat, index: nat, length: nat)
    requires Readable(fmt, reader, img, file) && target < Offset(fmt, img, |img.recs|)
    requires Walked(fmt, img, target, offset, index, length)
    ensures var w := Walk(reader, file, target, offset, index, length);
            w.ok && w.offset >= target && Walked(fmt, img, target, w.offset, w.index, w.length)
    decreases target - offset
  {
    if offset < target {
      WalkedStep(fmt, reader, img, file, target, offset, index, length);
      var n := Place(fmt, img, index).size;
      WalkedOn(fmt, reader, img, file, target, offset + n, index + 1, n);
    }
  }

  /** Back to the start of the last record passed, unless the walk ended on the target itself. */
  function SteppedBack(c: Cursor, target: nat, w: Stop): Cursor {
    if w.offset > target && w.length <= w.offset
    then c.(offset := w.offset - w.length, index := if w.index == 0 then TWO_64 - 1 else w.index - 1, valid := false)
    else c.(offset := w.offset, index := w.index, valid := false)
  }

  /** IterateForPrev on an open file; a header that cannot be read leaves it in the middle of the walk. */
  function Before(reader: Reader, file: Bytes, c: Cursor, target: nat): Cursor {
    if target >= c.end then c.(offset := target, ok := false)
    else
      var w := Walk(reader, file, target, c.headerSize, 0, 0);
      if w.ok then SteppedBack(c.(ok := true), target, w) else c.(ok := false, offset := w.offset, index := w.index)
  }

  /** The record at the position holds byte `target`, and the index is its ordinal. */
  predicate Around(fmt: Format, img: Image, c: Cursor, target: nat) {
    c.index < |img.recs| && At(fmt, img, c, c.index) && c.offset <= target < Offset(fmt, img, c.index + 1)
  }

  /**
   IterateForPrev lands on the record whose bytes contain the target, with its ordinal.  Below the
   record area it stays at the first record, and the ordinal wraps around.
   */
  lemma PrevLands(fmt: Format, reader: Reader, img: Image, file: Bytes, c: Cursor, target: nat)
    requires Readable(fmt, reader, img, file) && Opened(fmt, img, c)
    ensures var c' := Before(reader, file, c, target);
            && Opened(fmt, img, c')
            && (target >= c.end ==> !c'.ok && c'.offset == target)
            && (FILE_HEADER <= target < c.end ==> c'.ok && !c'.valid && Around(fmt, img, c', target))
            && (target < FILE_HEADER && target < c.end ==> c'.ok && c'.offset == FILE_HEADER && c'.index == TWO_64 - 1)
  {
    if target < c.end {
      WalkedOn(fmt, reader, img, file, target, FILE_HEADER, 0, 0);
      var w := Walk(reader, file, target, FILE_HEADER, 0, 0);
      if target >= FILE_HEADER {
        StepsBack(fmt, reader, img, file, c.(ok := true), target, w);
      } else {
        assert w == Stop(true, FILE_HEADER, 0, 0);
      }
    }
  }

  lemma StepsBack(fmt: Format, reader: Reader, img: Image, file: Bytes, c: Cursor, target: nat, w: Stop)
    requires Readable(fmt, reader, img, file) && Opened(fmt, img, c)
    requires FILE_HEADER <= target < Offset(fmt, img, |img.recs|)
    requires w.offset >= target && Walked(fmt, img, target, w.offset, w.index, w.length)
    ensures var c' := SteppedBack(c, target, w);
            Opened(fmt, img, c') && !c'.valid && c'.ok == c.ok && Around(fmt, img, c', target)
  {
    if w.offset == target {
      RecordHere(fmt, reader, img, file, w.index);
    } else {
      assert w.index > 0;
    }
  }

  class BlobFileIterator {
    const reader: Reader
    const file: Bytes
    const fileEntries: nat
    var inited: bool
    var ok: bool
    var valid: bool
    var headerSize: nat
    var end: nat
    var dict: Bytes
    var offset: nat
    var index: nat
    var record: Rec
    var place: Handle

    ghost function State(): Cursor
      reads this
    {
      Cursor(inited, ok, valid, headerSize, end, dict, offset, index, record, place)
    }

    constructor (reader: Reader, file: Bytes, fileEntries: nat)
      ensures this.reader == reader && this.file == file && this.fileEntries == fileEntries && State() == NEW_CURSOR
    {
      this.reader, this.file, this.fileEntries := reader, file, fileEntries;
      inited, ok, valid, headerSize, end, dict, offset, index := false, true, false, 0, 0, [], 0, 0;
      record, place := Rec([], []), ZERO_HANDLE;
    }

    method Init() returns (done: bool)
      modifies this`inited, this`ok, this`headerSize, this`end, this`dict
      ensures State() == Inited(reader, file, old(State())) && done == OpenFile(reader, file).Some?
    {
      var opening := OpenFile(reader, file);
      if opening.None? {
        ok := false;
        return false;
      }
      ok, inited := opening.value.clean, true;
      headerSize, end, dict := opening.value.headerSize, opening.value.end, opening.value.dict;
      return true;
    }

    /** GetBlobRecord behind the two end tests of PrefetchAndGet. */
    method PrefetchAndGet()
      modifies this
      ensures State() == Fetched(reader, file, fileEntries, old(State()))
    {
      if offset >= end || index >= fileEntries {
        valid := false;
        return;
      }
      var got := GetRecord(reader, dict, file, offset);
      if got.None? {
        ok := false;
        return;
      }
      record := got.value.0;
      place := Handle(offset, got.value.1, index);
      index := index + 1;
      offset := offset + got.value.1;
      valid := true;
    }

    method SeekToFirst()
      modifies this
      ensures var c := if old(inited) then old(State()) else Inited(reader, file, old(State()));
              State() == if c.inited then Fetched(reader, file, fileEntries, c.(ok := true, offset := c.headerSize)) else c
    {
      if !inited {
        var done := Init();
        if !done {
          return;
        }
      }
      ok := true;
      offset := headerSize;
      PrefetchAndGet();
    }

    method Next()
      modifies this
      ensures State() == Fetched(reader, file, fileEntries, old(State()))
    {
      PrefetchAndGet();
    }

    method IterateForPrev(target: nat)
      modifies this
      ensures var c := if old(inited) then old(State()) else Inited(reader, file, old(State()));
              State() == if c.inited then Before(reader, file, c, target) else c
    {
      if !inited {
        var done := Init();
        if !done {
          return;
        }
      }
      ghost var c := State();
      if target >= end {
        offset, ok := target, false;
        return;
      }
      var length := WalkTo(target);
      if !ok {
        return;
      }
      if offset > target && length <= offset {
        offset := offset - length;
        index := if index == 0 then TWO_64 - 1 else index - 1;
      }
      valid := false;
    }

    /** The loop over record headers. */
    method WalkTo(target: nat) returns (length: nat)
      modifies this`ok, this`offset, this`index
      ensures Walk(reader, file, target, headerSize, 0, 0) == Stop(ok, offset, index, length)
    {
      ok, offset, index, length := true, headerSize, 0, 0;
      while offset < target
        invariant ok && Walk(reader, file, target, headerSize, 0, 0) == Walk(reader, file, target, offset, index, length)
        decreases target - offset
      {
        var next := RecordLength(reader, file, offset);
        if next.None? {
          ok := false;
          return;
        }
        length := next.value;
        offset, index := offset + length, index + 1;
      }
    }
  }

  /** What the first pass over an image yields. */
  function Listing(fmt: Format, img: Image): seq<(Rec, Handle)> {
    seq(|img.recs|, i requires 0 <= i < |img.recs| => (img.recs[i], Place(fmt, img, i)))
  }

  lemma FirstSeek(fmt: Format, reader: Reader, img: Image, file: Bytes, fileEntries: nat)
    requires Readable(fmt, reader, img, file)
    ensures var c := Inited(reader, file, NEW_CURSOR);
            var c' := Fetched(reader, file, fileEntries, c.(ok := true, offset := c.headerSize));
            c.inited && if 0 < |img.recs| && 0 < fileEntries then On(fmt, img, c', 0) else At(fmt, img, c', 0) && !c'.valid && c'.ok
  {
    var c := Inited(reader, file, NEW_CURSOR);
    FetchedAt(fmt, reader, img, file, fileEntries, c.(ok := true, offset := c.headerSize), 0);
  }

  /** So much of the listing is out, and the cursor is on the next record or at the end. */
  predicate Reading(fmt: Format, img: Image, c: Cursor, out: seq<(Rec, Handle)>) {
    && |out| <= |img.recs| && out == Listing(fmt, img)[..|out|]
    && if |out| < |img.recs| then On(fmt, img, c, |out|) else At(fmt, img, c, |out|) && !c.valid && c.ok
  }

  lemma ReadsOn(fmt: Format, reader: Reader, img: Image, file: Bytes, fileEntries: nat, c: Cursor, out: seq<(Rec, Handle)>)
    requires Readable(fmt, reader, img, file) && |img.recs| <= fileEntries && Reading(fmt, img, c, out) && c.valid
    ensures |out| < |img.recs| && Reading(fmt, img, Fetched(reader, file, fileEntries, c), out + [(c.record, c.place)])
  {
    FetchedAt(fmt, reader, img, file, fileEntries, c, |out| + 1);
    var more := out + [(c.record, c.place)];
    assert Listing(fmt, img)[|out|] == (c.record, c.place);
    assert more == Listing(fmt, img)[..|out| + 1];
  }

  method ReadRecords(reader: Reader, file: Bytes, fileEntries: nat, ghost fmt: Format, ghost img: Image)
    returns (out: seq<(Rec, Handle)>)
    requires Readable(fmt, reader, img, file) && |img.recs| <= fileEntries
    ensures out == Listing(fmt, img)
  {
    FirstSeek(fmt, reader, img, file, fileEntries);
    var it := new BlobFileIterator(reader, file, fileEntries);
    it.SeekToFirst();
    out := [];
    while it.valid && it.ok
      invariant it.reader == reader && it.file == file && it.fileEntries == fileEntries
      invariant Reading(fmt, img, it.State(), out)
      decreases |img.recs| - |out|
    {
      ReadsOn(fmt, reader, img, file, fileEntries, it.State(), out);
      out := out + [(it.record, it.place)];
      it.Next();
    }
  }

  /**
   The loop of a reader: SeekToFirst, then Next while valid.  Over a finished file it yields
   every record in order with its offset, size and ordinal, and stops where the records end.
   */
  method ReadAll(reader: Reader, file: Bytes, fileEntries: nat, ghost fmt: Format, ghost img: Image)
    returns (out: seq<(Rec, Handle)>)
    requires Inverts(fmt, reader, img.useDict) && IsImage(fmt, img, file) && |img.recs| <= fileEntries
    ensures out == Listing(fmt, img)
  {
    ImageReadable(fmt, reader, img, file);
    out := ReadRecords(reader, file, fileEntries, fmt, img);
  }
}
