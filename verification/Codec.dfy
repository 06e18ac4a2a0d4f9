/** The byte formats of blob indexes, file metas, version edits, file headers and footers. */
module Codec {
  import opened Types
  import opened Storage
  import opened Edits
  import opened Coding

  // ---- blob handles and indexes

  datatype Handle = Handle(offset: nat, size: nat, index: nat)

  const ZERO_HANDLE := Handle(0, 0, 0)

  datatype BlobIndex = BlobIndex(file: nat, handle: Handle, oldFile: nat, oldHandle: Handle)

  function EncodeHandle(h: Handle): Bytes {
    Varint(h.offset) + Varint(h.size) + Varint(h.index)
  }

  function DecodeHandle(src: Bytes): Parsed<Handle> {
    match GetVarint64(src)
    case Fail => Fail
    case Got(offset, rest1) =>
      match GetVarint64(rest1)
      case Fail => Fail
      case Got(size, rest2) =>
        match GetVarint64(rest2)
        case Fail => Fail
        case Got(index, rest3) => Got(Handle(offset, size, index), rest3)
  }

  predicate HandleFits(h: Handle) {
    h.offset < TWO_64 && h.size < TWO_64 && h.index < TWO_64
  }

  lemma HandleBack(h: Handle, rest: Bytes)
    requires HandleFits(h)
    ensures DecodeHandle(EncodeHandle(h) + rest) == Got(h, rest)
  {
    var tail2 := Varint(h.index) + rest;
    var tail1 := Varint(h.size) + tail2;
    assert EncodeHandle(h) + rest == Varint(h.offset) + tail1;
    Varint64Back(h.offset, tail1);
    Varint64Back(h.size, tail2);
    Varint64Back(h.index, rest);
  }

  /** The old location is written only when there is one. */
  function EncodeIndex(ix: BlobIndex): Bytes {
    [1] + Varint(ix.file) + EncodeHandle(ix.handle) +
    if ix.oldFile > 0 then Varint(ix.oldFile) + EncodeHandle(ix.oldHandle) else []
  }

  /** Leftover bytes after the handle are taken as an old location. */
  function DecodeOld(file: nat, handle: Handle, src: Bytes): Parsed<BlobIndex> {
    if src == [] then Got(BlobIndex(file, handle, 0, ZERO_HANDLE), [])
    else
      match GetVarint64(src)
      case Fail => Fail
      case Got(oldFile, rest) =>
        match DecodeHandle(rest)
        case Fail => Fail
        case Got(oldHandle, rest2) => Got(BlobIndex(file, handle, oldFile, oldHandle), rest2)
  }

  function DecodeIndex(src: Bytes): Parsed<BlobIndex> {
    if src == [] || src[0] != 1 then Fail
    else
      match GetVarint64(src[1..])
      case Fail => Fail
      case Got(file, rest) =>
        match DecodeHandle(rest)
        case Fail => Fail
        case Got(handle, rest2) => DecodeOld(file, handle, rest2)
  }

  predicate IndexFits(ix: BlobIndex) {
    ix.file < TWO_64 && HandleFits(ix.handle) && ix.oldFile < TWO_64 && HandleFits(ix.oldHandle)
  }

  /** A whole slice gives the index back exactly when an absent old location has a zero handle. */
  lemma IndexBack(ix: BlobIndex)
    requires IndexFits(ix)
    ensures DecodeIndex(EncodeIndex(ix)) == Got(ix, []) <==> (ix.oldFile == 0 ==> ix.oldHandle == ZERO_HANDLE)
    ensures DecodeIndex(EncodeIndex(ix)) == Got(if ix.oldFile > 0 then ix else ix.(oldHandle := ZERO_HANDLE), [])
  {
    var old_ := if ix.oldFile > 0 then Varint(ix.oldFile) + EncodeHandle(ix.oldHandle) else [];
    assert EncodeIndex(ix)[1..] == Varint(ix.file) + (EncodeHandle(ix.handle) + old_);
    Varint64Back(ix.file, EncodeHandle(ix.handle) + old_);
    HandleBack(ix.handle, old_);
    if ix.oldFile > 0 {
      Varint64Back(ix.oldFile, EncodeHandle(ix.oldHandle));
      HandleBack(ix.oldHandle, []);
      assert EncodeHandle(ix.oldHandle) + [] == EncodeHandle(ix.oldHandle);
    }
  }

  // ---- file metas

  function EncodeMeta(m: Meta): Bytes {
    Varint(m.number) + Varint(m.size) + Varint(m.entries) + Varint(m.level) + Prefixed(m.smallest) + Prefixed(m.largest)
  }

  /** The legacy form has no entry count, level or keys. */
  function DecodeLegacyMeta(src: Bytes): (r: Parsed<Meta>)
    ensures r.Got? ==> |r.rest| < |src|
  {
    match GetVarint64(src)
    case Fail => Fail
    case Got(number, rest1) =>
      match GetVarint64(rest1)
      case Fail => Fail
      case Got(size, rest2) => Got(Meta(number, size, 0, 0, [], []), rest2)
  }

  function DecodeKeys(m: Meta, src: Bytes): (r: Parsed<Meta>)
    ensures r.Got? ==> |r.rest| < |src|
  {
    match GetPrefixed(src)
    case Fail => Fail
    case Got(smallest, rest1) =>
      match GetPrefixed(rest1)
      case Fail => Fail
      case Got(largest, rest2) => Got(m.(smallest := smallest, largest := largest), rest2)
  }

  function DecodeMeta(src: Bytes): (r: Parsed<Meta>)
    ensures r.Got? ==> |r.rest| < |src|
  {
    match DecodeLegacyMeta(src)
    case Fail => Fail
    case Got(m, rest1) =>
      match GetVarint64(rest1)
      case Fail => Fail
      case Got(entries, rest2) =>
        match GetVarint32(rest2)
        case Fail => Fail
        case Got(level, rest3) => DecodeKeys(m.(entries := entries, level := level), rest3)
  }

  predicate MetaFits(m: Meta) {
    && m.number < TWO_64 && m.size < TWO_64 && m.entries < TWO_64 && m.level < TWO_32
    && |m.smallest| < TWO_32 && |m.largest| < TWO_32
  }

  lemma MetaBack(m: Meta, rest: Bytes)
    requires MetaFits(m)
    ensures DecodeMeta(EncodeMeta(m) + rest) == Got(m, rest)
  {
    var keys := Prefixed(m.smallest) + (Prefixed(m.largest) + rest);
    var tail2 := Varint(m.level) + keys;
    var tail1 := Varint(m.entries) + tail2;
    var tail0 := Varint(m.size) + tail1;
    assert EncodeMeta(m) + rest == Varint(m.number) + tail0;
    Varint64Back(m.number, tail0);
    Varint64Back(m.size, tail1);
    Varint64Back(m.entries, tail2);
    Varint32Back(m.level, keys);
    KeysBack(m, rest);
  }

  lemma KeysBack(m: Meta, rest: Bytes)
    requires MetaFits(m)
    ensures DecodeKeys(m.(smallest := [], largest := []), Prefixed(m.smallest) + (Prefixed(m.largest) + rest)) == Got(m, rest)
  {
    PrefixedBack(m.smallest, Prefixed(m.largest) + rest);
    PrefixedBack(m.largest, rest);
  }

  // ---- version edits

  const NEXT_FILE_NUMBER: nat := 1
  const COLUMN_FAMILY_ID: nat := 10
  const ADDED_BLOB_FILE: nat := 11
  const DELETED_BLOB_FILE: nat := 12
  const ADDED_BLOB_FILE_V2: nat := 13

  /** One encoded piece per element. */
  function EncodeMany<T>(piece: T -> Bytes, xs: seq<T>): Bytes {
    if xs == [] then [] else piece(xs[0]) + EncodeMany(piece, xs[1..])
  }

  function EncodeAdd(m: Meta): Bytes {
    Varint(ADDED_BLOB_FILE_V2) + EncodeMeta(m)
  }

  function EncodeDelete(g: Gone): Bytes {
    Varint(DELETED_BLOB_FILE) + Varint(g.number)
  }

  function EncodeEdit(e: Edit): Bytes {
    (if e.next.Some? then Varint(NEXT_FILE_NUMBER) + Varint(e.next.value) else []) +
    (Varint(COLUMN_FAMILY_ID) + Varint(e.cf)) + EncodeMany(EncodeAdd, e.added) + EncodeMany(EncodeDelete, e.deleted)
  }

  lemma {:induction false} ManyMore<T>(piece: T -> Bytes, xs: seq<T>, i: nat)
    requires i < |xs|
    ensures EncodeMany(piece, xs[..i + 1]) == EncodeMany(piece, xs[..i]) + piece(xs[i])
    decreases i
  {
    if i == 0 {
      assert xs[..1][1..] == [] && xs[..0] == [];
    } else {
      ManyMore(piece, xs[1..], i - 1);
      assert xs[..i + 1][1..] == xs[1..][..i] && xs[..i][1..] == xs[1..][..i - 1];
      Regroup(piece(xs[0]), EncodeMany(piece, xs[1..][..i - 1]), piece(xs[i]));
    }
  }

  /** VersionEdit::EncodeTo: the loops append piece after piece. */
  method EncodeTo(e: Edit) returns (dst: Bytes)
    ensures dst == EncodeEdit(e)
  {
    dst := if e.next.Some? then Varint(NEXT_FILE_NUMBER) + Varint(e.next.value) else [];
    dst := dst + (Varint(COLUMN_FAMILY_ID) + Varint(e.cf));
    dst := AppendPieces(dst, EncodeAdd, e.added);
    dst := AppendPieces(dst, EncodeDelete, e.deleted);
  }

  method AppendPieces<T>(dst0: Bytes, piece: T -> Bytes, xs: seq<T>) returns (dst: Bytes)
    ensures dst == dst0 + EncodeMany(piece, xs)
  {
    dst := dst0;
    for i := 0 to |xs|
      invariant dst == dst0 + EncodeMany(piece, xs[..i])
    {
      ManyMore(piece, xs, i);
      Regroup(dst0, EncodeMany(piece, xs[..i]), piece(xs[i]));
      dst := dst + piece(xs[i]);
    }
    assert xs[..|xs|] == xs;
  }

  const EMPTY_EDIT := Edit(None, 0, [], [])

  /** The payload of a tag, put into the edit read so far. */
  function DecodeField(tag: nat, src: Bytes, e: Edit): (r: Parsed<Edit>)
    ensures r.Got? ==> |r.rest| < |src|
  {
    if tag == NEXT_FILE_NUMBER then
      match GetVarint64(src)
      case Fail => Fail
      case Got(n, rest) => Got(e.(next := Some(n)), rest)
    else if tag == COLUMN_FAMILY_ID then
      match GetVarint32(src)
      case Fail => Fail
      case Got(cf, rest) => Got(e.(cf := cf), rest)
    else if tag == ADDED_BLOB_FILE then
      match DecodeLegacyMeta(src)
      case Fail => Fail
      case Got(m, rest) => Got(e.(added := e.added + [m]), rest)
    else if tag == ADDED_BLOB_FILE_V2 then
      match DecodeMeta(src)
      case Fail => Fail
      case Got(m, rest) => Got(e.(added := e.added + [m]), rest)
    else if tag == DELETED_BLOB_FILE then
      match GetVarint64(src)
      case Fail => Fail
      case Got(n, rest) => Got(e.(deleted := e.deleted + [Gone(n, 0)]), rest)
    else Fail
  }

  /** One tag and its payload. */
  function DecodeTag(src: Bytes, e: Edit): (r: Parsed<Edit>)
    ensures r.Got? ==> |r.rest| < |src|
  {
    match GetVarint32(src)
    case Fail => Fail
    case Got(tag, rest) => DecodeField(tag, rest, e)
  }

  type Step = (Bytes, Edit) -> Parsed<Edit>

  function Loop(step: Step, src: Bytes, e: Edit): Option<Edit>
    decreases |src|
  {
    if src == [] then Some(e)
    else
      var parsed := step(src, e);
      if parsed.Fail? || |parsed.rest| >= |src| then None else Loop(step, parsed.rest, parsed.value)
  }

  /** Tags until the record is used up. */
  function DecodeTags(src: Bytes, e: Edit): Option<Edit> {
    Loop(DecodeTag, src, e)
  }

  method DecodeEdit(record: Bytes) returns (r: Option<Edit>)
    ensures r == DecodeTags(record, EMPTY_EDIT)
  {
    var src, e := record, EMPTY_EDIT;
    while src != []
      invariant DecodeTags(record, EMPTY_EDIT) == DecodeTags(src, e)
      decreases |src|
    {
      var parsed := DecodeTag(src, e);
      if parsed.Fail? {
        return None;
      }
      src, e := parsed.rest, parsed.value;
    }
    return Some(e);
  }

  predicate EditFits(e: Edit) {
    && (e.next.Some? ==> e.next.value < TWO_64)
    && e.cf < TWO_32
    && (forall i :: 0 <= i < |e.added| ==> MetaFits(e.added[i]))
    && (forall i :: 0 <= i < |e.deleted| ==> e.deleted[i].number < TWO_64)
  }

  /** What a manifest keeps of an edit: obsolete sequences are not written. */
  function Persisted(e: Edit): Edit {
    e.(deleted := Unsequenced(e.deleted))
  }

  function Unsequenced(deleted: seq<Gone>): (r: seq<Gone>)
    ensures |r| == |deleted|
    ensures forall i :: 0 <= i < |r| ==> r[i] == Gone(deleted[i].number, 0)
  {
    if deleted == [] then [] else [Gone(deleted[0].number, 0)] + Unsequenced(deleted[1..])
  }

  lemma TagBack(tag: nat, payload: Bytes, e: Edit)
    requires tag < 128
    ensures DecodeTag(Varint(tag) + payload, e) == DecodeField(tag, payload, e)
  {
    Varint32Back(tag, payload);
  }

  lemma NextTag(n: nat, rest: Bytes, e: Edit)
    requires n < TWO_64
    ensures DecodeTag(Varint(NEXT_FILE_NUMBER) + (Varint(n) + rest), e) == Got(e.(next := Some(n)), rest)
  {
    TagBack(NEXT_FILE_NUMBER, Varint(n) + rest, e);
    Varint64Back(n, rest);
  }

  lemma FamilyTag(cf: nat, rest: Bytes, e: Edit)
    requires cf < TWO_32
    ensures DecodeTag(Varint(COLUMN_FAMILY_ID) + (Varint(cf) + rest), e) == Got(e.(cf := cf), rest)
  {
    TagBack(COLUMN_FAMILY_ID, Varint(cf) + rest, e);
    Varint32Back(cf, rest);
  }

  lemma AddField(m: Meta, rest: Bytes, e: Edit)
    requires MetaFits(m)
    ensures DecodeField(ADDED_BLOB_FILE_V2, EncodeMeta(m) + rest, e) == Got(PutAdd(e, m), rest)
  {
    MetaBack(m, rest);
  }

  lemma AddTag(m: Meta, rest: Bytes, e: Edit)
    requires MetaFits(m)
    ensures DecodeTag(EncodeAdd(m) + rest, e) == Got(PutAdd(e, m), rest)
  {
    Regroup(Varint(ADDED_BLOB_FILE_V2), EncodeMeta(m), rest);
    TagBack(ADDED_BLOB_FILE_V2, EncodeMeta(m) + rest, e);
    AddField(m, rest, e);
  }

  lemma DeleteTag(g: Gone, rest: Bytes, e: Edit)
    requires g.number < TWO_64
    ensures DecodeTag(EncodeDelete(g) + rest, e) == Got(PutDelete(e, g), rest)
  {
    Regroup(Varint(DELETED_BLOB_FILE), Varint(g.number), rest);
    TagBack(DELETED_BLOB_FILE, Varint(g.number) + rest, e);
    Varint64Back(g.number, rest);
  }

  function PutAdd(e: Edit, m: Meta): Edit {
    e.(added := e.added + [m])
  }

  function PutDelete(e: Edit, g: Gone): Edit {
    e.(deleted := e.deleted + [Gone(g.number, 0)])
  }

  function PutAll<T>(put: (Edit, T) -> Edit, e: Edit, xs: seq<T>): Edit
    decreases |xs|
  {
    if xs == [] then e else PutAll(put, put(e, xs[0]), xs[1..])
  }

  lemma TagStep(step: Step, src: Bytes, e: Edit, e': Edit, rest: Bytes)
    requires step(src, e) == Got(e', rest) && |rest| < |src|
    ensures Loop(step, src, e) == Loop(step, rest, e')
  {
  }

  ghost predicate Understands<T>(step: Step, piece: T -> Bytes, put: (Edit, T) -> Edit, x: T) {
    |piece(x)| > 0 && forall rest, e :: step(piece(x) + rest, e) == Got(put(e, x), rest)
  }

  /** A decoder that understands every piece puts every element in, in order. */
  lemma {:induction false} ManyBack<T>(step: Step, piece: T -> Bytes, put: (Edit, T) -> Edit, xs: seq<T>, rest: Bytes, e: Edit)
    requires forall i :: 0 <= i < |xs| ==> Understands(step, piece, put, xs[i])
    ensures Loop(step, EncodeMany(piece, xs) + rest, e) == Loop(step, rest, PutAll(put, e, xs))
    decreases |xs|
  {
    if xs == [] {
      assert EncodeMany(piece, xs) + rest == rest;
    } else {
      var more := EncodeMany(piece, xs[1..]) + rest;
      assert EncodeMany(piece, xs) + rest == piece(xs[0]) + more;
      assert Understands(step, piece, put, xs[0]);
      TagStep(step, piece(xs[0]) + more, e, put(e, xs[0]), more);
      ManyBack(step, piece, put, xs[1..], rest, put(e, xs[0]));
    }
  }

  lemma {:induction false} PutAdds(e: Edit, added: seq<Meta>)
    ensures PutAll(PutAdd, e, added) == e.(added := e.added + added)
    decreases |added|
  {
    if added == [] {
      assert e.added + added == e.added;
    } else {
      PutAdds(PutAdd(e, added[0]), added[1..]);
      assert e.added + [added[0]] + added[1..] == e.added + added;
    }
  }

  lemma {:induction false} PutDeletes(e: Edit, deleted: seq<Gone>)
    ensures PutAll(PutDelete, e, deleted) == e.(deleted := e.deleted + Unsequenced(deleted))
    decreases |deleted|
  {
    if deleted == [] {
      assert e.deleted + [] == e.deleted;
    } else {
      PutDeletes(PutDelete(e, deleted[0]), deleted[1..]);
      assert e.deleted + [Gone(deleted[0].number, 0)] + Unsequenced(deleted[1..]) == e.deleted + Unsequenced(deleted);
    }
  }

  lemma AddsBack(added: seq<Meta>, rest: Bytes, e: Edit)
    requires forall i :: 0 <= i < |added| ==> MetaFits(added[i])
    ensures DecodeTags(EncodeMany(EncodeAdd, added) + rest, e) == DecodeTags(rest, e.(added := e.added + added))
  {
    forall i | 0 <= i < |added|
      ensures Understands(DecodeTag, EncodeAdd, PutAdd, added[i])
    {
      forall r, f ensures DecodeTag(EncodeAdd(added[i]) + r, f) == Got(PutAdd(f, added[i]), r) {
        AddTag(added[i], r, f);
      }
    }
    ManyBack(DecodeTag, EncodeAdd, PutAdd, added, rest, e);
    PutAdds(e, added);
  }

  lemma DelsBack(deleted: seq<Gone>, e: Edit)
    requires forall i :: 0 <= i < |deleted| ==> deleted[i].number < TWO_64
    ensures DecodeTags(EncodeMany(EncodeDelete, deleted), e) == Some(e.(deleted := e.deleted + Unsequenced(deleted)))
  {
    forall i | 0 <= i < |deleted|
      ensures Understands(DecodeTag, EncodeDelete, PutDelete, deleted[i])
    {
      forall r, f ensures DecodeTag(EncodeDelete(deleted[i]) + r, f) == Got(PutDelete(f, deleted[i]), r) {
        DeleteTag(deleted[i], r, f);
      }
    }
    ManyBack(DecodeTag, EncodeDelete, PutDelete, deleted, [], e);
    PutDeletes(e, deleted);
    assert EncodeMany(EncodeDelete, deleted) + [] == EncodeMany(EncodeDelete, deleted);
  }

  lemma NextBack(e: Edit, body: Bytes)
    requires e.next.Some? ==> e.next.value < TWO_64
    ensures DecodeTags((if e.next.Some? then Varint(NEXT_FILE_NUMBER) + Varint(e.next.value) else []) + body, EMPTY_EDIT)
            == DecodeTags(body, EMPTY_EDIT.(next := e.next))
  {
    if e.next.Some? {
      var src := Varint(NEXT_FILE_NUMBER) + (Varint(e.next.value) + body);
      assert Varint(NEXT_FILE_NUMBER) + Varint(e.next.value) + body == src;
      NextTag(e.next.value, body, EMPTY_EDIT);
      TagStep(DecodeTag, src, EMPTY_EDIT, EMPTY_EDIT.(next := e.next), body);
    } else {
      assert [] + body == body;
    }
  }

  lemma FamilyBack(cf: nat, files: Bytes, e: Edit)
    requires cf < TWO_32
    ensures DecodeTags(Varint(COLUMN_FAMILY_ID) + (Varint(cf) + files), e) == DecodeTags(files, e.(cf := cf))
  {
    FamilyTag(cf, files, e);
    TagStep(DecodeTag, Varint(COLUMN_FAMILY_ID) + (Varint(cf) + files), e, e.(cf := cf), files);
  }

  lemma EditLayout(next: Bytes, tag: Bytes, cf: Bytes, adds: Bytes, dels: Bytes)
    ensures next + (tag + cf) + adds + dels == next + (tag + (cf + (adds + dels)))
  {
  }

  /** Decoding an encoded edit gives back every persistent field. */
  lemma EditBack(e: Edit)
    requires EditFits(e)
    ensures DecodeTags(EncodeEdit(e), EMPTY_EDIT) == Some(Persisted(e))
  {
    var dels := EncodeMany(EncodeDelete, e.deleted);
    var files := EncodeMany(EncodeAdd, e.added) + dels;
    var e1 := EMPTY_EDIT.(next := e.next);
    var e2 := e1.(cf := e.cf);
    EditLayout(if e.next.Some? then Varint(NEXT_FILE_NUMBER) + Varint(e.next.value) else [],
               Varint(COLUMN_FAMILY_ID), Varint(e.cf), EncodeMany(EncodeAdd, e.added), dels);
    NextBack(e, Varint(COLUMN_FAMILY_ID) + (Varint(e.cf) + files));
    FamilyBack(e.cf, files, e1);
    AddsBack(e.added, dels, e2);
    assert e2.added + e.added == e.added;
    DelsBack(e.deleted, e2.(added := e.added));
    assert e2.deleted + Unsequenced(e.deleted) == Unsequenced(e.deleted);
  }

  // ---- edits of older versions

  /** A file as older versions wrote it: number and size only. */
  function EncodeLegacyAdd(m: Meta): Bytes {
    Varint(ADDED_BLOB_FILE) + (Varint(m.number) + Varint(m.size))
  }

  function LegacyMeta(m: Meta): Meta {
    Meta(m.number, m.size, 0, 0, [], [])
  }

  function LegacyMetas(added: seq<Meta>): (r: seq<Meta>)
    ensures |r| == |added|
    ensures forall i :: 0 <= i < |r| ==> r[i] == Meta(added[i].number, added[i].size, 0, 0, [], [])
  {
    seq(|added|, i requires 0 <= i < |added| => LegacyMeta(added[i]))
  }

  function PutLegacy(e: Edit, m: Meta): Edit {
    PutAdd(e, LegacyMeta(m))
  }

  lemma LegacyTag(m: Meta, rest: Bytes, e: Edit)
    requires MetaFits(m)
    ensures DecodeTag(EncodeLegacyAdd(m) + rest, e) == Got(PutLegacy(e, m), rest)
  {
    var payload := Varint(m.number) + (Varint(m.size) + rest);
    assert EncodeLegacyAdd(m) + rest == Varint(ADDED_BLOB_FILE) + payload;
    TagBack(ADDED_BLOB_FILE, payload, e);
    Varint64Back(m.number, Varint(m.size) + rest);
    Varint64Back(m.size, rest);
  }

  lemma {:induction false} PutLegacies(e: Edit, added: seq<Meta>)
    ensures PutAll(PutLegacy, e, added) == e.(added := e.added + LegacyMetas(added))
    decreases |added|
  {
    if added == [] {
      assert e.added + LegacyMetas(added) == e.added;
    } else {
      PutLegacies(PutLegacy(e, added[0]), added[1..]);
      assert e.added + [LegacyMeta(added[0])] + LegacyMetas(added[1..]) == e.added + LegacyMetas(added);
    }
  }

  /** Files of older versions are read without entries, level and keys; none is lost. */
  lemma LegacyBack(added: seq<Meta>, rest: Bytes, e: Edit)
    requires forall i :: 0 <= i < |added| ==> MetaFits(added[i])
    ensures DecodeTags(EncodeMany(EncodeLegacyAdd, added) + rest, e)
            == DecodeTags(rest, e.(added := e.added + LegacyMetas(added)))
  {
    forall i | 0 <= i < |added|
      ensures Understands(DecodeTag, EncodeLegacyAdd, PutLegacy, added[i])
    {
      forall r, f ensures DecodeTag(EncodeLegacyAdd(added[i]) + r, f) == Got(PutLegacy(f, added[i]), r) {
        LegacyTag(added[i], r, f);
      }
    }
    ManyBack(DecodeTag, EncodeLegacyAdd, PutLegacy, added, rest, e);
    PutLegacies(e, added);
  }

  /** A tag that is not known makes the whole record corrupt. */
  lemma UnknownTag(tag: nat, rest: Bytes, e: Edit)
    requires tag < TWO_32 && tag !in {1, 10, 11, 12, 13}
    ensures DecodeTags(Varint(tag) + rest, e) == None
  {
    Varint32Back(tag, rest);
  }

  // ---- blob file header and footer

  const HEADER_MAGIC: nat := 0x2be0a614
  const FOOTER_MAGIC: nat := 0x2be0a6148e39edc6
  const MAX_BLOCK_HANDLE: nat := 20
  const FOOTER_SIZE: nat := 32

  datatype Header = Header(version: nat, flags: nat)

  function EncodeHeader(h: Header): Bytes {
    Fixed(HEADER_MAGIC, 4) + Fixed(h.version, 4) + if h.version == 2 then Fixed(h.flags, 4) else []
  }

  function DecodeHeader(src: Bytes): Parsed<Header> {
    match GetFixed(src, 4)
    case Fail => Fail
    case Got(magic, rest1) =>
      if magic != HEADER_MAGIC then Fail
      else
        match GetFixed(rest1, 4)
        case Fail => Fail
        case Got(version, rest2) =>
          if version == 1 then Got(Header(1, 0), rest2)
          else if version != 2 then Fail
          else
            match GetFixed(rest2, 4)
            case Fail => Fail
            case Got(flags, rest3) => if flags > 1 then Fail else Got(Header(2, flags), rest3)
  }

  /** Version 1 has no flags; no flag but the dictionary one is known. */
  lemma HeaderBack(h: Header, rest: Bytes)
    requires h.version < TWO_32 && h.flags < TWO_32
    ensures DecodeHeader(EncodeHeader(h) + rest) == Got(h, rest)
            <==> (h.version == 1 && h.flags == 0) || (h.version == 2 && h.flags <= 1)
  {
    FixedPowers();
    var flags := if h.version == 2 then Fixed(h.flags, 4) else [];
    assert EncodeHeader(h) + rest == Fixed(HEADER_MAGIC, 4) + (Fixed(h.version, 4) + (flags + rest));
    FixedReads(HEADER_MAGIC, 4, Fixed(h.version, 4) + (flags + rest));
    FixedReads(h.version, 4, flags + rest);
    if h.version == 2 {
      FixedReads(h.flags, 4, rest);
    } else {
      assert flags + rest == rest;
    }
  }

  datatype BlockHandle = BlockHandle(offset: nat, size: nat)

  type Crc = Bytes -> nat

  function EncodeBlockHandle(h: BlockHandle): Bytes {
    Varint(h.offset) + Varint(h.size)
  }

  lemma BlockHandleLength(h: BlockHandle)
    requires h.offset < TWO_64 && h.size < TWO_64
    ensures |EncodeBlockHandle(h)| <= MAX_BLOCK_HANDLE
  {
    Powers();
    VarintLength(h.offset, 10);
    VarintLength(h.size, 10);
  }

  /** The handle padded to its longest length, then the magic number. */
  function FooterBody(h: BlockHandle): Bytes
    requires h.offset < TWO_64 && h.size < TWO_64
  {
    BlockHandleLength(h);
    var handle := EncodeBlockHandle(h);
    handle + seq(MAX_BLOCK_HANDLE - |handle|, _ => 0) + Fixed(FOOTER_MAGIC, 8)
  }

  function EncodeFooter(h: BlockHandle, crc: Crc): Bytes
    requires h.offset < TWO_64 && h.size < TWO_64
  {
    FooterBody(h) + Fixed(crc(FooterBody(h)), 4)
  }

  function DecodeFooter(src: Bytes, crc: Crc): Parsed<BlockHandle>
    requires |src| >= FOOTER_SIZE
  {
    match GetVarint64(src)
    case Fail => Fail
    case Got(offset, rest1) =>
      match GetVarint64(rest1)
      case Fail => Fail
      case Got(size, _) =>
        match GetFixed(src[MAX_BLOCK_HANDLE..], 8)
        case Fail => Fail
        case Got(magic, rest2) =>
          match GetFixed(rest2, 4)
          case Fail => Fail
          case Got(checksum, rest3) =>
            if magic != FOOTER_MAGIC || checksum != crc(src[..MAX_BLOCK_HANDLE + 8]) then Fail
            else Got(BlockHandle(offset, size), rest3)
  }

  /** The handle that decoding a footer leaves behind, whatever the later checks say. */
  function LeftHandle(src: Bytes): BlockHandle {
    match GetVarint64(src)
    case Fail => BlockHandle(0, 0)
    case Got(offset, rest) =>
      match GetVarint64(rest)
      case Fail => BlockHandle(0, 0)
      case Got(size, _) => BlockHandle(offset, size)
  }

  lemma LeftIsDecoded(src: Bytes, crc: Crc)
    requires |src| >= FOOTER_SIZE && DecodeFooter(src, crc).Got?
    ensures LeftHandle(src) == DecodeFooter(src, crc).value
  {
  }

  lemma FooterLayout(handle: Bytes, pad: Bytes, magic: Bytes, sum: Bytes)
    requires |handle| + |pad| == MAX_BLOCK_HANDLE && |magic| == 8 && |sum| == 4
    ensures var src := handle + pad + magic + sum;
            && |src| == FOOTER_SIZE
            && src == handle + (pad + (magic + sum))
            && src[MAX_BLOCK_HANDLE..] == magic + sum
            && src[..MAX_BLOCK_HANDLE + 8] == handle + pad + magic
  {
  }

  lemma BlockHandleBack(h: BlockHandle, rest: Bytes)
    requires h.offset < TWO_64 && h.size < TWO_64
    ensures GetVarint64(EncodeBlockHandle(h) + rest) == Got(h.offset, Varint(h.size) + rest)
    ensures GetVarint64(Varint(h.size) + rest) == Got(h.size, rest)
  {
    assert EncodeBlockHandle(h) + rest == Varint(h.offset) + (Varint(h.size) + rest);
    Varint64Back(h.offset, Varint(h.size) + rest);
    Varint64Back(h.size, rest);
  }

  lemma TrailerBack(magic: nat, sum: nat)
    requires magic < TWO_64 && sum < TWO_32
    ensures GetFixed(Fixed(magic, 8) + Fixed(sum, 4), 8) == Got(magic, Fixed(sum, 4))
    ensures GetFixed(Fixed(sum, 4), 4) == Got(sum, [])
  {
    FixedPowers();
    FixedReads(magic, 8, Fixed(sum, 4));
    FixedReads(sum, 4, []);
    assert Fixed(sum, 4) + [] == Fixed(sum, 4);
  }

  lemma FooterBack(h: BlockHandle, crc: Crc)
    requires h.offset < TWO_64 && h.size < TWO_64 && crc(FooterBody(h)) < TWO_32
    ensures |EncodeFooter(h, crc)| == FOOTER_SIZE
    ensures DecodeFooter(EncodeFooter(h, crc), crc) == Got(h, [])
  {
    BlockHandleLength(h);
    var handle := EncodeBlockHandle(h);
    var pad: Bytes := seq(MAX_BLOCK_HANDLE - |handle|, _ => 0);
    var magic, sum := Fixed(FOOTER_MAGIC, 8), Fixed(crc(FooterBody(h)), 4);
    FooterLayout(handle, pad, magic, sum);
    BlockHandleBack(h, pad + (magic + sum));
    TrailerBack(FOOTER_MAGIC, crc(FooterBody(h)));
  }

  /** Only a footer with the magic number and its own checksum decodes. */
  lemma FooterChecked(src: Bytes, crc: Crc)
    requires |src| >= FOOTER_SIZE && DecodeFooter(src, crc).Got?
    ensures src[20..28] == Fixed(FOOTER_MAGIC, 8) && src[28..32] == Fixed(crc(src[..28]), 4)
  {
    var magic := src[MAX_BLOCK_HANDLE..];
    FixedOf(magic[..8]);
    FixedOf(magic[8..][..4]);
    assert magic[..8] == src[20..28] && magic[8..][..4] == src[28..32];
  }
}
