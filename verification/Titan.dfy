/** The blob file and table theorems for the format and the codecs that are in use. */
module Titan {
  import opened Types
  import opened Ordering
  import opened Coding
  import opened Codec
  import opened BlobLayout
  import opened BlobFile
  import opened BlobFileBuilding
  import opened BlobFileIterating
  import BlobRoundTrip
  import opened TableBuilding

  // ---- a library that keeps the laws

  function PlainIndex(h: BlockHandle): Bytes {
    Varint(h.offset) + Varint(h.size)
  }

  function PlainFind(src: Bytes): Option<BlockHandle> {
    match ReadVarint(src, |src|)
    case Fail => None
    case Got(offset, rest) =>
      match ReadVarint(rest, |rest|)
      case Fail => None
      case Got(size, _) => Some(BlockHandle(offset, size))
  }

  lemma PlainFound(h: BlockHandle)
    ensures PlainFind(PlainIndex(h)) == Some(h)
  {
    VarintReads(h.offset, Varint(h.size), |PlainIndex(h)|);
    VarintReads(h.size, [], |Varint(h.size)|);
    assert Varint(h.size) + [] == Varint(h.size);
  }

  /** No compression and constant checksums. */
  function PlainLib(): Lib {
    Lib((dict, r) => (0, r), (dict, t, data) => None, samples => [], b => 0, b => [0, 0, 0, 0, 0], PlainIndex, PlainFind)
  }

  lemma PlainIsLawful()
    ensures Lawful(PlainLib())
  {
    forall h
      ensures |PlainIndex(h)| > 0 && PlainFind(PlainIndex(h)) == Some(h)
    {
      PlainFound(h);
    }
    assert forall dict, r :: CompressLaw(PlainLib(), dict, r);
  }

  // ---- blob files

  lemma AllFit(lib: Lib, useDict: bool, recs: seq<Rec>)
    requires forall i :: 0 <= i < |recs| ==> Fits(recs[i])
    ensures forall i :: 0 <= i < |recs| ==> RecFits(FormatOf(lib, useDict), recs[i])
  {
  }

  /** Whatever the library, as long as it keeps its laws: what is built is read back, record by record. */
  method BuildAndRead(lib: Lib, le: Le, useDict: bool, trainBytes: nat, recs: seq<Rec>, fileEntries: nat)
    returns (file: Bytes, out: seq<Ctx>, read: seq<(Rec, Handle)>)
    requires Lawful(lib) && |recs| <= fileEntries && forall i :: 0 <= i < |recs| ==> Fits(recs[i])
    ensures |out| == |recs|
    ensures |file| < TWO_64 ==> |read| == |recs| && forall i :: 0 <= i < |recs| ==> read[i] == (recs[i], out[i].handle)
  {
    LibInverts(lib, useDict);
    AllFit(lib, useDict, recs);
    file, out, read := BlobRoundTrip.BuildAndRead(FormatOf(lib, useDict), ReaderOf(lib), le, useDict, trainBytes, recs, fileEntries);
  }

  /** IterateForPrev on a built file lands on the record that holds the offset. */
  lemma PrevLandsInFile(lib: Lib, img: Image, file: Bytes, c: Cursor, target: nat)
    requires Lawful(lib) && IsImage(FormatOf(lib, img.useDict), img, file) && Opened(FormatOf(lib, img.useDict), img, c)
    requires FILE_HEADER <= target < c.end
    ensures var c' := Before(ReaderOf(lib), file, c, target);
            c'.ok && Around(FormatOf(lib, img.useDict), img, c', target)
  {
    var fmt, reader := FormatOf(lib, img.useDict), ReaderOf(lib);
    LibInverts(lib, img.useDict);
    ImageReadable(fmt, reader, img, file);
    PrevLands(fmt, reader, img, file, c, target);
  }

  // ---- tables

  function EnvOf(lib: Lib, useDict: bool, le: Le, readBlob: BlobIndex -> Option<Rec>, findFile: nat -> Option<FileInfo>): Env {
    Env(FormatOf(lib, useDict), ReaderOf(lib), le, EncodeIndex, DecodedIndex, readBlob, findFile)
  }

  lemma EnvLaws(lib: Lib, useDict: bool, le: Le, readBlob: BlobIndex -> Option<Rec>, findFile: nat -> Option<FileInfo>)
    requires Lawful(lib)
    ensures var env := EnvOf(lib, useDict, le, readBlob, findFile);
            Inverts(env.fmt, env.reader, useDict) && IndexLaw(env)
  {
    LibInverts(lib, useDict);
    RealIndexLaw(EnvOf(lib, useDict, le, readBlob, findFile));
  }

  /** The table theorem for the real blob file format and the real index codec. */
  method BuildTable(lib: Lib, le: Le, readBlob: BlobIndex -> Option<Rec>, findFile: nat -> Option<FileInfo>,
                    opts: Options, first: nat, stream: seq<Entry>)
    returns (ok: bool, base: seq<Entry>, files: map<nat, Bytes>)
    requires Lawful(lib) && AllAcceptable(EnvOf(lib, opts.useDict, le, readBlob, findFile), first, stream)
    ensures var env := EnvOf(lib, opts.useDict, le, readBlob, findFile);
            && (ok <==> NoneBroken(env, opts, stream))
            && (ok && SizesOk(files) ==>
                  |base| == |stream| && forall j :: 0 <= j < |stream| ==> Answers(env, opts, files, stream[j], base[j]))
  {
    EnvLaws(lib, opts.useDict, le, readBlob, findFile);
    ok, base, files := TableBuilding.BuildTable(EnvOf(lib, opts.useDict, le, readBlob, findFile), opts, first, stream);
  }
}
