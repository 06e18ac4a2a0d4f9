/** Building a blob file and reading it back. */
module BlobRoundTrip {
  import opened Types
  import opened Ordering
  import opened Coding
  import opened Codec
  import opened BlobLayout
  import opened BlobFileBuilding
  import opened BlobFileIterating

  /** Every item has a record. */
  predicate AllRecords(items: seq<Item>, recs: seq<Rec>) {
    |items| == |recs| && forall i :: 0 <= i < |items| ==> items[i].rec == Some(recs[i])
  }

  lemma {:induction false} RecsOfAll(items: seq<Item>, recs: seq<Rec>)
    requires AllRecords(items, recs)
    ensures RecsOf(items) == recs
  {
    if items != [] {
      var last := |items| - 1;
      RecsOfAll(items[..last], recs[..last]);
      assert recs == recs[..last] + [recs[last]];
    }
  }

  /** The builder handed out, for each record, the place where it stands. */
  lemma PlacesAre(fmt: Format, dict: Bytes, items: seq<Item>, recs: seq<Rec>, i: nat)
    requires AllRecords(items, recs) && i < |recs|
    ensures Placed(fmt, dict, items)[i].handle == HandleOf(fmt, dict, recs, i)
  {
    PlacedAt(fmt, dict, items, i);
    RecsOfAll(items, recs);
    RecsOfAll(items[..i], recs[..i]);
  }

  lemma AllMore(items: seq<Item>, recs: seq<Rec>, i: nat, ctx: Ctx)
    requires i < |recs| && AllRecords(items, recs[..i])
    ensures AllRecords(items + [Item(ctx, Some(recs[i]))], recs[..i + 1])
  {
  }

  method AddAll(builder: BlobFileBuilder, recs: seq<Rec>) returns (out: seq<Ctx>)
    requires builder.Valid() && builder.items == [] && builder.Delivered() == []
    modifies builder
    ensures builder.Valid() && AllRecords(builder.items, recs) && out == builder.Delivered()
  {
    out := [];
    for i := 0 to |recs|
      invariant builder.Valid() && AllRecords(builder.items, recs[..i]) && out == builder.Delivered()
    {
      var ctx := Ctx(InternalKey(recs[i].key, 0, Plain), 0, ZERO_HANDLE, false, []);
      AllMore(builder.items, recs, i, ctx);
      var more := builder.Add(recs[i], ctx);
      out := out + more;
    }
    assert recs[..|recs|] == recs;
  }

  /** A builder given nothing but records. */
  method BuildFile(fmt: Format, le: Le, useDict: bool, trainBytes: nat, recs: seq<Rec>)
    returns (file: Bytes, out: seq<Ctx>, ghost dict: Bytes)
    ensures file == FileBytes(fmt, Image(useDict, dict, recs)) && (!useDict ==> dict == [])
    ensures |out| == |recs| && forall i :: 0 <= i < |recs| ==> out[i].handle == HandleOf(fmt, dict, recs, i)
  {
    var builder := new BlobFileBuilder(fmt, le, useDict, trainBytes);
    out := AddAll(builder, recs);
    var more := builder.Finish();
    out := out + more;
    file, dict := builder.file, builder.dict;
    RecsOfAll(builder.items, recs);
    forall i | 0 <= i < |recs|
      ensures out[i].handle == HandleOf(fmt, dict, recs, i)
    {
      PlacesAre(fmt, dict, builder.items, recs, i);
    }
  }

  /**
   The first pass over a built file yields exactly the records that were added, in order, each
   with the offset, size and ordinal that the builder handed out for it.
   */
  method BuildAndRead(fmt: Format, reader: Reader, le: Le, useDict: bool, trainBytes: nat, recs: seq<Rec>, fileEntries: nat)
    returns (file: Bytes, out: seq<Ctx>, read: seq<(Rec, Handle)>)
    requires Inverts(fmt, reader, useDict) && |recs| <= fileEntries
    requires forall i :: 0 <= i < |recs| ==> RecFits(fmt, recs[i])
    ensures |out| == |recs|
    ensures |file| < TWO_64 ==> |read| == |recs| && forall i :: 0 <= i < |recs| ==> read[i] == (recs[i], out[i].handle)
  {
    ghost var dict;
    file, out, dict := BuildFile(fmt, le, useDict, trainBytes, recs);
    read := [];
    if |file| < TWO_64 {
      read := ReadAll(reader, file, fileEntries, fmt, Image(useDict, dict, recs));
    }
  }
}
