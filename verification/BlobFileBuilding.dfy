/** Building a blob file record by record, with or without a trained dictionary. */
module BlobFileBuilding {
  import opened Types
  import opened Ordering
  import opened Coding
  import opened Codec
  import opened BlobLayout

  datatype Kind = Plain | Index | Other(tag: nat)

  /** A parsed internal key. */
  datatype InternalKey = InternalKey(user: Key, sequence: nat, kind: Kind)

  /** A base-table entry that waits for its blob handle, or, with a value, for its turn. */
  datatype Ctx = Ctx(key: InternalKey, file: nat, handle: Handle, hasValue: bool, value: Bytes)

  /** What a builder was given: a context, and the record that goes with it if any. */
  datatype Item = Item(ctx: Ctx, rec: Option<Rec>)

  function RecsOf(items: seq<Item>): (r: seq<Rec>)
    ensures |r| <= |items|
  {
    if items == [] then []
    else
      var last := items[|items| - 1];
      RecsOf(items[..|items| - 1]) + if last.rec.Some? then [last.rec.value] else []
  }

  function CtxsOf(items: seq<Item>): (r: seq<Ctx>)
    ensures |r| == |items|
    ensures forall i :: 0 <= i < |items| ==> r[i] == items[i].ctx
  {
    seq(|items|, i requires 0 <= i < |items| => items[i].ctx)
  }

  function SamplesOf(fmt: Format, recs: seq<Rec>): (r: seq<Bytes>)
    ensures |r| == |recs|
    ensures forall i :: 0 <= i < |recs| ==> r[i] == fmt.encode(recs[i])
  {
    seq(|recs|, i requires 0 <= i < |recs| => fmt.encode(recs[i]))
  }

  /** A context with the place its record takes after `before`. */
  function PlaceAfter(fmt: Format, dict: Bytes, before: seq<Rec>, item: Item): Ctx {
    if item.rec.None? then item.ctx
    else
      item.ctx.(handle := Handle(|fmt.head| + |Body(fmt, dict, before)|, |Stored(fmt, dict, item.rec.value)|, |before|))
  }

  /** The contexts in order, each with its place in the file. */
  function Placed(fmt: Format, dict: Bytes, items: seq<Item>): (r: seq<Ctx>)
    ensures |r| == |items|
  {
    if items == [] then []
    else
      var before := items[..|items| - 1];
      Placed(fmt, dict, before) + [PlaceAfter(fmt, dict, RecsOf(before), items[|items| - 1])]
  }

  lemma OneMore(fmt: Format, dict: Bytes, items: seq<Item>, n: nat)
    requires n < |items|
    ensures RecsOf(items[..n + 1]) == RecsOf(items[..n]) + if items[n].rec.Some? then [items[n].rec.value] else []
    ensures Placed(fmt, dict, items[..n + 1]) ==
              Placed(fmt, dict, items[..n]) + [PlaceAfter(fmt, dict, RecsOf(items[..n]), items[n])]
  {
    assert items[..n + 1][..n] == items[..n];
  }

  /** Records of a prefix are a prefix of the records. */
  lemma {:induction false} RecsPrefix(items: seq<Item>, n: nat)
    requires n <= |items|
    ensures |RecsOf(items[..n])| <= |RecsOf(items)| && RecsOf(items)[..|RecsOf(items[..n])|] == RecsOf(items[..n])
    decreases |items|
  {
    if n == |items| {
      assert items[..n] == items;
    } else {
      var last := |items| - 1;
      RecsPrefix(items[..last], n);
      assert items[..last][..n] == items[..n];
    }
  }

  /** The handle a context ends up with is the one under which its record is found in the file. */
  lemma {:induction false} PlacedAt(fmt: Format, dict: Bytes, items: seq<Item>, j: nat)
    requires j < |items|
    ensures items[j].rec.None? ==> Placed(fmt, dict, items)[j] == items[j].ctx
    ensures items[j].rec.Some? ==>
              var recs, i := RecsOf(items), |RecsOf(items[..j])|;
              && i < |recs| && recs[i] == items[j].rec.value
              && Placed(fmt, dict, items)[j] == items[j].ctx.(handle := HandleOf(fmt, dict, recs, i))
    decreases |items|
  {
    var last := |items| - 1;
    OneMore(fmt, dict, items, last);
    assert items[..last + 1] == items;
    if j < last {
      PlacedAt(fmt, dict, items[..last], j);
      assert items[..last][..j] == items[..j];
      RecsPrefix(items, last);
      RecsPrefix(items[..last], j);
      var i := |RecsOf(items[..j])|;
      if items[j].rec.Some? {
        assert RecsOf(items[..last])[..i] == RecsOf(items)[..i];
      }
    } else {
      assert items[..j] == items[..last];
      RecsPrefix(items, last);
    }
  }

  /** A context has a value exactly when it has no record. */
  predicate Matched(items: seq<Item>) {
    forall i :: 0 <= i < |items| ==> (items[i].rec.None? <==> items[i].ctx.hasValue)
  }

  lemma Appended(fmt: Format, dict: Bytes, items: seq<Item>, item: Item)
    ensures var more := items + [item];
            && (item.rec.Some? ==> RecsOf(more) == RecsOf(items) + [item.rec.value])
            && (item.rec.None? ==> RecsOf(more) == RecsOf(items))
            && CtxsOf(more) == CtxsOf(items) + [item.ctx]
            && Placed(fmt, dict, more) == Placed(fmt, dict, items) + [PlaceAfter(fmt, dict, RecsOf(items), item)]
  {
    assert (items + [item])[..|items|] == items;
  }

  /** Buffered samples and contexts are those of the items. */
  predicate Waiting(fmt: Format, samples: seq<Bytes>, cached: seq<Ctx>, items: seq<Item>) {
    samples == SamplesOf(fmt, RecsOf(items)) && cached == CtxsOf(items)
  }

  lemma WaitingMore(fmt: Format, samples: seq<Bytes>, cached: seq<Ctx>, items: seq<Item>, item: Item)
    requires Waiting(fmt, samples, cached, items)
    ensures Waiting(fmt, if item.rec.Some? then samples + [fmt.encode(item.rec.value)] else samples, cached + [item.ctx],
                    items + [item])
  {
    Appended(fmt, [], items, item);
    if item.rec.Some? {
      assert SamplesOf(fmt, RecsOf(items) + [item.rec.value]) == SamplesOf(fmt, RecsOf(items)) + [fmt.encode(item.rec.value)];
    }
  }

  predicate Ranged(le: Le, smallest: Key, largest: Key, recs: seq<Rec>) {
    smallest == Smallest(le, recs) && largest == Largest(le, recs)
  }

  lemma RangedMore(le: Le, smallest: Key, largest: Key, recs: seq<Rec>, rec: Rec)
    requires Ranged(le, smallest, largest, recs)
    ensures Ranged(le, if smallest == [] || Less(le, rec.key, smallest) then rec.key else smallest,
                   if largest == [] || Less(le, largest, rec.key) then rec.key else largest, recs + [rec])
  {
    assert (recs + [rec])[..|recs|] == recs;
  }

  // ---- flushing the samples

  lemma ValueStep(fmt: Format, dict: Bytes, items: seq<Item>, c: nat)
    requires c < |items| && items[c].rec.None?
    ensures RecsOf(items[..c + 1]) == RecsOf(items[..c])
    ensures Placed(fmt, dict, items[..c + 1]) == Placed(fmt, dict, items[..c]) + [items[c].ctx]
  {
    OneMore(fmt, dict, items, c);
  }

  lemma RecordStep(fmt: Format, dict: Bytes, items: seq<Item>, c: nat)
    requires c < |items| && items[c].rec.Some?
    ensures var before := RecsOf(items[..c]);
            && RecsOf(items[..c + 1]) == before + [items[c].rec.value]
            && |before| < |RecsOf(items)| && RecsOf(items)[|before|] == items[c].rec.value
            && Placed(fmt, dict, items[..c + 1]) ==
                 Placed(fmt, dict, items[..c]) + [PlaceAfter(fmt, dict, before, items[c])]
  {
    OneMore(fmt, dict, items, c);
    RecsPrefix(items, c + 1);
  }

  /** While records are missing, so are contexts. */
  lemma NotAtEnd(items: seq<Item>, c: nat)
    requires c <= |items| && |RecsOf(items[..c])| < |RecsOf(items)|
    ensures c < |items|
  {
    assert items[..|items|] == items;
  }

  /** Once all records are written, only values are left. */
  lemma OnlyValuesLeft(items: seq<Item>, c: nat)
    requires c < |items| && |RecsOf(items[..c])| == |RecsOf(items)|
    ensures items[c].rec.None?
  {
    RecsPrefix(items, c + 1);
    assert items[..c + 1][..c] == items[..c];
  }

  // ---- key range

  /** The running smallest key: an empty one stands for "none yet". */
  function Smallest(le: Le, recs: seq<Rec>): Key {
    if recs == [] then []
    else
      var k, before := recs[|recs| - 1].key, Smallest(le, recs[..|recs| - 1]);
      if before == [] || Less(le, k, before) then k else before
  }

  function Largest(le: Le, recs: seq<Rec>): Key {
    if recs == [] then []
    else
      var k, before := recs[|recs| - 1].key, Largest(le, recs[..|recs| - 1]);
      if before == [] || Less(le, before, k) then k else before
  }

  /** Without empty keys the file's range is exact. */
  lemma {:induction false} RangeExact(le: Le, recs: seq<Rec>)
    requires Total(le) && recs != [] && forall i :: 0 <= i < |recs| ==> recs[i].key != []
    ensures forall i :: 0 <= i < |recs| ==> le(Smallest(le, recs), recs[i].key) && le(recs[i].key, Largest(le, recs))
    ensures exists i :: 0 <= i < |recs| && recs[i].key == Smallest(le, recs)
    ensures exists i :: 0 <= i < |recs| && recs[i].key == Largest(le, recs)
  {
    var last := |recs| - 1;
    assert recs[last].key == recs[last].key;
    if last > 0 {
      RangeExact(le, recs[..last]);
      var s :| 0 <= s < last && recs[..last][s].key == Smallest(le, recs[..last]);
      var l :| 0 <= l < last && recs[..last][l].key == Largest(le, recs[..last]);
      assert recs[s].key == Smallest(le, recs[..last]) && recs[l].key == Largest(le, recs[..last]);
      assert forall i :: 0 <= i < last ==> recs[i] == recs[..last][i];
    }
  }

  predicate InRange(le: Le, recs: seq<Rec>) {
    forall i :: 0 <= i < |recs| ==> le(Smallest(le, recs), recs[i].key) && le(recs[i].key, Largest(le, recs))
  }

  lemma {:induction false} LargestIs(le: Le, recs: seq<Rec>)
    requires Total(le) && forall k :: le([], k)
    ensures forall i :: 0 <= i < |recs| ==> le(recs[i].key, Largest(le, recs))
  {
    if recs != [] {
      var last := |recs| - 1;
      LargestIs(le, recs[..last]);
      assert forall i :: 0 <= i < last ==> recs[i] == recs[..last][i];
    }
  }

  /**
   An empty user key is taken for "none yet".  Where the empty key comes first in the order, as it
   does bytewise, the range covers all records exactly when no key is empty or the last one is.
   */
  lemma InRangeIff(le: Le, recs: seq<Rec>)
    requires Total(le) && recs != [] && forall k :: le([], k)
    ensures InRange(le, recs) <==> (forall i :: 0 <= i < |recs| ==> recs[i].key != []) || recs[|recs| - 1].key == []
  {
    LargestIs(le, recs);
    if recs[|recs| - 1].key == [] {
      assert Smallest(le, recs) == [];
    } else if forall i :: 0 <= i < |recs| ==> recs[i].key != [] {
      RangeExact(le, recs);
    } else {
      assert Smallest(le, recs) != [];
    }
  }

  lemma EmptyKeyFallsOut()
    ensures exists recs: seq<Rec> :: |recs| == 2 && recs[0].key == [] && !InRange(Bytewise, recs)
  {
    var recs := [Rec([], []), Rec([1], [])];
    BytewiseIsTotal();
    InRangeIff(Bytewise, recs);
    assert recs[0].key == [];
  }

  // ---- the builder's state

  datatype BuilderState = BuilderState(
    fmt: Format, le: Le, useDict: bool, buffered: bool, file: Bytes, dict: Bytes, samples: seq<Bytes>,
    cached: seq<Ctx>, numEntries: nat, liveDataSize: nat, smallest: Key, largest: Key, items: seq<Item>)

  /** These records are in the file, and nothing else. */
  predicate Wrote(s: BuilderState, recs: seq<Rec>) {
    && s.file == Records(s.fmt, s.dict, recs)
    && s.numEntries == |recs|
    && s.liveDataSize == |Body(s.fmt, s.dict, recs)|
  }

  /** Buffered items wait in memory; once unbuffered they are all in the file. */
  predicate Consistent(s: BuilderState) {
    && Ranged(s.le, s.smallest, s.largest, RecsOf(s.items))
    && Matched(s.items)
    && (!s.useDict ==> s.dict == [])
    && if s.buffered then s.useDict && Wrote(s, []) && Waiting(s.fmt, s.samples, s.cached, s.items)
       else Wrote(s, RecsOf(s.items)) && s.samples == [] && s.cached == []
  }

  /** Contexts below c are out, and their records are written. */
  predicate Flushed(s: BuilderState, written: nat, c: nat, out: seq<Ctx>) {
    && c <= |s.items| && written == |RecsOf(s.items[..c])|
    && Wrote(s, RecsOf(s.items[..c]))
    && out == Placed(s.fmt, s.dict, s.items[..c])
  }

  function WithRecord(s: BuilderState, rec: Rec): BuilderState {
    var stored := Stored(s.fmt, s.dict, rec);
    s.(file := s.file + stored, numEntries := s.numEntries + 1, liveDataSize := s.liveDataSize + |stored|)
  }

  function NextHandle(s: BuilderState, rec: Rec): Handle {
    Handle(|s.file|, |Stored(s.fmt, s.dict, rec)|, s.numEntries)
  }

  lemma RecordWritten(s: BuilderState, recs: seq<Rec>, rec: Rec)
    requires Wrote(s, recs)
    ensures Wrote(WithRecord(s, rec), recs + [rec])
    ensures NextHandle(s, rec) == Handle(|s.fmt.head| + |Body(s.fmt, s.dict, recs)|, |Stored(s.fmt, s.dict, rec)|, |recs|)
  {
    BodyMore(s.fmt, s.dict, recs, rec);
    Regroup(s.fmt.head, Body(s.fmt, s.dict, recs), Stored(s.fmt, s.dict, rec));
  }

  lemma SmallAdded(s: BuilderState, ctx: Ctx)
    requires Consistent(s) && s.buffered && ctx.hasValue
    ensures Consistent(s.(cached := s.cached + [ctx], items := s.items + [Item(ctx, None)]))
  {
    Appended(s.fmt, s.dict, s.items, Item(ctx, None));
    WaitingMore(s.fmt, s.samples, s.cached, s.items, Item(ctx, None));
  }

  function Widened(s: BuilderState, rec: Rec): BuilderState {
    s.(smallest := if s.smallest == [] || Less(s.le, rec.key, s.smallest) then rec.key else s.smallest,
       largest := if s.largest == [] || Less(s.le, s.largest, rec.key) then rec.key else s.largest)
  }

  lemma WroteSame(s: BuilderState, s': BuilderState, recs: seq<Rec>)
    requires Wrote(s, recs)
    requires s'.fmt == s.fmt && s'.dict == s.dict && s'.file == s.file
    requires s'.numEntries == s.numEntries && s'.liveDataSize == s.liveDataSize
    ensures Wrote(s', recs)
  {
  }

  lemma MatchedMore(items: seq<Item>, item: Item)
    requires Matched(items) && (item.rec.None? <==> item.ctx.hasValue)
    ensures Matched(items + [item])
  {
  }

  lemma RecordBuffered(s: BuilderState, rec: Rec, ctx: Ctx, s': BuilderState)
    requires Consistent(s) && s.buffered && !ctx.hasValue
    requires s' == Widened(s, rec).(samples := s.samples + [s.fmt.encode(rec)], cached := s.cached + [ctx],
                                    items := s.items + [Item(ctx, Some(rec))])
    ensures Consistent(s')
  {
    var item := Item(ctx, Some(rec));
    WaitingMore(s.fmt, s.samples, s.cached, s.items, item);
    WroteSame(s, s', []);
    MatchedMore(s.items, item);
    assert Ranged(s'.le, s'.smallest, s'.largest, RecsOf(s'.items)) by {
      Appended(s.fmt, s.dict, s.items, item);
      RangedMore(s.le, s.smallest, s.largest, RecsOf(s.items), rec);
    }
  }

  lemma RecordPlaced(s: BuilderState, rec: Rec, ctx: Ctx)
    requires Consistent(s) && !s.buffered && !ctx.hasValue
    ensures Consistent(WithRecord(Widened(s, rec), rec).(items := s.items + [Item(ctx, Some(rec))]))
  {
    Appended(s.fmt, s.dict, s.items, Item(ctx, Some(rec)));
    RangedMore(s.le, s.smallest, s.largest, RecsOf(s.items), rec);
    RecordWritten(s, RecsOf(s.items), rec);
    RecordKeeps(s, rec, ctx, RecsOf(s.items) + [rec]);
  }

  lemma RecordKeeps(s: BuilderState, rec: Rec, ctx: Ctx, recs: seq<Rec>)
    requires Wrote(WithRecord(s, rec), recs)
    ensures Wrote(WithRecord(Widened(s, rec), rec).(items := s.items + [Item(ctx, Some(rec))]), recs)
  {
  }

  lemma RecordsContext(s: BuilderState, rec: Rec, ctx: Ctx)
    requires Wrote(s, RecsOf(s.items))
    ensures Placed(s.fmt, s.dict, s.items + [Item(ctx, Some(rec))]) ==
              Placed(s.fmt, s.dict, s.items) + [ctx.(handle := NextHandle(s, rec))]
  {
    Appended(s.fmt, s.dict, s.items, Item(ctx, Some(rec)));
    RecordWritten(s, RecsOf(s.items), rec);
  }

  lemma FlushBegins(s: BuilderState, dict: Bytes)
    requires Wrote(s, [])
    ensures Flushed(s.(dict := dict), 0, 0, [])
  {
    assert s.items[..0] == [];
  }

  lemma FlushValue(s: BuilderState, written: nat, c: nat, out: seq<Ctx>)
    requires Flushed(s, written, c, out) && c < |s.items| && s.items[c].rec.None?
    ensures Flushed(s, written, c + 1, out + [s.items[c].ctx])
  {
    ValueStep(s.fmt, s.dict, s.items, c);
  }

  lemma FlushRecord(s: BuilderState, written: nat, c: nat, out: seq<Ctx>)
    requires Flushed(s, written, c, out) && c < |s.items| && s.items[c].rec.Some?
    ensures written < |RecsOf(s.items)| && RecsOf(s.items)[written] == s.items[c].rec.value
    ensures var rec := s.items[c].rec.value;
            Flushed(WithRecord(s, rec), written + 1, c + 1, out + [s.items[c].ctx.(handle := NextHandle(s, rec))])
  {
    RecordStep(s.fmt, s.dict, s.items, c);
    RecordWritten(s, RecsOf(s.items[..c]), s.items[c].rec.value);
  }

  lemma FlushEnds(s: BuilderState, written: nat, out: seq<Ctx>, s': BuilderState)
    requires Flushed(s, written, |s.items|, out)
    requires Ranged(s.le, s.smallest, s.largest, RecsOf(s.items)) && Matched(s.items) && s.useDict
    requires s' == s.(buffered := false, samples := [], cached := [])
    ensures Consistent(s') && out == Placed(s.fmt, s.dict, s.items)
  {
    assert s.items[..|s.items|] == s.items;
  }

  class BlobFileBuilder {
    const fmt: Format
    const le: Le
    const useDict: bool
    const trainBytes: nat
    var buffered: bool
    var file: Bytes
    var dict: Bytes
    var samples: seq<Bytes>
    var sampleLength: nat
    var cached: seq<Ctx>
    var numEntries: nat
    var liveDataSize: nat
    var smallest: Key
    var largest: Key
    ghost var items: seq<Item>

    ghost function State(): BuilderState
      reads this
    {
      BuilderState(fmt, le, useDict, buffered, file, dict, samples, cached, numEntries, liveDataSize, smallest, largest, items)
    }

    ghost predicate Valid()
      reads this
    {
      Consistent(State())
    }

    /** The contexts handed out so far. */
    ghost function Delivered(): seq<Ctx>
      reads this
    {
      if buffered then [] else Placed(fmt, dict, items)
    }

    constructor (fmt: Format, le: Le, useDict: bool, trainBytes: nat)
      ensures Valid() && items == [] && buffered == useDict && Delivered() == [] && sampleLength == 0
      ensures this.fmt == fmt && this.le == le && this.useDict == useDict && this.trainBytes == trainBytes
    {
      this.fmt, this.le, this.useDict, this.trainBytes := fmt, le, useDict, trainBytes;
      buffered := useDict;
      file := fmt.head;
      dict, samples, sampleLength, cached, numEntries, liveDataSize := [], [], 0, [], 0, 0;
      smallest, largest, items := [], [], [];
      new;
      assert file == Records(fmt, dict, []);
    }

    /** Appends one record that is already encoded. */
    method WriteEncoderData(encoded: Bytes) returns (handle: Handle)
      modifies this`file, this`numEntries, this`liveDataSize
      ensures forall rec :: encoded == fmt.encode(rec) ==>
                State() == WithRecord(old(State()), rec) && handle == NextHandle(old(State()), rec)
    {
      var stored := fmt.store(dict, encoded);
      handle := Handle(|file|, |stored|, numEntries);
      liveDataSize := liveDataSize + handle.size;
      file := file + stored;
      numEntries := numEntries + 1;
    }

    /** Writes the sampled records and releases the cached contexts in the order they came. */
    method FlushSampleRecords() returns (out: seq<Ctx>)
      requires Flushed(State(), 0, 0, []) && Waiting(fmt, samples, cached, items) && Matched(items)
      modifies this`file, this`numEntries, this`liveDataSize
      ensures Flushed(State(), |RecsOf(items)|, |items|, out)
    {
      out := [];
      var s, c := 0, 0;
      while s < |samples|
        invariant Flushed(State(), s, c, out) && s <= |samples|
      {
        c, out := FlushValues(s, c, out);
        NotAtEnd(items, c);
        var placed := FlushSample(s, c, out);
        out := out + [placed];
        s, c := s + 1, c + 1;
      }
      out := FlushRest(s, c, out);
    }

    method FlushSample(s: nat, c: nat, ghost out: seq<Ctx>) returns (placed: Ctx)
      requires Flushed(State(), s, c, out) && c < |items| && items[c].rec.Some? && Waiting(fmt, samples, cached, items)
      modifies this`file, this`numEntries, this`liveDataSize
      ensures Flushed(State(), s + 1, c + 1, out + [placed])
      ensures s < |samples|
    {
      FlushRecord(State(), s, c, out);
      var handle := WriteEncoderData(samples[s]);
      placed := cached[c].(handle := handle);
    }

    method FlushRest(s: nat, c0: nat, out0: seq<Ctx>) returns (out: seq<Ctx>)
      requires Flushed(State(), s, c0, out0) && s == |RecsOf(items)| && cached == CtxsOf(items)
      ensures Flushed(State(), s, |items|, out)
    {
      var c := c0;
      out := out0;
      while c < |cached|
        invariant Flushed(State(), s, c, out)
      {
        OnlyValuesLeft(items, c);
        FlushValue(State(), s, c, out);
        out := out + [cached[c]];
        c := c + 1;
      }
    }

    /** The inner loop: contexts with values go out as they are. */
    method FlushValues(s: nat, c0: nat, out0: seq<Ctx>) returns (c: nat, out: seq<Ctx>)
      requires Flushed(State(), s, c0, out0) && cached == CtxsOf(items) && Matched(items)
      ensures Flushed(State(), s, c, out)
      ensures c < |cached| ==> !cached[c].hasValue
    {
      c, out := c0, out0;
      while c < |cached| && cached[c].hasValue
        invariant Flushed(State(), s, c, out)
      {
        FlushValue(State(), s, c, out);
        out := out + [cached[c]];
        c := c + 1;
      }
    }

    method EnterUnbuffered() returns (out: seq<Ctx>)
      requires Valid() && buffered
      modifies this
      ensures Valid() && !buffered && items == old(items)
      ensures out == Delivered()
      ensures dict == fmt.train(SamplesOf(fmt, RecsOf(items)))
    {
      FlushBegins(State(), fmt.train(samples));
      dict := fmt.train(samples);
      out := FlushSampleRecords();
      Unbuffer(out);
    }

    method Unbuffer(ghost out: seq<Ctx>)
      requires Flushed(State(), |RecsOf(items)|, |items|, out)
      requires Ranged(le, smallest, largest, RecsOf(items)) && Matched(items) && useDict
      modifies this`samples, this`sampleLength, this`cached, this`buffered
      ensures Valid() && !buffered && out == Delivered()
    {
      ghost var s := State();
      samples, sampleLength, cached := [], 0, [];
      buffered := false;
      FlushEnds(s, |RecsOf(items)|, out, State());
    }

    method Add(rec: Rec, ctx: Ctx) returns (out: seq<Ctx>)
      requires Valid() && !ctx.hasValue
      modifies this
      ensures Valid() && items == old(items) + [Item(ctx, Some(rec))]
      ensures Delivered() == old(Delivered()) + out
      ensures !old(buffered) ==> !buffered && dict == old(dict)
      ensures old(buffered) ==> (buffered <==> trainBytes == 0 || old(sampleLength) + |fmt.encode(rec)| < trainBytes)
      ensures buffered ==> sampleLength == old(sampleLength) + |fmt.encode(rec)|
      ensures old(buffered) && !buffered ==> dict == fmt.train(SamplesOf(fmt, RecsOf(items)))
    {
      out := [];
      if buffered {
        Buffer(rec, ctx);
        if trainBytes > 0 && sampleLength >= trainBytes {
          out := EnterUnbuffered();
        }
      } else {
        var placed := Write(rec, ctx);
        out := [placed];
      }
    }

    method Buffer(rec: Rec, ctx: Ctx)
      requires Valid() && !ctx.hasValue && buffered
      modifies this
      ensures Valid() && items == old(items) + [Item(ctx, Some(rec))] && buffered
      ensures sampleLength == old(sampleLength) + |fmt.encode(rec)|
    {
      ghost var s := State();
      WidenRange(rec);
      samples := samples + [fmt.encode(rec)];
      sampleLength := sampleLength + |fmt.encode(rec)|;
      cached := cached + [ctx];
      items := items + [Item(ctx, Some(rec))];
      RecordBuffered(s, rec, ctx, State());
    }

    method Write(rec: Rec, ctx: Ctx) returns (placed: Ctx)
      requires Valid() && !ctx.hasValue && !buffered
      modifies this
      ensures Valid() && items == old(items) + [Item(ctx, Some(rec))] && !buffered && dict == old(dict)
      ensures Delivered() == old(Delivered()) + [placed]
    {
      RecordPlaced(State(), rec, ctx);
      RecordsContext(State(), rec, ctx);
      WidenRange(rec);
      var handle := WriteEncoderData(fmt.encode(rec));
      items := items + [Item(ctx, Some(rec))];
      placed := ctx.(handle := handle);
    }

    method WidenRange(rec: Rec)
      modifies this`smallest, this`largest
      ensures State() == Widened(old(State()), rec)
    {
      if smallest == [] || Less(le, rec.key, smallest) {
        smallest := rec.key;
      }
      if largest == [] || Less(le, largest, rec.key) {
        largest := rec.key;
      }
    }

    /** A context that only waits for its turn; the caller keeps to the buffered state. */
    method AddSmall(ctx: Ctx)
      requires Valid() && buffered && ctx.hasValue
      modifies this`cached, this`items
      ensures Valid() && items == old(items) + [Item(ctx, None)]
    {
      SmallAdded(State(), ctx);
      items := items + [Item(ctx, None)];
      cached := cached + [ctx];
    }

    method WriteRawBlock(block: Bytes) returns (handle: BlockHandle)
      modifies this`file
      ensures file == old(file) + RawBlock(fmt, block)
      ensures handle == BlockHandle(|old(file)|, |block|)
    {
      handle := BlockHandle(|file|, |block|);
      file := file + block;
      file := file + fmt.trailer(block);
    }

    /** The file is complete and every context is out. */
    method Finish() returns (out: seq<Ctx>)
      requires Valid()
      modifies this
      ensures items == old(items) && !buffered
      ensures Delivered() == old(Delivered()) + out
      ensures file == FileBytes(fmt, Image(useDict, dict, RecsOf(items)))
      ensures (!old(buffered) ==> dict == old(dict)) && (!useDict ==> dict == [])
      ensures old(buffered) ==> dict == fmt.train(SamplesOf(fmt, RecsOf(items)))
      ensures numEntries == |RecsOf(items)| && Ranged(le, smallest, largest, RecsOf(items))
    {
      out := [];
      if buffered {
        out := EnterUnbuffered();
      }
      WriteEnd();
    }

    method WriteEnd()
      requires Valid() && !buffered
      modifies this`file
      ensures file == FileBytes(fmt, Image(useDict, dict, RecsOf(items)))
    {
      ghost var records := file;
      var handle := BlockHandle(0, 0);
      if useDict {
        var dictHandle := WriteRawBlock(dict);
        handle := WriteRawBlock(fmt.metaIndex(dictHandle));
        Regroup(records, RawBlock(fmt, dict), RawBlock(fmt, fmt.metaIndex(dictHandle)));
      } else {
        assert records + [] == records;
      }
      Regroup(records, Tail(fmt, useDict, dict, |records|).0, fmt.footer(handle));
      file := file + fmt.footer(handle);
    }
  }
}
