/** Separating values from a key/value stream while its table is built. */
module TableBuilding {
  import opened Types
  import opened Ordering
  import opened Coding
  import opened Codec
  import opened BlobLayout
  import opened BlobFileBuilding
  import opened BlobFileIterating

  datatype Entry = Entry(key: InternalKey, value: Bytes)

  datatype Mode = NormalMode | ReadOnlyMode | FallbackMode

  datatype Options = Options(
    mode: Mode, minBlobSize: nat, targetSize: nat, useDict: bool, trainBytes: nat,
    levelMerge: bool, targetLevel: int, mergeLevel: int)

  datatype FileInfo = FileInfo(level: int, toMerge: bool)

  /** What the builder works with: the blob format, the index codec, and the blob files that exist already. */
  datatype Env = Env(
    fmt: Format,
    reader: Reader,
    le: Le,
    encodeIndex: BlobIndex -> Bytes,
    decodeIndex: Bytes -> Option<BlobIndex>,
    readBlob: BlobIndex -> Option<Rec>,
    findFile: nat -> Option<FileInfo>)

  // ---- meaning

  /** The value an entry stands for, with blob indexes looked up in the files that exist already. */
  function OldValue(env: Env, e: Entry): Option<Bytes> {
    if e.key.kind != Index then Some(e.value)
    else
      match env.decodeIndex(e.value)
      case None => None
      case Some(ix) =>
        match env.readBlob(ix)
        case None => None
        case Some(rec) => Some(rec.value)
  }

  /** A record of a finished file, read at a handle. */
  function ReadNew(reader: Reader, file: Bytes, h: Handle): Option<Rec> {
    match OpenFile(reader, file)
    case None => None
    case Some(o) =>
      match GetRecord(reader, o.dict, file, h.offset)
      case None => None
      case Some(got) => if FooterOf(reader, file).ok && got.1 == h.size then Some(got.0) else None
  }

  /** The same, once the files the builder produced are there too. */
  function NewValue(env: Env, files: map<nat, Bytes>, e: Entry): Option<Bytes> {
    if e.key.kind != Index then Some(e.value)
    else
      match env.decodeIndex(e.value)
      case None => None
      case Some(ix) =>
        if ix.file !in files then OldValue(env, e)
        else
          match ReadNew(env.reader, files[ix.file], ix.handle)
          case None => None
          case Some(rec) => Some(rec.value)
  }

  predicate SameSlot(a: InternalKey, b: InternalKey) {
    a.user == b.user && a.sequence == b.sequence && (a.kind.Other? || b.kind.Other? ==> a.kind == b.kind)
  }

  /** Blob indexes in the input point below the numbers given to new files. */
  predicate IsOld(env: Env, first: nat, e: Entry) {
    e.key.kind == Index && env.decodeIndex(e.value).Some? ==> env.decodeIndex(e.value).value.file < first
  }

  /** An input the builder is meant for: old indexes only, and a value that fits a record. */
  predicate Acceptable(env: Env, first: nat, e: Entry) {
    && IsOld(env, first, e)
    && (OldValue(env, e).Some? ==> RecFits(env.fmt, Rec(e.key.user, OldValue(env, e).value)))
  }

  predicate AllAcceptable(env: Env, first: nat, stream: seq<Entry>) {
    forall i :: 0 <= i < |stream| ==> Acceptable(env, first, stream[i])
  }

  // ---- which form an entry gets

  /** A value is merged into a new file when its old one is of a lower level or marked for it. */
  predicate ShouldMerge(opts: Options, info: Option<FileInfo>) {
    info.Some? && (info.value.level < opts.targetLevel || info.value.toMerge)
  }

  /** Whether this entry makes the builder decode a blob index. */
  predicate Decodes(opts: Options, e: Entry) {
    e.key.kind == Index &&
    (opts.mode == FallbackMode || (opts.mode == NormalMode && opts.levelMerge && opts.targetLevel >= opts.mergeLevel))
  }

  /** A blob index the builder has to look into does not decode. */
  predicate Broken(env: Env, opts: Options, e: Entry) {
    && e.key.kind == Index && env.decodeIndex(e.value).None?
    && match opts.mode
       case FallbackMode => true
       case ReadOnlyMode => false
       case NormalMode => opts.levelMerge && opts.targetLevel >= opts.mergeLevel
  }

  predicate NoneBroken(env: Env, opts: Options, stream: seq<Entry>) {
    forall i :: 0 <= i < |stream| ==> !Broken(env, opts, stream[i])
  }

  /** The value goes to a new blob file: a large plain one, or a readable one whose file is to be merged. */
  predicate Moves(env: Env, opts: Options, e: Entry) {
    && opts.mode == NormalMode && OldValue(env, e).Some?
    && match e.key.kind
       case Plain => |e.value| >= opts.minBlobSize
       case Index => Decodes(opts, e) && ShouldMerge(opts, env.findFile(env.decodeIndex(e.value).value.file))
       case Other(_) => false
  }

  /** What the base table gets of the others: in fallback mode a readable value comes back inline. */
  function Kept(env: Env, opts: Options, e: Entry): Entry {
    if opts.mode == FallbackMode && e.key.kind == Index && OldValue(env, e).Some?
    then Entry(e.key.(kind := Plain), OldValue(env, e).value)
    else e
  }

  /** An index into one of the new files, in the slot of the input. */
  predicate Separated(env: Env, files: map<nat, Bytes>, input: Entry, e: Entry) {
    && e.key == input.key.(kind := Index)
    && env.decodeIndex(e.value).Some? && env.decodeIndex(e.value).value.file in files
  }

  /** A level merge takes this file along. */
  predicate FileIsDue(opts: Options, info: Option<FileInfo>) {
    && opts.levelMerge && opts.targetLevel >= opts.mergeLevel
    && info.Some? && (info.value.toMerge || info.value.level < opts.targetLevel)
  }

  /**
   The form that the options ask for.  Fallback turns every readable index back into its value.
   A normal table separates large values, and the readable values of files that a level merge
   takes along.  Everything else is written as it came.
   */
  predicate InForm(env: Env, opts: Options, files: map<nat, Bytes>, input: Entry, e: Entry) {
    match opts.mode
    case FallbackMode =>
      if input.key.kind == Index && OldValue(env, input).Some?
      then e == Entry(input.key.(kind := Plain), OldValue(env, input).value)
      else e == input
    case ReadOnlyMode => e == input
    case NormalMode =>
      match input.key.kind
      case Plain => if |input.value| >= opts.minBlobSize then Separated(env, files, input, e) else e == input
      case Other(_) => e == input
      case Index =>
        if OldValue(env, input).Some? && FileIsDue(opts, env.findFile(env.decodeIndex(input.value).value.file))
        then Separated(env, files, input, e)
        else e == input
  }

  lemma FormIs(env: Env, opts: Options, files: map<nat, Bytes>, input: Entry, e: Entry)
    requires if Moves(env, opts, input) then Separated(env, files, input, e) else e == Kept(env, opts, input)
    ensures InForm(env, opts, files, input, e)
  {
  }

  // ---- contexts and entries

  function IndexOf(ctx: Ctx): BlobIndex {
    BlobIndex(ctx.file, ctx.handle, 0, ZERO_HANDLE)
  }

  /** What AddBlobResultsToBase writes for a context. */
  function EntryOf(env: Env, ctx: Ctx): Entry {
    if ctx.hasValue then Entry(ctx.key, ctx.value)
    else Entry(ctx.key.(kind := Index), env.encodeIndex(IndexOf(ctx)))
  }

  function EntriesOf(env: Env, ctxs: seq<Ctx>): (r: seq<Entry>)
    ensures |r| == |ctxs|
    ensures forall i :: 0 <= i < |r| ==> r[i] == EntryOf(env, ctxs[i])
  {
    seq(|ctxs|, i requires 0 <= i < |ctxs| => EntryOf(env, ctxs[i]))
  }

  type Images = map<nat, Image>

  /** The context's handle is the place of this record in its file. */
  predicate Points(fmt: Format, images: Images, ctx: Ctx, rec: Rec) {
    && ctx.file in images
    && ctx.handle.index < |images[ctx.file].recs|
    && images[ctx.file].recs[ctx.handle.index] == rec
    && ctx.handle == HandleOf(fmt, images[ctx.file].dict, images[ctx.file].recs, ctx.handle.index)
  }

  /** The context gives the input the form it should have. */
  predicate Good(env: Env, opts: Options, first: nat, images: Images, input: Entry, ctx: Ctx) {
    && (ctx.hasValue <==> !Moves(env, opts, input))
    && if ctx.hasValue then Entry(ctx.key, ctx.value) == Kept(env, opts, input) && IsOld(env, first, input)
       else ctx.key == input.key && Points(env.fmt, images, ctx, Rec(input.key.user, OldValue(env, input).value))
  }

  /** The same for an item that still waits in the blob file builder. */
  predicate GoodItem(env: Env, opts: Options, first: nat, number: nat, input: Entry, item: Item) {
    && (item.rec.None? <==> !Moves(env, opts, input))
    && if item.rec.None? then
         Entry(item.ctx.key, item.ctx.value) == Kept(env, opts, input) && IsOld(env, first, input)
       else
         && item.ctx.key == input.key && item.ctx.file == number
         && item.rec.value == Rec(input.key.user, OldValue(env, input).value)
  }

  // ---- files grow at the end

  /** Every file of `a` is in `b` with the same dictionary and at least the same records. */
  predicate Grows(a: Images, b: Images) {
    forall f :: f in a ==> f in b && a[f].dict == b[f].dict && a[f].recs <= b[f].recs
  }

  lemma HandleStable(fmt: Format, dict: Bytes, a: seq<Rec>, b: seq<Rec>, i: nat)
    requires a <= b && i < |a|
    ensures HandleOf(fmt, dict, a, i) == HandleOf(fmt, dict, b, i)
  {
    assert a[..i] == b[..i];
  }

  lemma GoodStable(env: Env, opts: Options, first: nat, a: Images, b: Images, input: Entry, ctx: Ctx)
    requires Good(env, opts, first, a, input, ctx) && Grows(a, b)
    ensures Good(env, opts, first, b, input, ctx)
  {
    if !ctx.hasValue {
      HandleStable(env.fmt, a[ctx.file].dict, a[ctx.file].recs, b[ctx.file].recs, ctx.handle.index);
    }
  }

  /** A placed context of a good item is good. */
  lemma GoodPlaced(env: Env, opts: Options, first: nat, number: nat, images: Images, input: Entry, items: seq<Item>, j: nat)
    requires j < |items| && Matched(items) && GoodItem(env, opts, first, number, input, items[j])
    requires number in images && images[number].recs == RecsOf(items)
    ensures Good(env, opts, first, images, input, Placed(env.fmt, images[number].dict, items)[j])
  {
    PlacedAt(env.fmt, images[number].dict, items, j);
  }

  // ---- the whole build

  /**
   A table under construction.  `done` are the contexts of the inputs that have left the blob
   file builder; `contents` says what the finished files were built from.
   */
  datatype Build = Build(
    env: Env, opts: Options, first: nat, inputs: seq<Entry>, done: seq<Ctx>, base: seq<Entry>,
    contents: Images, finished: map<nat, Bytes>, next: nat, blob: Option<BuilderState>, number: nat)

  function ItemsWaiting(blob: Option<BuilderState>): seq<Item> {
    if blob.Some? && blob.value.buffered then blob.value.items else []
  }

  function ImageOf(b: BuilderState): Image {
    Image(b.useDict, b.dict, RecsOf(b.items))
  }

  /** The finished files, and the current one once it is being written. */
  function ImagesWith(contents: Images, blob: Option<BuilderState>, number: nat): Images {
    if blob.Some? && !blob.value.buffered then contents[number := ImageOf(blob.value)] else contents
  }

  predicate ImageOk(fmt: Format, useDict: bool, img: Image) {
    img.useDict == useDict && (!useDict ==> img.dict == []) && RecsFit(fmt, img.recs)
  }

  predicate FilesOk(fmt: Format, useDict: bool, first: nat, next: nat, contents: Images, finished: map<nat, Bytes>) {
    && finished.Keys == contents.Keys
    && (forall f :: f in contents ==>
          && first <= f < next
          && finished[f] == FileBytes(fmt, contents[f])
          && ImageOk(fmt, useDict, contents[f]))
  }

  predicate RecsFit(fmt: Format, recs: seq<Rec>) {
    forall i :: 0 <= i < |recs| ==> RecFits(fmt, recs[i])
  }

  ghost predicate BuilderOk(fmt: Format, useDict: bool, b: BuilderState) {
    Consistent(b) && b.fmt == fmt && b.useDict == useDict && RecsFit(fmt, RecsOf(b.items))
  }

  ghost predicate BlobOk(s: Build) {
    s.blob.Some? ==>
      && BuilderOk(s.env.fmt, s.opts.useDict, s.blob.value)
      && s.first <= s.number < s.next && s.number !in s.contents
  }

  /** The inputs so far are answered by the contexts that are out and the items that wait, in this order. */
  predicate Answered(env: Env, opts: Options, first: nat, inputs: seq<Entry>, done: seq<Ctx>, images: Images, waiting: seq<Item>, number: nat) {
    && |done| + |waiting| == |inputs|
    && (forall j :: 0 <= j < |done| ==> Good(env, opts, first, images, inputs[j], done[j]))
    && (forall k :: 0 <= k < |waiting| ==> GoodItem(env, opts, first, number, inputs[|done| + k], waiting[k]))
  }

  /** `late` are contexts that are out of the builder but not in the base table yet. */
  predicate BaseOk(env: Env, done: seq<Ctx>, base: seq<Entry>, late: seq<Ctx>, blob: Option<BuilderState>) {
    && EntriesOf(env, done) == base + EntriesOf(env, late)
    && (late != [] ==> blob.None? || !blob.value.buffered)
  }

  predicate InputsOk(s: Build) {
    Answered(s.env, s.opts, s.first, s.inputs, s.done, ImagesWith(s.contents, s.blob, s.number), ItemsWaiting(s.blob), s.number)
  }

  ghost predicate Sound(s: Build, late: seq<Ctx>) {
    && FilesOk(s.env.fmt, s.opts.useDict, s.first, s.next, s.contents, s.finished)
    && BlobOk(s)
    && InputsOk(s)
    && BaseOk(s.env, s.done, s.base, late, s.blob)
  }

  // ---- one input at a time

  lemma EntriesMore(env: Env, a: seq<Ctx>, b: seq<Ctx>)
    ensures EntriesOf(env, a + b) == EntriesOf(env, a) + EntriesOf(env, b)
  {
  }

  lemma OneEntry(env: Env, ctx: Ctx)
    ensures EntriesOf(env, [ctx]) == [EntryOf(env, ctx)]
  {
  }

  /** An entry that goes straight into the base table. */
  lemma DirectSound(s: Build, input: Entry, ctx: Ctx, s': Build)
    requires Sound(s, []) && (s.blob.None? || !s.blob.value.buffered)
    requires Good(s.env, s.opts, s.first, ImagesWith(s.contents, s.blob, s.number), input, ctx)
    requires s' == s.(inputs := s.inputs + [input], done := s.done + [ctx], base := s.base + [EntryOf(s.env, ctx)])
    ensures Sound(s', [])
  {
    DirectBase(s.env, s.done, s.base, ctx, s.blob);
    Direct(s.env, s.opts, s.first, s.inputs, s.done, ImagesWith(s.contents, s.blob, s.number), s.number, input, ctx);
  }

  lemma DirectBase(env: Env, done: seq<Ctx>, base: seq<Entry>, ctx: Ctx, blob: Option<BuilderState>)
    requires BaseOk(env, done, base, [], blob)
    ensures BaseOk(env, done + [ctx], base + [EntryOf(env, ctx)], [], blob)
  {
    EntriesMore(env, done, [ctx]);
    OneEntry(env, ctx);
    assert base + EntriesOf(env, []) == base;
    assert base + [EntryOf(env, ctx)] + EntriesOf(env, []) == base + [EntryOf(env, ctx)];
  }

  lemma Direct(env: Env, opts: Options, first: nat, inputs: seq<Entry>, done: seq<Ctx>, images: Images, number: nat, input: Entry, ctx: Ctx)
    requires Answered(env, opts, first, inputs, done, images, [], number) && Good(env, opts, first, images, input, ctx)
    ensures Answered(env, opts, first, inputs + [input], done + [ctx], images, [], number)
  {
  }

  /** An entry that waits its turn behind buffered records. */
  lemma WaitingSound(s: Build, input: Entry, ctx: Ctx, s': Build)
    requires Sound(s, []) && s.blob.Some? && s.blob.value.buffered && ctx.hasValue
    requires GoodItem(s.env, s.opts, s.first, s.number, input, Item(ctx, None))
    requires s'.blob.Some? && Consistent(s'.blob.value) && s'.blob.value.buffered
    requires s'.blob.value.items == s.blob.value.items + [Item(ctx, None)]
    requires s'.blob.value.fmt == s.blob.value.fmt && s'.blob.value.useDict == s.blob.value.useDict
    requires s' == s.(inputs := s.inputs + [input], blob := s'.blob)
    ensures Sound(s', [])
  {
    Appended(s.env.fmt, [], s.blob.value.items, Item(ctx, None));
    ItemWaits(s, input, Item(ctx, None), s'.blob.value);
  }

  lemma ItemWaits(s: Build, input: Entry, item: Item, b': BuilderState)
    requires InputsOk(s) && s.blob.Some? && s.blob.value.buffered && b'.buffered
    requires b'.items == s.blob.value.items + [item] && GoodItem(s.env, s.opts, s.first, s.number, input, item)
    ensures Answered(s.env, s.opts, s.first, s.inputs + [input], s.done, ImagesWith(s.contents, Some(b'), s.number),
                     ItemsWaiting(Some(b')), s.number)
  {
  }

  /** A new, empty blob file. */
  lemma OpenedSound(s: Build, b: BuilderState, s': Build)
    requires Sound(s, []) && s.blob.None? && s.first <= s.next
    requires Consistent(b) && b.items == [] && b.fmt == s.env.fmt && b.useDict == s.opts.useDict
    requires s' == s.(blob := Some(b), number := s.next, next := s.next + 1)
    ensures Sound(s', [])
  {
    GrownAnswers(s.env, s.opts, s.first, s.inputs, s.done, s.contents, ImagesWith(s'.contents, s'.blob, s'.number), s.number, s'.number);
  }

  /** Answers stay good while files grow. */
  lemma GrownAnswers(env: Env, opts: Options, first: nat, inputs: seq<Entry>, done: seq<Ctx>, a: Images, b: Images, m: nat, n: nat)
    requires Answered(env, opts, first, inputs, done, a, [], m) && Grows(a, b)
    ensures Answered(env, opts, first, inputs, done, b, [], n)
  {
    forall j | 0 <= j < |done|
      ensures Good(env, opts, first, b, inputs[j], done[j])
    {
      GoodStable(env, opts, first, a, b, inputs[j], done[j]);
    }
  }

  // ---- records

  function Out(b: BuilderState): seq<Ctx> {
    if b.buffered then [] else Placed(b.fmt, b.dict, b.items)
  }

  /** How the builder may answer a record: all in order, nothing lost. */
  ghost predicate Took(b: BuilderState, item: Item, b': BuilderState, out: seq<Ctx>) {
    && b'.items == b.items + [item] && b'.fmt == b.fmt && b'.useDict == b.useDict
    && Out(b') == Out(b) + out
    && (!b.buffered ==> !b'.buffered && b'.dict == b.dict)
  }

  /** While the file is only buffered, nothing is out. */
  lemma RecordWaits(s: Build, input: Entry, item: Item, b': BuilderState, out: seq<Ctx>)
    requires InputsOk(s) && s.blob.Some? && Took(s.blob.value, item, b', out) && b'.buffered
    requires GoodItem(s.env, s.opts, s.first, s.number, input, item)
    ensures out == []
    ensures Answered(s.env, s.opts, s.first, s.inputs + [input], s.done + out, ImagesWith(s.contents, Some(b'), s.number),
                     ItemsWaiting(Some(b')), s.number)
  {
    assert s.done + out == s.done;
  }

  lemma ImagesGrow(s: Build, item: Item, b': BuilderState, out: seq<Ctx>)
    requires s.blob.Some? && Took(s.blob.value, item, b', out) && !b'.buffered && s.number !in s.contents
    ensures Grows(ImagesWith(s.contents, s.blob, s.number), ImagesWith(s.contents, Some(b'), s.number))
  {
    Appended(b'.fmt, b'.dict, s.blob.value.items, item);
  }

  /** The first write of a dictionary file releases everything that waited. */
  lemma RecordReleases(s: Build, input: Entry, item: Item, b': BuilderState, out: seq<Ctx>)
    requires InputsOk(s) && s.blob.Some? && Took(s.blob.value, item, b', out)
    requires s.blob.value.buffered && !b'.buffered && Matched(b'.items) && b'.fmt == s.env.fmt && s.number !in s.contents
    requires GoodItem(s.env, s.opts, s.first, s.number, input, item)
    ensures Answered(s.env, s.opts, s.first, s.inputs + [input], s.done + out, ImagesWith(s.contents, Some(b'), s.number), [], s.number)
  {
    var images, inputs := ImagesWith(s.contents, Some(b'), s.number), s.inputs + [input];
    assert out == Placed(b'.fmt, b'.dict, b'.items);
    ImagesGrow(s, item, b', out);
    forall j | 0 <= j < |s.done + out|
      ensures Good(s.env, s.opts, s.first, images, inputs[j], (s.done + out)[j])
    {
      if j < |s.done| {
        GoodStable(s.env, s.opts, s.first, s.contents, images, inputs[j], s.done[j]);
      } else {
        var k := j - |s.done|;
        assert GoodItem(s.env, s.opts, s.first, s.number, inputs[j], b'.items[k]);
        GoodPlaced(s.env, s.opts, s.first, s.number, images, inputs[j], b'.items, k);
      }
    }
  }

  /** Afterwards each record is out at once. */
  lemma RecordPasses(s: Build, input: Entry, item: Item, b': BuilderState, out: seq<Ctx>)
    requires InputsOk(s) && s.blob.Some? && Took(s.blob.value, item, b', out)
    requires !s.blob.value.buffered && Matched(b'.items) && b'.fmt == s.env.fmt && s.number !in s.contents
    requires GoodItem(s.env, s.opts, s.first, s.number, input, item)
    ensures Answered(s.env, s.opts, s.first, s.inputs + [input], s.done + out, ImagesWith(s.contents, Some(b'), s.number), [], s.number)
  {
    var images, b := ImagesWith(s.contents, Some(b'), s.number), s.blob.value;
    Appended(b.fmt, b.dict, b.items, item);
    var last := Placed(b'.fmt, b'.dict, b'.items)[|b.items|];
    Cancel(Placed(b.fmt, b.dict, b.items), [last], out);
    ImagesGrow(s, item, b', out);
    GoodPlaced(s.env, s.opts, s.first, s.number, images, input, b'.items, |b.items|);
    GrownAnswers(s.env, s.opts, s.first, s.inputs, s.done, ImagesWith(s.contents, s.blob, s.number), images, s.number, s.number);
    Direct(s.env, s.opts, s.first, s.inputs, s.done, images, s.number, input, last);
  }

  lemma Cancel(a: seq<Ctx>, x: seq<Ctx>, y: seq<Ctx>)
    requires a + x == a + y
    ensures x == y
  {
    assert (a + x)[|a|..] == x && (a + y)[|a|..] == y;
  }

  lemma RecordBase(s: Build, item: Item, b': BuilderState, out: seq<Ctx>)
    requires s.blob.Some? && BaseOk(s.env, s.done, s.base, [], s.blob) && Took(s.blob.value, item, b', out)
    ensures BaseOk(s.env, s.done + out, s.base, out, Some(b'))
  {
    EntriesMore(s.env, s.done, out);
    assert s.base + EntriesOf(s.env, []) == s.base;
  }

  lemma RecordBuilder(fmt: Format, useDict: bool, b: BuilderState, item: Item, b': BuilderState, out: seq<Ctx>)
    requires BuilderOk(fmt, useDict, b) && Consistent(b') && Took(b, item, b', out)
    requires item.rec.Some? && RecFits(fmt, item.rec.value)
    ensures BuilderOk(fmt, useDict, b')
  {
    Appended(b.fmt, b.dict, b.items, item);
  }

  /** A record given to the blob file builder. */
  lemma RecordSound(s: Build, input: Entry, ctx: Ctx, rec: Rec, out: seq<Ctx>, s': Build)
    requires Sound(s, []) && s.blob.Some? && !ctx.hasValue && RecFits(s.env.fmt, rec)
    requires GoodItem(s.env, s.opts, s.first, s.number, input, Item(ctx, Some(rec)))
    requires s'.blob.Some? && Consistent(s'.blob.value) && Took(s.blob.value, Item(ctx, Some(rec)), s'.blob.value, out)
    requires s' == s.(inputs := s.inputs + [input], done := s.done + out, blob := s'.blob)
    ensures Sound(s', out)
  {
    var item := Item(ctx, Some(rec));
    RecordBuilder(s.env.fmt, s.opts.useDict, s.blob.value, item, s'.blob.value, out);
    RecordBase(s, item, s'.blob.value, out);
    RecordAnswers(s, input, item, s'.blob.value, out);
  }

  lemma RecordAnswers(s: Build, input: Entry, item: Item, b': BuilderState, out: seq<Ctx>)
    requires InputsOk(s) && s.blob.Some? && Took(s.blob.value, item, b', out)
    requires Matched(b'.items) && b'.fmt == s.env.fmt && s.number !in s.contents
    requires GoodItem(s.env, s.opts, s.first, s.number, input, item)
    ensures Answered(s.env, s.opts, s.first, s.inputs + [input], s.done + out, ImagesWith(s.contents, Some(b'), s.number),
                     ItemsWaiting(Some(b')), s.number)
  {
    if b'.buffered {
      RecordWaits(s, input, item, b', out);
    } else if s.blob.value.buffered {
      RecordReleases(s, input, item, b', out);
    } else {
      RecordPasses(s, input, item, b', out);
    }
  }

  // ---- finishing

  /** The contexts that were late are written. */
  lemma LateSound(s: Build, late: seq<Ctx>, s': Build)
    requires Sound(s, late) && s' == s.(base := s.base + EntriesOf(s.env, late))
    ensures Sound(s', [])
  {
    assert s'.base + EntriesOf(s.env, []) == s'.base;
  }

  /** A finished file releases what still waited in it. */
  lemma FinishReleases(s: Build, b': BuilderState, out: seq<Ctx>)
    requires InputsOk(s) && s.blob.Some? && Matched(b'.items) && b'.fmt == s.env.fmt && s.number !in s.contents
    requires b'.items == s.blob.value.items && !b'.buffered && Out(b') == Out(s.blob.value) + out && b'.fmt == s.blob.value.fmt
    requires !s.blob.value.buffered ==> b'.dict == s.blob.value.dict && b'.useDict == s.blob.value.useDict
    ensures !s.blob.value.buffered ==> out == []
    ensures Answered(s.env, s.opts, s.first, s.inputs, s.done + out, s.contents[s.number := ImageOf(b')], [], s.number)
  {
    var images := s.contents[s.number := ImageOf(b')];
    if s.blob.value.buffered {
      assert out == Placed(b'.fmt, b'.dict, b'.items);
      forall j | 0 <= j < |s.done + out|
        ensures Good(s.env, s.opts, s.first, images, s.inputs[j], (s.done + out)[j])
      {
        if j < |s.done| {
          GoodStable(s.env, s.opts, s.first, s.contents, images, s.inputs[j], s.done[j]);
        } else {
          GoodPlaced(s.env, s.opts, s.first, s.number, images, s.inputs[j], b'.items, j - |s.done|);
        }
      }
    } else {
      assert s.done + out == s.done;
    }
  }

  lemma FinishedBase(s: Build, late: seq<Ctx>, out: seq<Ctx>)
    requires BaseOk(s.env, s.done, s.base, late, s.blob) && s.blob.Some? && (!s.blob.value.buffered ==> out == [])
    ensures EntriesOf(s.env, s.done + out) == s.base + EntriesOf(s.env, out) + EntriesOf(s.env, late)
  {
    EntriesMore(s.env, s.done, out);
    if s.blob.value.buffered {
      assert s.base + EntriesOf(s.env, []) == s.base;
      assert s.base + EntriesOf(s.env, out) + EntriesOf(s.env, []) == s.base + EntriesOf(s.env, out);
    } else {
      assert EntriesOf(s.env, s.done) + EntriesOf(s.env, []) == EntriesOf(s.env, s.done);
      assert s.base + EntriesOf(s.env, []) == s.base;
    }
  }

  lemma FinishedFiles(s: Build, b': BuilderState)
    requires FilesOk(s.env.fmt, s.opts.useDict, s.first, s.next, s.contents, s.finished)
    requires BlobOk(s) && s.blob.Some? && b'.items == s.blob.value.items
    requires b'.useDict == s.opts.useDict && (!b'.useDict ==> b'.dict == [])
    requires b'.file == FileBytes(s.env.fmt, ImageOf(b'))
    ensures FilesOk(s.env.fmt, s.opts.useDict, s.first, s.next, s.contents[s.number := ImageOf(b')],
                    s.finished[s.number := b'.file])
  {
  }

  /** How the builder finishes its file. */
  ghost predicate Closed(b: BuilderState, b': BuilderState, out: seq<Ctx>) {
    && b'.items == b.items && b'.fmt == b.fmt && b'.useDict == b.useDict && Matched(b'.items)
    && !b'.buffered && Out(b') == Out(b) + out
    && (!b.buffered ==> b'.dict == b.dict) && (!b'.useDict ==> b'.dict == [])
    && b'.file == FileBytes(b'.fmt, ImageOf(b'))
  }

  method CloseFile(blob: BlobFileBuilder) returns (out: seq<Ctx>)
    requires blob.Valid()
    modifies blob
    ensures Closed(old(blob.State()), blob.State(), out)
  {
    out := blob.Finish();
  }

  method PutRecord(blob: BlobFileBuilder, rec: Rec, ctx: Ctx) returns (out: seq<Ctx>)
    requires blob.Valid() && !ctx.hasValue
    modifies blob
    ensures blob.Valid() && Took(old(blob.State()), Item(ctx, Some(rec)), blob.State(), out)
  {
    out := blob.Add(rec, ctx);
  }

  lemma FinishSound(s: Build, late: seq<Ctx>, b': BuilderState, out: seq<Ctx>, s': Build)
    requires Sound(s, late) && s.blob.Some? && Closed(s.blob.value, b', out)
    requires s' == s.(done := s.done + out, base := s.base + EntriesOf(s.env, out), blob := None,
                      contents := s.contents[s.number := ImageOf(b')], finished := s.finished[s.number := b'.file])
    ensures Sound(s', late)
  {
    FinishReleases(s, b', out);
    FinishedBase(s, late, out);
    FinishedFiles(s, b');
  }

  // ---- the finished table

  /** Encoded indexes without an old location decode to themselves. */
  ghost predicate IndexLaw(env: Env) {
    forall ix :: IndexFits(ix) && ix.oldFile == 0 && ix.oldHandle == ZERO_HANDLE ==>
      env.decodeIndex(env.encodeIndex(ix)) == Some(ix)
  }

  predicate SizesOk(files: map<nat, Bytes>) {
    forall f :: f in files ==> f < TWO_64 && |files[f]| < TWO_64
  }

  lemma {:induction false} OrdinalBelow(fmt: Format, reader: Reader, img: Image, file: Bytes, i: nat)
    requires Readable(fmt, reader, img, file) && i <= |img.recs|
    ensures i <= Offset(fmt, img, i)
  {
    if i > 0 {
      OrdinalBelow(fmt, reader, img, file, i - 1);
      assert ReadsRecord(fmt, reader, img, file, i - 1);
    }
  }

  /** A context that points at a record leads to it through the encoded index and the finished file. */
  lemma PointsReads(env: Env, useDict: bool, img: Image, file: Bytes, ctx: Ctx, rec: Rec)
    requires Inverts(env.fmt, env.reader, useDict) && ImageOk(env.fmt, useDict, img)
    requires file == FileBytes(env.fmt, img) && |file| < TWO_64 && ctx.file < TWO_64
    requires Points(env.fmt, map[ctx.file := img], ctx, rec)
    ensures IndexFits(IndexOf(ctx)) && ReadNew(env.reader, file, ctx.handle) == Some(rec)
  {
    var i := ctx.handle.index;
    ImageReadable(env.fmt, env.reader, img, file);
    assert ReadsRecord(env.fmt, env.reader, img, file, i);
    OrdinalBelow(env.fmt, env.reader, img, file, i);
    FileStarts(env.fmt, img);
    StoredAt(env.fmt, img.dict, img.recs, file, i);
  }

  /** Keeping an entry keeps its meaning. */
  lemma KeptMeans(env: Env, opts: Options, first: nat, e: Entry)
    requires IsOld(env, first, e)
    ensures SameSlot(e.key, Kept(env, opts, e).key) && OldValue(env, Kept(env, opts, e)) == OldValue(env, e)
    ensures IsOld(env, first, Kept(env, opts, e))
  {
  }

  /** Entry for entry: the same user key and sequence, the same value, and the form the options ask for. */
  predicate Answers(env: Env, opts: Options, files: map<nat, Bytes>, input: Entry, e: Entry) {
    SameSlot(input.key, e.key) && NewValue(env, files, e) == OldValue(env, input) && InForm(env, opts, files, input, e)
  }

  /**
   The table answers like its input, once indexes are looked up in the new files and in those
   that existed before.
   */
  lemma TableMeaning(s: Build, j: nat)
    requires Sound(s, []) && s.blob.None? && j < |s.inputs|
    requires Inverts(s.env.fmt, s.env.reader, s.opts.useDict) && IndexLaw(s.env) && SizesOk(s.finished)
    ensures |s.base| == |s.inputs|
    ensures Answers(s.env, s.opts, s.finished, s.inputs[j], s.base[j])
  {
    assert s.base + EntriesOf(s.env, []) == s.base;
    var ctx, input := s.done[j], s.inputs[j];
    assert Good(s.env, s.opts, s.first, s.contents, input, ctx);
    if ctx.hasValue {
      KeptMeans(s.env, s.opts, s.first, input);
    } else {
      var rec := Rec(input.key.user, OldValue(s.env, input).value);
      assert Points(s.env.fmt, map[ctx.file := s.contents[ctx.file]], ctx, rec);
      PointsReads(s.env, s.opts.useDict, s.contents[ctx.file], s.finished[ctx.file], ctx, rec);
    }
    FormIs(s.env, s.opts, s.finished, input, s.base[j]);
  }

  class TitanTableBuilder {
    const env: Env
    const opts: Options
    const first: nat
    var ok: bool
    var base: seq<Entry>
    var blob: BlobFileBuilder?
    var number: nat
    var next: nat
    var finished: map<nat, Bytes>
    ghost var inputs: seq<Entry>
    ghost var done: seq<Ctx>
    ghost var contents: Images

    ghost function Owned(): set<object>
      reads this
    {
      if blob == null then {} else {blob}
    }

    ghost function View(): Build
      reads this, Owned()
    {
      Build(env, opts, first, inputs, done, base, contents, finished, next,
            if blob == null then None else Some(blob.State()), number)
    }

    /** Only a normal builder ever opens a blob file. */
    ghost predicate ValidWith(late: seq<Ctx>)
      reads this, Owned()
    {
      Sound(View(), late) && first <= next && (opts.mode != NormalMode ==> blob == null)
    }

    ghost predicate Valid()
      reads this, Owned()
    {
      ValidWith([])
    }

    constructor (env: Env, opts: Options, first: nat)
      ensures Valid() && ok && inputs == [] && blob == null
      ensures this.env == env && this.opts == opts && this.first == first
    {
      this.env, this.opts, this.first := env, opts, first;
      ok, base, blob, number, next, finished := true, [], null, 0, first, map[];
      inputs, done, contents := [], [], map[];
    }

    method AddBlobResultsToBase(contexts: seq<Ctx>)
      modifies this`base
      ensures base == old(base) + EntriesOf(env, contexts)
    {
      for i := 0 to |contexts|
        invariant base == old(base) + EntriesOf(env, contexts[..i])
      {
        var ctx := contexts[i];
        if ctx.hasValue {
          base := base + [Entry(ctx.key, ctx.value)];
        } else {
          base := base + [Entry(ctx.key.(kind := Index), env.encodeIndex(IndexOf(ctx)))];
        }
      }
      assert contexts[..|contexts|] == contexts;
    }

    method FinishBlobFile(ghost late: seq<Ctx>)
      requires ValidWith(late)
      modifies this`base, this`blob, this`finished, this`done, this`contents, Owned()
      ensures ValidWith(late) && blob == null
    {
      if blob != null {
        ghost var s := View();
        var contexts := CloseFile(blob);
        ghost var b' := blob.State();
        AddBlobResultsToBase(contexts);
        finished, blob := finished[number := blob.file], null;
        done, contents := done + contexts, contents[number := ImageOf(b')];
        FinishSound(s, late, b', contexts, View());
      }
    }

    /** An entry that stays as it is: written at once, or queued behind buffered records. */
    method AddBase(e: Entry)
      requires Valid() && IsOld(env, first, e) && !Moves(env, opts, e) && Kept(env, opts, e) == e
      modifies this`base, this`inputs, this`done, Owned()
      ensures Valid() && inputs == old(inputs) + [e]
    {
      if blob == null || !blob.buffered {
        Append(e, e);
      } else {
        Queue(e);
      }
    }

    method Append(e: Entry, ghost input: Entry)
      requires Valid() && (blob == null || !blob.buffered)
      requires IsOld(env, first, input) && !Moves(env, opts, input) && e == Kept(env, opts, input)
      modifies this`base, this`inputs, this`done
      ensures Valid() && inputs == old(inputs) + [input] && base == old(base) + [e]
    {
      ghost var s := View();
      base := base + [e];
      inputs, done := inputs + [input], done + [Ctx(e.key, 0, ZERO_HANDLE, true, e.value)];
      DirectSound(s, input, Ctx(e.key, 0, ZERO_HANDLE, true, e.value), View());
    }

    method Queue(e: Entry)
      requires Valid() && blob != null && blob.buffered
      requires IsOld(env, first, e) && !Moves(env, opts, e) && Kept(env, opts, e) == e
      modifies this`inputs, blob
      ensures Valid() && inputs == old(inputs) + [e]
    {
      ghost var s := View();
      var ctx := Ctx(e.key, 0, ZERO_HANDLE, true, e.value);
      inputs := inputs + [e];
      blob.AddSmall(ctx);
      WaitingSound(s, e, ctx, View());
    }

    /** A value that goes to a blob file; the input it answers is a plain value or a merged index. */
    method AddBlob(key: InternalKey, value: Bytes, ghost input: Entry)
      requires Valid() && RecFits(env.fmt, Rec(key.user, value))
      requires key == input.key && Moves(env, opts, input) && OldValue(env, input) == Some(value)
      modifies this`base, this`blob, this`number, this`next, this`finished, this`inputs, this`done, this`contents, Owned()
      ensures Valid() && fresh(Owned() - old(Owned())) && inputs == old(inputs) + [input]
      ensures blob != null ==> |blob.file| < opts.targetSize
    {
      if blob == null {
        OpenBlobFile();
      }
      var contexts := Separate(key, value, input);
      WriteOut(contexts);
    }

    /** A file that has reached its size is finished before the contexts are written. */
    method WriteOut(contexts: seq<Ctx>)
      requires ValidWith(contexts) && blob != null
      modifies this`base, this`blob, this`finished, this`done, this`contents, blob
      ensures Valid() && Owned() <= old(Owned())
      ensures blob == null <==> old(|blob.file|) >= opts.targetSize
      ensures blob != null ==> |blob.file| < opts.targetSize
    {
      if |blob.file| >= opts.targetSize {
        FinishBlobFile(contexts);
      }
      FlushLate(contexts);
    }

    method Separate(key: InternalKey, value: Bytes, ghost input: Entry) returns (contexts: seq<Ctx>)
      requires Valid() && blob != null && RecFits(env.fmt, Rec(key.user, value))
      requires key == input.key && Moves(env, opts, input) && OldValue(env, input) == Some(value)
      modifies this`inputs, this`done, blob
      ensures ValidWith(contexts) && inputs == old(inputs) + [input]
    {
      ghost var s := View();
      var ctx := Ctx(key, number, ZERO_HANDLE, false, []);
      contexts := PutRecord(blob, Rec(key.user, value), ctx);
      inputs, done := inputs + [input], done + contexts;
      RecordSound(s, input, ctx, Rec(key.user, value), contexts, View());
    }

    method OpenBlobFile()
      requires Valid() && blob == null && opts.mode == NormalMode
      modifies this`blob, this`number, this`next
      ensures Valid() && blob != null && fresh(blob)
    {
      ghost var s := View();
      number, next := next, next + 1;
      blob := new BlobFileBuilder(env.fmt, env.le, opts.useDict, opts.trainBytes);
      OpenedSound(s, blob.State(), View());
    }

    method FlushLate(contexts: seq<Ctx>)
      requires ValidWith(contexts)
      modifies this`base
      ensures Valid()
    {
      ghost var s := View();
      AddBlobResultsToBase(contexts);
      LateSound(s, contexts, View());
    }

    /** Entries that need no look at a blob: large plain values are separated, the rest stays. */
    method AddPlain(e: Entry)
      requires Valid() && Acceptable(env, first, e) && !Decodes(opts, e)
      modifies this`base, this`blob, this`number, this`next, this`finished, this`inputs, this`done, this`contents, Owned()
      ensures Valid() && fresh(Owned() - old(Owned())) && inputs == old(inputs) + [e]
    {
      if e.key.kind == Plain && opts.mode == NormalMode && |e.value| >= opts.minBlobSize {
        AddBlob(e.key, e.value, e);
      } else {
        AddBase(e);
      }
    }

    /** Level merge: the value moves to a new blob file when its old one is due and can be read. */
    method AddMerged(e: Entry, index: BlobIndex)
      requires Valid() && Acceptable(env, first, e) && Decodes(opts, e) && opts.mode == NormalMode
      requires env.decodeIndex(e.value) == Some(index)
      modifies this`base, this`blob, this`number, this`next, this`finished, this`inputs, this`done, this`contents, Owned()
      ensures Valid() && fresh(Owned() - old(Owned())) && inputs == old(inputs) + [e]
    {
      if ShouldMerge(opts, env.findFile(index.file)) {
        var record := env.readBlob(index);
        if record.Some? {
          AddBlob(e.key, record.value.value, e);
          return;
        }
      }
      AddBase(e);
    }

    /** In fallback mode the value comes back inline when its blob can still be read. */
    method AddFallback(e: Entry, record: Option<Rec>)
      requires Valid() && IsOld(env, first, e) && e.key.kind == Index && opts.mode == FallbackMode
      requires env.decodeIndex(e.value).Some? && record == env.readBlob(env.decodeIndex(e.value).value)
      modifies this`base, this`inputs, this`done
      ensures Valid() && inputs == old(inputs) + [e]
      ensures base == old(base) + [match OldValue(env, e)
                                   case Some(value) => Entry(e.key.(kind := Plain), value)
                                   case None => e]
    {
      Append(if record.Some? then Entry(e.key.(kind := Plain), record.value.value) else e, e);
    }

    method AddIndex(e: Entry, index: BlobIndex)
      requires Valid() && Acceptable(env, first, e) && Decodes(opts, e) && env.decodeIndex(e.value) == Some(index)
      modifies this`base, this`blob, this`number, this`next, this`finished, this`inputs, this`done, this`contents, Owned()
      ensures Valid() && fresh(Owned() - old(Owned())) && inputs == old(inputs) + [e]
    {
      if opts.mode == FallbackMode {
        AddFallback(e, env.readBlob(index));
      } else {
        AddMerged(e, index);
      }
    }

    /** One entry of the stream; a blob index that has to be read and does not decode ends the build. */
    method Add(e: Entry)
      requires Valid() && Acceptable(env, first, e)
      modifies this, Owned()
      ensures Valid() && fresh(Owned() - old(Owned()))
      ensures ok == (old(ok) && !Broken(env, opts, e))
      ensures inputs == if ok then old(inputs) + [e] else old(inputs)
    {
      if !ok {
        return;
      }
      if Decodes(opts, e) {
        var index := env.decodeIndex(e.value);
        if index.None? {
          ok := false;
        } else {
          AddIndex(e, index.value);
        }
      } else {
        AddPlain(e);
      }
    }

    method Finish()
      requires Valid()
      modifies this`base, this`blob, this`finished, this`done, this`contents, Owned()
      ensures Valid() && blob == null
    {
      FinishBlobFile([]);
    }
  }

  /**
   A whole build: every entry in turn, then Finish.  It fails exactly on an index that has to be
   decoded and does not; otherwise the base table has one entry per input, in order, which means
   the same and has the form the options ask for.
   */
  method BuildTable(env: Env, opts: Options, first: nat, stream: seq<Entry>)
    returns (ok: bool, base: seq<Entry>, files: map<nat, Bytes>)
    requires Inverts(env.fmt, env.reader, opts.useDict) && IndexLaw(env)
    requires AllAcceptable(env, first, stream)
    ensures ok <==> NoneBroken(env, opts, stream)
    ensures ok && SizesOk(files) ==>
              |base| == |stream| && forall j :: 0 <= j < |stream| ==> Answers(env, opts, files, stream[j], base[j])
  {
    var builder := new TitanTableBuilder(env, opts, first);
    AddStream(builder, stream);
    builder.Finish();
    ok, base, files := builder.ok, builder.base, builder.finished;
    if ok && SizesOk(files) {
      BuildMeaning(builder.View());
    }
  }

  method AddStream(builder: TitanTableBuilder, stream: seq<Entry>)
    requires builder.Valid() && builder.ok && builder.inputs == [] && AllAcceptable(builder.env, builder.first, stream)
    modifies builder, builder.Owned()
    ensures builder.Valid() && fresh(builder.Owned() - old(builder.Owned()))
    ensures builder.ok <==> NoneBroken(builder.env, builder.opts, stream)
    ensures builder.ok ==> builder.inputs == stream
  {
    for i := 0 to |stream|
      invariant builder.Valid() && fresh(builder.Owned() - old(builder.Owned()))
      invariant Taken(builder.env, builder.opts, builder.ok, builder.inputs, stream, i)
    {
      AddNext(builder, stream, i);
    }
    TakenAll(builder.env, builder.opts, builder.ok, builder.inputs, stream);
  }

  method AddNext(builder: TitanTableBuilder, stream: seq<Entry>, i: nat)
    requires builder.Valid() && AllAcceptable(builder.env, builder.first, stream) && i < |stream|
    requires Taken(builder.env, builder.opts, builder.ok, builder.inputs, stream, i)
    modifies builder, builder.Owned()
    ensures builder.Valid() && fresh(builder.Owned() - old(builder.Owned()))
    ensures Taken(builder.env, builder.opts, builder.ok, builder.inputs, stream, i + 1)
  {
    TakenMore(builder.env, builder.opts, builder.ok, builder.inputs, stream, i);
    builder.Add(stream[i]);
  }

  /** The builder has taken the first i entries, or has met a broken one among them. */
  predicate Taken(env: Env, opts: Options, ok: bool, inputs: seq<Entry>, stream: seq<Entry>, i: nat)
    requires i <= |stream|
  {
    (ok <==> NoneBroken(env, opts, stream[..i])) && (ok ==> inputs == stream[..i])
  }

  lemma TakenAll(env: Env, opts: Options, ok: bool, inputs: seq<Entry>, stream: seq<Entry>)
    requires Taken(env, opts, ok, inputs, stream, |stream|)
    ensures (ok <==> NoneBroken(env, opts, stream)) && (ok ==> inputs == stream)
  {
    assert stream[..|stream|] == stream;
  }

  lemma TakenMore(env: Env, opts: Options, ok: bool, inputs: seq<Entry>, stream: seq<Entry>, i: nat)
    requires i < |stream| && Taken(env, opts, ok, inputs, stream, i)
    ensures var ok' := ok && !Broken(env, opts, stream[i]);
            Taken(env, opts, ok', if ok' then inputs + [stream[i]] else inputs, stream, i + 1)
  {
    assert stream[..i + 1] == stream[..i] + [stream[i]];
  }

  lemma BuildMeaning(s: Build)
    requires Sound(s, []) && s.blob.None?
    requires Inverts(s.env.fmt, s.env.reader, s.opts.useDict) && IndexLaw(s.env) && SizesOk(s.finished)
    ensures |s.base| == |s.inputs|
    ensures forall j :: 0 <= j < |s.inputs| ==> Answers(s.env, s.opts, s.finished, s.inputs[j], s.base[j])
  {
    assert s.base + EntriesOf(s.env, []) == s.base;
    forall j | 0 <= j < |s.inputs|
      ensures Answers(s.env, s.opts, s.finished, s.inputs[j], s.base[j])
    {
      TableMeaning(s, j);
    }
  }

  // ---- the codec that is in use

  function DecodedIndex(src: Bytes): Option<BlobIndex> {
    match DecodeIndex(src)
    case Fail => None
    case Got(ix, _) => Some(ix)
  }

  /** The blob index format keeps the law the theorem asks for. */
  lemma RealIndexLaw(env: Env)
    ensures IndexLaw(env.(encodeIndex := EncodeIndex, decodeIndex := DecodedIndex))
  {
    forall ix | IndexFits(ix) && ix.oldFile == 0 && ix.oldHandle == ZERO_HANDLE
      ensures DecodedIndex(EncodeIndex(ix)) == Some(ix)
    {
      IndexBack(ix);
    }
  }
}
