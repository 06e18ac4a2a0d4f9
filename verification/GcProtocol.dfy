/**
 Blob garbage collection as a state machine.

 User writes, snapshots, flushes, compactions, any number of GC jobs, the purge of
 obsolete files and crashes are interleaved one step at a time.  Each step is what the
 code does under one lock, or one atomic base-DB write.
 */
module GcProtocol {
  import opened Types
  import opened Lsm

  datatype File = File(recs: seq<Rec>, state: FileState)

  /** A key to re-point, with the index it must still have and what replaces it. */
  datatype Rewrite = Rewrite(key: Key, from: Ix, to: Val)

  datatype Phase = Scanning | Rewriting | Rewritten(doneAt: nat) | Synced(doneAt: nat) | Deleted

  /** One GC job: the loop variables of its scan, its output and its rewrite batches. */
  datatype Job = Job(
    inputs: set<nat>,
    useBitmap: bool,
    fallback: bool,
    bits: set<Ix>,
    stream: seq<Ix>,
    scanned: nat,
    lastKey: Key,
    isFresh: bool,
    out: Option<nat>,
    outRecs: seq<Rec>,
    rewrites: seq<Rewrite>,
    written: nat,
    phase: Phase)

  /** A flush or compaction between writing its blob files [lo, hi) and its completion event. */
  datatype Table = Table(lo: nat, hi: nat, plan: map<nat, Val>, installed: bool)

  datatype State = State(
    log: seq<Entry>,
    spec: seq<SpecOp>,
    durable: nat,               // every crash keeps at least this prefix of the log
    snaps: map<nat, nat>,       // snapshot handle -> sequence
    files: map<nat, File>,
    obsolete: map<nat, nat>,    // file -> obsolete sequence
    nextFile: nat,
    loggedNext: nat,            // next file number in the last manifest record
    jobs: map<nat, Job>,
    tables: map<nat, Table>,
    bits: set<Ix>,              // set bits of all invalid-entry bitmaps
    undelivered: set<Ix>,       // invalidations whose completion event is still to come
    purge: Option<Option<nat>>) // the oldest snapshot a running purge has read

  datatype Event =
    | UserPut(k: Key, v: Value)
    | UserDelete(k: Key)
    | TakeSnapshot(id: nat)
    | ReleaseSnapshot(id: nat)
    | SyncWal(upTo: nat)
    | TableOutput(id: nat, newFiles: seq<seq<Rec>>, plan: map<nat, Val>)
    | TableInstall(id: nat, upTo: nat)
    | TableCompleted(id: nat)
    | TableAbort(id: nat)
    | Compact(dropped: set<nat>)
    | Deliver(ixs: set<Ix>)
    | Pick(id: nat, inputs: set<nat>, stream: seq<Ix>, useBitmap: bool, fallback: bool)
    | CopyBits(id: nat)
    | Scan(id: nat)
    | Install(id: nat)
    | RewriteNext(id: nat)
    | RewriteDone(id: nat)
    | JobSync(id: nat)
    | DeleteInputs(id: nat)
    | ReleaseJob(id: nat)
    | PurgeBegin
    | PurgeRemove
    | Crash(p: nat)

  const INIT := State([], [], 0, map[], map[], map[], 1, 1, map[], map[], {}, {}, None)

  predicate InFile(val: Val, f: nat) {
    val.Blob? && val.ix.file == f
  }

  predicate InFiles(val: Val, fs: set<nat>) {
    val.Blob? && val.ix.file in fs
  }

  // ---- reads

  /** The value a stored entry stands for; a missing file or record is a corruption. */
  function Meaning(files: map<nat, File>, val: Val): Reply {
    match val
    case Inline(v) => Found(v)
    case Blob(ix) =>
      if ix.file in files && ix.pos < |files[ix.file].recs| then Found(files[ix.file].recs[ix.pos].value)
      else Corruption
    case _ => NotFound
  }

  /** What a user reads for k at sequence p. */
  function Read(log: seq<Entry>, files: map<nat, File>, p: nat, k: Key): Reply
    requires p <= |log|
  {
    Meaning(files, Look(log, p, k))
  }

  /** Sequences that someone may still read: live snapshots, and every state a crash could leave. */
  predicate Observed(n: nat, durable: nat, snaps: map<nat, nat>, p: nat) {
    p <= n && (durable <= p || p in snaps.Values)
  }

  // ---- user and base-DB steps

  function Append(s: State, e: Entry, op: SpecOp): State {
    s.(log := s.log + [e], spec := s.spec + [op])
  }

  predicate CanTableOutput(s: State, id: nat, newFiles: seq<seq<Rec>>, plan: map<nat, Val>) {
    && id !in s.tables
    && (forall i :: i in plan ==> i < |s.log| && (plan[i].Inline? || plan[i].Blob?))
    && (forall i :: i in plan && plan[i].Blob? ==>
          && s.nextFile <= plan[i].ix.file < s.nextFile + |newFiles|
          && plan[i].ix.pos < |newFiles[plan[i].ix.file - s.nextFile]|
          && newFiles[plan[i].ix.file - s.nextFile][plan[i].ix.pos].key == s.log[i].key)
    && (forall i, j :: i in plan && j in plan && plan[i].Blob? && plan[i] == plan[j] ==> i == j)
  }

  function Numbers(lo: nat, hi: nat): (r: set<nat>)
    ensures forall f :: f in r <==> lo <= f < hi
    decreases hi - lo
  {
    if lo >= hi then {} else {lo} + Numbers(lo + 1, hi)
  }

  /** The table builder's Finish: the new blob files enter the manifest before the SST is installed. */
  function DoTableOutput(s: State, id: nat, newFiles: seq<seq<Rec>>, plan: map<nat, Val>): State {
    var hi := s.nextFile + |newFiles|;
    s.(files := s.files + map f | f in Numbers(s.nextFile, hi) :: File(newFiles[f - s.nextFile], PendingLSM),
       nextFile := hi,
       loggedNext := hi,
       tables := s.tables[id := Table(s.nextFile, hi, plan, false)])
  }

  /**
   The output stands for the values the compaction has read.  An input whose blob file was purged
   while the compaction ran has no value any more, and its replacement may be anything.
   */
  predicate CanTableInstall(s: State, id: nat, upTo: nat) {
    && id in s.tables && !s.tables[id].installed
    && upTo <= |s.log|
    && (forall i :: i in s.tables[id].plan ==>
          && i < upTo
          && (s.log[i].val.Inline? || s.log[i].val.Blob?)
          && (Meaning(s.files, s.log[i].val).Found? ==>
                Meaning(s.files, s.tables[id].plan[i]) == Meaning(s.files, s.log[i].val)))
  }

  /** Indexes that a change of the log takes out of the LSM. */
  function Removed(log: seq<Entry>, positions: set<nat>): set<Ix> {
    set i | i in positions && i < |log| && log[i].val.Blob? :: log[i].val.ix
  }

  function DoTableInstall(s: State, id: nat, upTo: nat): State
    requires id in s.tables
  {
    var t := s.tables[id];
    s.(log := Replace(s.log, t.plan),
       durable := if s.durable < upTo then upTo else s.durable,
       undelivered := s.undelivered + Removed(s.log, t.plan.Keys),
       tables := s.tables[id := t.(installed := true)])
  }

  function Settle(files: map<nat, File>, lo: nat, hi: nat): (r: map<nat, File>)
    ensures r.Keys == files.Keys
  {
    map f | f in files ::
      if lo <= f < hi && files[f].state == PendingLSM then files[f].(state := Normal) else files[f]
  }

  ghost predicate CanCompact(s: State, dropped: set<nat>) {
    && (forall i :: i in dropped ==> i < s.durable)
    && (forall p, k :: Observed(|s.log|, s.durable, s.snaps, p) ==>
          Look(Drop(s.log, dropped), p, k) == Look(s.log, p, k))
  }

  function DoCompact(s: State, dropped: set<nat>): State {
    s.(log := Drop(s.log, dropped), undelivered := s.undelivered + Removed(s.log, dropped))
  }

  // ---- garbage collection steps

  predicate Enumerates(files: map<nat, File>, inputs: set<nat>, stream: seq<Ix>) {
    && (forall ix :: ix in stream ==> ix.file in inputs && ix.file in files && ix.pos < |files[ix.file].recs|)
    && (forall f, i :: f in inputs && f in files && 0 <= i < |files[f].recs| ==> Ix(f, i) in stream)
  }

  predicate CanPick(s: State, id: nat, inputs: set<nat>, stream: seq<Ix>) {
    && id !in s.jobs
    && (forall f :: f in inputs ==> f in s.files && s.files[f].state == Normal)
    && Enumerates(s.files, inputs, stream)
  }

  function SetStates(files: map<nat, File>, which: set<nat>, st: FileState): (r: map<nat, File>)
    ensures r.Keys == files.Keys
  {
    map f | f in files :: if f in which then files[f].(state := st) else files[f]
  }

  function DoPick(s: State, id: nat, inputs: set<nat>, stream: seq<Ix>, useBitmap: bool, fallback: bool): State {
    s.(files := SetStates(s.files, inputs, BeingGC),
       jobs := s.jobs[id := Job(inputs, useBitmap, fallback, {}, stream, 0, [], false, None, [], [], 0, Scanning)])
  }

  /** Why a record survives the scan loop's tests. */
  predicate Keeps(log: seq<Entry>, job: Job, key: Key, ix: Ix) {
    && !(job.lastKey != [] && key == job.lastKey && job.isFresh)
    && (if job.useBitmap then ix !in job.bits else Look(log, |log|, key) == Blob(ix))
  }

  /** The loop variables after one record, before any output is written. */
  function Advance(log: seq<Entry>, job: Job, key: Key, ix: Ix): Job {
    if job.lastKey != [] && key == job.lastKey && job.isFresh then job.(scanned := job.scanned + 1)
    else
      job.(scanned := job.scanned + 1, lastKey := key, isFresh := Keeps(log, job, key, ix) && !job.useBitmap)
  }

  /** One iteration of the scan loop, seen from the job; `number` is the file number it may take. */
  function ScanJob(log: seq<Entry>, job: Job, rec: Rec, ix: Ix, number: nat): Job {
    var job' := Advance(log, job, rec.key, ix);
    if !Keeps(log, job, rec.key, ix) then job'
    else if job.fallback then
      job'.(rewrites := job.rewrites + [Rewrite(rec.key, ix, Inline(rec.value))])
    else
      var out := if job.out.Some? then job.out.value else number;
      job'.(out := Some(out),
            outRecs := job.outRecs + [rec],
            rewrites := job.rewrites + [Rewrite(rec.key, ix, Blob(Ix(out, |job.outRecs|)))])
  }

  function DoScan(s: State, id: nat): State
    requires CanScan(s, id)
  {
    var job := s.jobs[id];
    var ix := job.stream[job.scanned];
    var job' := ScanJob(s.log, job, s.files[ix.file].recs[ix.pos], ix, s.nextFile);
    s.(nextFile := if job'.out == job.out then s.nextFile else s.nextFile + 1,
       jobs := s.jobs[id := job'])
  }

  predicate CanScan(s: State, id: nat) {
    && id in s.jobs && s.jobs[id].phase == Scanning && s.jobs[id].scanned < |s.jobs[id].stream|
    && var ix := s.jobs[id].stream[s.jobs[id].scanned];
       ix.file in s.files && ix.pos < |s.files[ix.file].recs|
  }

  function DoInstall(s: State, id: nat): State
    requires id in s.jobs
  {
    var job := s.jobs[id];
    s.(files := if job.out.Some? then s.files[job.out.value := File(job.outRecs, PendingGC)] else s.files,
       loggedNext := s.nextFile,
       jobs := s.jobs[id := job.(phase := Rewriting)])
  }

  /** The copy in the output that nobody points at; bitmaps are told about it. */
  function Dropped(job: Job, rw: Rewrite): set<Ix> {
    if job.useBitmap && rw.to.Blob? then {rw.to.ix} else {}
  }

  /** One conditional write: the key is re-pointed only if it still has the index the scan saw. */
  function DoRewriteNext(s: State, id: nat): State
    requires id in s.jobs && s.jobs[id].written < |s.jobs[id].rewrites|
  {
    var job := s.jobs[id];
    var rw := job.rewrites[job.written];
    var s' := s.(jobs := s.jobs[id := job.(written := job.written + 1)]);
    if Look(s.log, |s.log|, rw.key) == Blob(rw.from) then Append(s', Entry(rw.key, rw.to), Nop)
    else s'.(undelivered := s.undelivered + Dropped(job, rw))
  }

  function DoDeleteInputs(s: State, id: nat): State
    requires id in s.jobs
  {
    var job := s.jobs[id];
    s.(files := SetStates(s.files, job.inputs, Obsolete),
       obsolete := s.obsolete + map f | f in job.inputs :: |s.log|,
       loggedNext := s.nextFile,
       jobs := s.jobs[id := job.(phase := Deleted)])
  }

  /** ReleaseGcFiles: whatever stage the job reached, its files stop being reserved. */
  function DoReleaseJob(s: State, id: nat): State
    requires id in s.jobs
  {
    var job := s.jobs[id];
    s.(files := map f | f in s.files ::
           if (f in job.inputs && s.files[f].state == BeingGC) || (job.out == Some(f) && s.files[f].state == PendingGC)
           then s.files[f].(state := Normal) else s.files[f],
       jobs := s.jobs - {id})
  }

  // ---- purge and crash

  predicate IsOldest(snaps: map<nat, nat>, oldest: Option<nat>) {
    match oldest
    case None => snaps.Values == {}
    case Some(o) => o in snaps.Values && forall q :: q in snaps.Values ==> o <= q
  }

  predicate Above(oldest: Option<nat>, sequence: nat) {
    oldest.None? || oldest.value > sequence
  }

  function Purged(s: State, oldest: Option<nat>): set<nat> {
    set f | f in s.obsolete && Above(oldest, s.obsolete[f])
  }

  function DoPurgeRemove(s: State, oldest: Option<nat>): State {
    s.(files := s.files - Purged(s, oldest),
       obsolete := s.obsolete - Purged(s, oldest),
       purge := None)
  }

  /** A live snapshot reads from one of these files. */
  ghost predicate SnapshotReads(log: seq<Entry>, snaps: map<nat, nat>, fs: set<nat>) {
    exists q, k :: q in snaps.Values && q <= |log| && InFiles(Look(log, q, k), fs)
  }

  /** The running purge has seen no snapshot, but one is live by now and needs the job's inputs. */
  ghost predicate RaceOpens(s: State, id: nat)
    requires id in s.jobs
  {
    s.purge == Some(None) && SnapshotReads(s.log, s.snaps, s.jobs[id].inputs)
  }

  ghost function OldestOf(snaps: map<nat, nat>): (r: Option<nat>)
    ensures IsOldest(snaps, r)
  {
    if snaps.Values == {} then None else Some(MinOf(snaps.Values))
  }

  ghost function MinOf(vs: set<nat>): (m: nat)
    requires vs != {}
    ensures m in vs && forall q :: q in vs ==> m <= q
  {
    var x :| x in vs;
    if vs == {x} then x
    else
      assert vs - {x} != {};
      var m := MinOf(vs - {x});
      assert forall q :: q in vs ==> q == x || q in vs - {x};
      if x < m then x else m
  }

  /**
   The process dies and the LSM comes back with the first p writes.  Manifest recovery
   drops files recorded as deleted and everything that never entered the manifest.
   */
  function DoCrash(s: State, p: nat): State
    requires p <= |s.log| && p <= |s.spec|
  {
    State(s.log[..p], s.spec[..p], p, map[],
          map f | f in s.files && s.files[f].state != Obsolete :: s.files[f].(state := Normal),
          map[], s.loggedNext, s.loggedNext, map[], map[], {}, {}, None)
  }

  // ---- runs

  /**
   `locked` is the assumption that no purge races with a deletion: no file becomes obsolete for a
   purge that has seen no snapshot while a snapshot taken since then still reads from it.
   */
  ghost predicate Enabled(s: State, e: Event, locked: bool) {
    match e
    case UserPut(_, _) => true
    case UserDelete(_) => true
    case TakeSnapshot(id) => id !in s.snaps
    case ReleaseSnapshot(id) => id in s.snaps
    case SyncWal(upTo) => s.durable <= upTo <= |s.log|
    case TableOutput(id, newFiles, plan) => CanTableOutput(s, id, newFiles, plan)
    case TableInstall(id, upTo) => CanTableInstall(s, id, upTo)
    case TableCompleted(id) => id in s.tables && s.tables[id].installed
    case TableAbort(id) => id in s.tables && !s.tables[id].installed
    case Compact(dropped) => CanCompact(s, dropped)
    case Deliver(ixs) => ixs <= s.undelivered
    case Pick(id, inputs, stream, _, _) => CanPick(s, id, inputs, stream)
    case CopyBits(id) => id in s.jobs && s.jobs[id].phase == Scanning && s.jobs[id].scanned == 0
    case Scan(id) => CanScan(s, id)
    case Install(id) => id in s.jobs && s.jobs[id].phase == Scanning && s.jobs[id].scanned == |s.jobs[id].stream|
    case RewriteNext(id) => id in s.jobs && s.jobs[id].phase == Rewriting && s.jobs[id].written < |s.jobs[id].rewrites|
    case RewriteDone(id) => id in s.jobs && s.jobs[id].phase == Rewriting && s.jobs[id].written == |s.jobs[id].rewrites|
    case JobSync(id) => id in s.jobs && s.jobs[id].phase.Rewritten?
    case DeleteInputs(id) => id in s.jobs && s.jobs[id].phase.Synced? && (locked ==> !RaceOpens(s, id))
    case ReleaseJob(id) => id in s.jobs
    case PurgeBegin => s.purge.None?
    case PurgeRemove => s.purge.Some?
    case Crash(p) => s.durable <= p <= |s.log| && |s.spec| == |s.log|
  }

  ghost function Apply(s: State, e: Event): State
    requires Enabled(s, e, false)
  {
    match e
    case UserPut(k, v) => Append(s, Entry(k, Inline(v)), Put(k, v))
    case UserDelete(k) => Append(s, Entry(k, Tomb), Del(k))
    case TakeSnapshot(id) => s.(snaps := s.snaps[id := |s.log|])
    case ReleaseSnapshot(id) => s.(snaps := s.snaps - {id})
    case SyncWal(upTo) => s.(durable := upTo)
    case TableOutput(id, newFiles, plan) => DoTableOutput(s, id, newFiles, plan)
    case TableInstall(id, upTo) => DoTableInstall(s, id, upTo)
    case TableCompleted(id) =>
      s.(files := Settle(s.files, s.tables[id].lo, s.tables[id].hi), tables := s.tables - {id})
    case TableAbort(id) => s.(tables := s.tables - {id})
    case Compact(dropped) => DoCompact(s, dropped)
    case Deliver(ixs) => s.(bits := s.bits + ixs, undelivered := s.undelivered - ixs)
    case Pick(id, inputs, stream, useBitmap, fallback) => DoPick(s, id, inputs, stream, useBitmap, fallback)
    case CopyBits(id) => s.(jobs := s.jobs[id := s.jobs[id].(bits := s.bits)])
    case Scan(id) => DoScan(s, id)
    case Install(id) => DoInstall(s, id)
    case RewriteNext(id) => DoRewriteNext(s, id)
    case RewriteDone(id) => s.(jobs := s.jobs[id := s.jobs[id].(phase := Rewritten(|s.log|))])
    case JobSync(id) => s.(durable := |s.log|,
                           jobs := s.jobs[id := s.jobs[id].(phase := Synced(s.jobs[id].phase.doneAt))])
    case DeleteInputs(id) => DoDeleteInputs(s, id)
    case ReleaseJob(id) => DoReleaseJob(s, id)
    case PurgeBegin => s.(purge := Some(OldestOf(s.snaps)))
    case PurgeRemove => DoPurgeRemove(s, s.purge.value)
    case Crash(p) => DoCrash(s, p)
  }

  ghost predicate ValidRun(s: State, es: seq<Event>, locked: bool)
    decreases |es|
  {
    es == [] || (Enabled(s, es[0], locked) && ValidRun(Apply(s, es[0]), es[1..], locked))
  }

  ghost function Run(s: State, es: seq<Event>, locked: bool): State
    requires ValidRun(s, es, locked)
    decreases |es|
  {
    if es == [] then s else Run(Apply(s, es[0]), es[1..], locked)
  }
}
