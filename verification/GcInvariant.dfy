/** What every step of the GC protocol keeps. */
module GcInvariant {
  import opened Types
  import opened Lsm
  import opened GcProtocol

  // ---- reads

  /** Every sequence that can still be read agrees with the plain versioned map. */
  ghost predicate Sim(log: seq<Entry>, spec: seq<SpecOp>, files: map<nat, File>, durable: nat, snaps: map<nat, nat>) {
    && |spec| == |log| && durable <= |log|
    && (forall q :: q in snaps.Values ==> q <= |log|)
    && (forall p, k :: Observed(|log|, durable, snaps, p) ==> Read(log, files, p, k) == SpecRead(spec, p, k))
  }

  /** An obsolete file is out of sight from its obsolete sequence on, and in every crash state. */
  ghost predicate Clean(log: seq<Entry>, obsolete: map<nat, nat>, durable: nat, snaps: map<nat, nat>) {
    forall f, p, k :: f in obsolete && Observed(|log|, durable, snaps, p) && (obsolete[f] <= p || durable <= p) ==>
      !InFile(Look(log, p, k), f)
  }

  /** An index points at a record of its own key. */
  predicate KeysMatch(log: seq<Entry>, files: map<nat, File>) {
    forall i :: 0 <= i < |log| && log[i].val.Blob? && log[i].val.ix.file in files ==>
      var ix := log[i].val.ix;
      ix.pos < |files[ix.file].recs| && files[ix.file].recs[ix.pos].key == log[i].key
  }

  // ---- file numbers and states

  predicate Numbered(n: nat, files: map<nat, File>, obsolete: map<nat, nat>, loggedNext: nat, nextFile: nat) {
    && loggedNext <= nextFile
    && (forall f :: f in files ==> f < loggedNext)
    && (forall f :: f in obsolete ==> f in files && obsolete[f] <= n)
    && (forall f :: f in files ==> (f in obsolete <==> files[f].state == Obsolete))
  }

  /** No live snapshot reads from a file that the running purge will remove. */
  ghost predicate PurgeOk(log: seq<Entry>, purge: Option<Option<nat>>, obsolete: map<nat, nat>, snaps: map<nat, nat>) {
    purge.Some? ==>
      && (purge.value.Some? ==> purge.value.value <= |log|)
      && forall f, q, k :: f in obsolete && Above(purge.value, obsolete[f]) && q in snaps.Values && q <= |log| ==>
           !InFile(Look(log, q, k), f)
  }

  // ---- blob indexes

  predicate Used(log: seq<Entry>, dead: set<Ix>, ix: Ix) {
    Refers(log, ix) || ix in dead
  }

  /** Bitmap soundness: an invalidated index is in no entry of the LSM. */
  ghost predicate BitsSound(log: seq<Entry>, dead: set<Ix>) {
    forall ix :: ix in dead ==> !Refers(log, ix)
  }

  predicate Unique(log: seq<Entry>) {
    forall i, j :: 0 <= i < |log| && 0 <= j < |log| && log[i].val.Blob? && log[i].val == log[j].val ==> i == j
  }

  ghost predicate RefBound(log: seq<Entry>, loggedNext: nat) {
    forall ix :: Refers(log, ix) ==> ix.file < loggedNext
  }

  predicate DeadBound(dead: set<Ix>, nextFile: nat) {
    forall ix :: ix in dead ==> ix.file < nextFile
  }

  /** A job's output records are used in the order of its rewrites. */
  ghost predicate OutBound(log: seq<Entry>, dead: set<Ix>, job: Job) {
    forall ix :: Used(log, dead, ix) && job.out == Some(ix.file) ==> ix.pos < job.written
  }

  /** The blob files of a flush or compaction are unused until its SST is installed. */
  ghost predicate TableBound(log: seq<Entry>, dead: set<Ix>, t: Table) {
    !t.installed ==> forall ix :: Used(log, dead, ix) ==> !(t.lo <= ix.file < t.hi)
  }

  // ---- flushes and compactions in progress

  predicate PlanOk(log: seq<Entry>, files: map<nat, File>, t: Table) {
    && (forall i :: i in t.plan ==> i < |log| && (t.plan[i].Inline? || t.plan[i].Blob?))
    && (forall i :: i in t.plan && t.plan[i].Blob? ==>
          var ix := t.plan[i].ix;
          && t.lo <= ix.file < t.hi && ix.file in files
          && ix.pos < |files[ix.file].recs| && files[ix.file].recs[ix.pos].key == log[i].key)
    && (forall i, j :: i in t.plan && j in t.plan && t.plan[i].Blob? && t.plan[i] == t.plan[j] ==> i == j)
  }

  predicate TableOk(log: seq<Entry>, files: map<nat, File>, loggedNext: nat, t: Table) {
    && t.lo <= t.hi <= loggedNext
    && (!t.installed ==>
          && (forall f :: t.lo <= f < t.hi ==> f in files && files[f].state == PendingLSM)
          && PlanOk(log, files, t))
  }

  ghost predicate Tables(log: seq<Entry>, dead: set<Ix>, files: map<nat, File>, loggedNext: nat, tables: map<nat, Table>) {
    && (forall t :: t in tables ==> TableOk(log, files, loggedNext, tables[t]) && TableBound(log, dead, tables[t]))
    && (forall t, u :: t in tables && u in tables && t != u ==>
          tables[t].hi <= tables[u].lo || tables[u].hi <= tables[t].lo)
  }

  // ---- jobs

  /** A job's files stay reserved for it. */
  predicate Reserved(files: map<nat, File>, loggedNext: nat, nextFile: nat, job: Job) {
    && (job.phase != Deleted ==> forall f :: f in job.inputs ==> f in files && files[f].state == BeingGC)
    && (job.phase == Deleted ==> forall f :: f in job.inputs && f in files ==> files[f].state == Obsolete)
    && (forall f :: f in job.inputs ==> f < loggedNext)
    && (job.out.Some? ==> job.out.value < nextFile && job.out.value !in job.inputs)
    && (job.out.Some? && job.phase == Scanning ==> job.out.value !in files)
    && (job.out.Some? && job.phase != Scanning ==>
          && job.out.value < loggedNext
          && job.out.value in files && files[job.out.value] == File(job.outRecs, PendingGC))
  }

  predicate RewriteOk(files: map<nat, File>, inputs: set<nat>, fallback: bool, out: Option<nat>, outRecs: seq<Rec>,
                      rw: Rewrite, r: nat) {
    && rw.from.file in inputs && rw.from.file in files && rw.from.pos < |files[rw.from.file].recs|
    && var rec := files[rw.from.file].recs[rw.from.pos];
       && rw.key == rec.key
       && (if fallback then rw.to == Inline(rec.value)
           else out.Some? && rw.to == Blob(Ix(out.value, r)) && r < |outRecs| && outRecs[r] == rec)
  }

  predicate RewritesOk(files: map<nat, File>, inputs: set<nat>, fallback: bool, out: Option<nat>, outRecs: seq<Rec>,
                       rws: seq<Rewrite>) {
    forall r :: 0 <= r < |rws| ==> RewriteOk(files, inputs, fallback, out, outRecs, rws[r], r)
  }

  predicate JobData(files: map<nat, File>, bits: set<Ix>, job: Job) {
    && job.scanned <= |job.stream| && job.written <= |job.rewrites|
    && (job.phase == Scanning ==> job.written == 0)
    && job.bits <= bits
    && (job.useBitmap ==> !job.isFresh)
    && (if job.fallback then job.out.None? else |job.outRecs| == |job.rewrites|)
    && (job.out.None? && !job.fallback ==> job.rewrites == [])
    && (job.phase != Deleted ==>
          && Enumerates(files, job.inputs, job.stream)
          && RewritesOk(files, job.inputs, job.fallback, job.out, job.outRecs, job.rewrites))
  }

  predicate Pending(rws: seq<Rewrite>, n: nat, ix: Ix) {
    exists r :: n <= r < |rws| && rws[r].from == ix
  }

  /** ix is what some key reads at the latest sequence. */
  ghost predicate Latest(log: seq<Entry>, ix: Ix) {
    exists k :: Look(log, |log|, k) == Blob(ix)
  }

  /** No input record that a key still needs has been forgotten by the job. */
  ghost predicate Covered(log: seq<Entry>, durable: nat, job: Job) {
    match job.phase
    case Scanning =>
      && job.scanned <= |job.stream|
      && (forall ix :: Latest(log, ix) && ix.file in job.inputs ==>
            ix in job.stream[job.scanned..] || Pending(job.rewrites, 0, ix))
      && (job.isFresh ==>
            var val := Look(log, |log|, job.lastKey);
            InFiles(val, job.inputs) ==> Pending(job.rewrites, 0, val.ix))
    case Rewriting =>
      forall ix :: Latest(log, ix) && ix.file in job.inputs ==> Pending(job.rewrites, job.written, ix)
    case Rewritten(d) =>
      && d <= |log|
      && forall p, k :: d <= p <= |log| && durable <= p ==> !InFiles(Look(log, p, k), job.inputs)
    case Synced(d) =>
      && d <= durable
      && forall p, k :: durable <= p <= |log| ==> !InFiles(Look(log, p, k), job.inputs)
    case Deleted => true
  }

  ghost predicate JobOk(log: seq<Entry>, durable: nat, files: map<nat, File>, bits: set<Ix>, dead: set<Ix>,
                        loggedNext: nat, nextFile: nat, job: Job) {
    && Reserved(files, loggedNext, nextFile, job)
    && JobData(files, bits, job)
    && OutBound(log, dead, job)
    && Covered(log, durable, job)
  }

  ghost predicate AllJobs(log: seq<Entry>, durable: nat, files: map<nat, File>, bits: set<Ix>, dead: set<Ix>,
                          loggedNext: nat, nextFile: nat, jobs: map<nat, Job>) {
    forall j :: j in jobs ==> JobOk(log, durable, files, bits, dead, loggedNext, nextFile, jobs[j])
  }

  predicate Apart(jobs: map<nat, Job>, tables: map<nat, Table>) {
    && (forall j, k :: j in jobs && k in jobs && j != k ==>
          && jobs[j].inputs !! jobs[k].inputs
          && (jobs[j].out.Some? ==> jobs[j].out != jobs[k].out && jobs[j].out.value !in jobs[k].inputs))
    && (forall j, t :: j in jobs && t in tables && jobs[j].out.Some? ==>
          !(tables[t].lo <= jobs[j].out.value < tables[t].hi))
  }

  ghost predicate Inv(s: State) {
    var dead := s.bits + s.undelivered;
    && Sim(s.log, s.spec, s.files, s.durable, s.snaps)
    && Clean(s.log, s.obsolete, s.durable, s.snaps)
    && KeysMatch(s.log, s.files)
    && Numbered(|s.log|, s.files, s.obsolete, s.loggedNext, s.nextFile)
    && PurgeOk(s.log, s.purge, s.obsolete, s.snaps)
    && Unique(s.log) && BitsSound(s.log, dead) && RefBound(s.log, s.loggedNext) && DeadBound(dead, s.nextFile)
    && Tables(s.log, dead, s.files, s.loggedNext, s.tables)
    && AllJobs(s.log, s.durable, s.files, s.bits, dead, s.loggedNext, s.nextFile, s.jobs)
    && Apart(s.jobs, s.tables)
  }
}
