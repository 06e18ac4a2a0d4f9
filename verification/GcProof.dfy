/** Each step of the protocol keeps the invariant. */
module GcProof {
  import opened Types
  import opened Lsm
  import opened GcProtocol
  import opened GcInvariant

  // ---- appending to the log

  /** What an appended entry must mean, given the user operation it stands for. */
  predicate Faithful(log: seq<Entry>, files: map<nat, File>, e: Entry, op: SpecOp) {
    match op
    case Put(k, v) => e.key == k && Meaning(files, e.val) == Found(v)
    case Del(k) => e.key == k && Meaning(files, e.val) == NotFound
    case Nop => Meaning(files, e.val) == Read(log, files, |log|, e.key)
  }

  lemma SimAppend(log: seq<Entry>, spec: seq<SpecOp>, files: map<nat, File>, durable: nat, snaps: map<nat, nat>,
                  e: Entry, op: SpecOp)
    requires Sim(log, spec, files, durable, snaps)
    requires e.val != Hole && Faithful(log, files, e, op)
    ensures Sim(log + [e], spec + [op], files, durable, snaps)
  {
    var log', spec' := log + [e], spec + [op];
    forall p: nat, k | Observed(|log'|, durable, snaps, p)
      ensures Read(log', files, p, k) == SpecRead(spec', p, k)
    {
      LookAppend(log, e, p, k);
      var q := if p <= |log| then p else |log|;
      assert Observed(|log|, durable, snaps, q);
      SpecReadPrefix(spec, spec', q, k);
    }
  }

  lemma CleanAppend(log: seq<Entry>, obsolete: map<nat, nat>, durable: nat, snaps: map<nat, nat>, e: Entry)
    requires Clean(log, obsolete, durable, snaps)
    requires durable <= |log| && e.val != Hole && !InFiles(e.val, obsolete.Keys)
    ensures Clean(log + [e], obsolete, durable, snaps)
  {
    var log' := log + [e];
    forall f, p: nat, k | f in obsolete && Observed(|log'|, durable, snaps, p) && (obsolete[f] <= p || durable <= p)
      ensures !InFile(Look(log', p, k), f)
    {
      LookAppend(log, e, p, k);
      assert Observed(|log|, durable, snaps, if p <= |log| then p else |log|);
    }
  }

  lemma PurgeAppend(log: seq<Entry>, purge: Option<Option<nat>>, obsolete: map<nat, nat>, snaps: map<nat, nat>, e: Entry)
    requires PurgeOk(log, purge, obsolete, snaps) && e.val != Hole
    requires forall q :: q in snaps.Values ==> q <= |log|
    ensures PurgeOk(log + [e], purge, obsolete, snaps)
  {
    if purge.Some? {
      forall f, q: nat, k | f in obsolete && Above(purge.value, obsolete[f]) && q in snaps.Values
        ensures !InFile(Look(log + [e], q, k), f)
      {
        LookAppend(log, e, q, k);
      }
    }
  }

  lemma RefersAppend(log: seq<Entry>, e: Entry)
    ensures forall ix :: Refers(log + [e], ix) <==> Refers(log, ix) || e.val == Blob(ix)
  {
    forall ix
      ensures Refers(log + [e], ix) <==> Refers(log, ix) || e.val == Blob(ix)
    {
      var l' := log + [e];
      if Refers(log, ix) {
        var i :| 0 <= i < |log| && log[i].val == Blob(ix);
        assert l'[i].val == Blob(ix);
      }
      if e.val == Blob(ix) { assert l'[|log|].val == Blob(ix); }
    }
  }

  // ---- the log changes under a job

  /** From log to log', nothing new points into the files fs. */
  ghost predicate Fades(log: seq<Entry>, log': seq<Entry>, durable: nat, fs: set<nat>) {
    && |log| <= |log'|
    && forall p, k :: durable <= p <= |log'| && InFiles(Look(log', p, k), fs) ==>
         Look(log', p, k) == Look(log, if p < |log| then p else |log|, k)
  }

  lemma CoveredFades(log: seq<Entry>, log': seq<Entry>, durable: nat, durable': nat, job: Job)
    requires Covered(log, durable, job)
    requires durable <= |log| && durable <= durable' <= |log'|
    requires Fades(log, log', durable, job.inputs)
    ensures Covered(log', durable', job)
  {
    forall ix | Latest(log', ix) && ix.file in job.inputs
      ensures Latest(log, ix)
    {
      var k :| Look(log', |log'|, k) == Blob(ix);
      assert Look(log, |log|, k) == Blob(ix);
    }
  }

  lemma FadesAppend(log: seq<Entry>, e: Entry, durable: nat, fs: set<nat>)
    requires e.val != Hole && !InFiles(e.val, fs)
    ensures Fades(log, log + [e], durable, fs)
  {
    var log' := log + [e];
    forall p, k | durable <= p <= |log'| && InFiles(Look(log', p, k), fs)
      ensures Look(log', p, k) == Look(log, if p < |log| then p else |log|, k)
    {
      LookAppend(log, e, p, k);
    }
  }

  lemma FadesReplace(log: seq<Entry>, plan: map<nat, Val>, durable: nat, fs: set<nat>)
    requires forall i :: i in plan && i < |log| ==> plan[i] != Hole && log[i].val != Hole && !InFiles(plan[i], fs)
    ensures Fades(log, Replace(log, plan), durable, fs)
  {
    var log' := Replace(log, plan);
    forall p, k | durable <= p <= |log| && InFiles(Look(log', p, k), fs)
      ensures Look(log', p, k) == Look(log, p, k)
    {
      PosReplace(log, plan, p, k);
    }
  }

  lemma FadesDrop(s: State, dropped: set<nat>, fs: set<nat>)
    requires CanCompact(s, dropped)
    ensures Fades(s.log, Drop(s.log, dropped), s.durable, fs)
  {
    var log' := Drop(s.log, dropped);
    forall p, k | s.durable <= p <= |log'|
      ensures Look(log', p, k) == Look(s.log, if p < |s.log| then p else |s.log|, k)
    {
      assert Observed(|s.log|, s.durable, s.snaps, p);
    }
  }

  /** A write that goes to none of the job's files below its own mark. */
  lemma JobAppend(s: State, j: nat, e: Entry)
    requires Inv(s) && j in s.jobs
    requires e.val != Hole && !InFiles(e.val, s.jobs[j].inputs)
    requires e.val.Blob? && s.jobs[j].out == Some(e.val.ix.file) ==> e.val.ix.pos < s.jobs[j].written
    ensures JobOk(s.log + [e], s.durable, s.files, s.bits, s.bits + s.undelivered, s.loggedNext, s.nextFile, s.jobs[j])
  {
    var job := s.jobs[j];
    FadesAppend(s.log, e, s.durable, job.inputs);
    CoveredFades(s.log, s.log + [e], s.durable, s.durable, job);
    RefersAppend(s.log, e);
  }

  lemma TableAppend(log: seq<Entry>, dead: set<Ix>, files: map<nat, File>, loggedNext: nat, t: Table, e: Entry)
    requires TableOk(log, files, loggedNext, t) && TableBound(log, dead, t)
    requires e.val.Blob? && !t.installed ==> !(t.lo <= e.val.ix.file < t.hi)
    ensures TableOk(log + [e], files, loggedNext, t) && TableBound(log + [e], dead, t)
  {
    RefersAppend(log, e);
  }

  lemma IndexesAppend(log: seq<Entry>, dead: set<Ix>, files: map<nat, File>, loggedNext: nat, e: Entry)
    requires Unique(log) && BitsSound(log, dead) && RefBound(log, loggedNext) && KeysMatch(log, files)
    requires e.val.Blob? ==>
               && !Used(log, dead, e.val.ix) && e.val.ix.file < loggedNext
               && (e.val.ix.file in files ==>
                     && e.val.ix.pos < |files[e.val.ix.file].recs|
                     && files[e.val.ix.file].recs[e.val.ix.pos].key == e.key)
    ensures Unique(log + [e]) && BitsSound(log + [e], dead) && RefBound(log + [e], loggedNext)
    ensures KeysMatch(log + [e], files)
  {
    RefersAppend(log, e);
    forall i | 0 <= i < |log| && log[i].val.Blob?
      ensures log[i].val != e.val
    {
      assert Refers(log, log[i].val.ix);
    }
  }

  lemma UserWrite(s: State, e: Entry, op: SpecOp)
    requires Inv(s)
    requires !e.val.Blob? && e.val != Hole && !op.Nop? && Faithful(s.log, s.files, e, op)
    ensures Inv(Append(s, e, op))
  {
    var s' := Append(s, e, op);
    var dead := s.bits + s.undelivered;
    SimAppend(s.log, s.spec, s.files, s.durable, s.snaps, e, op);
    CleanAppend(s.log, s.obsolete, s.durable, s.snaps, e);
    PurgeAppend(s.log, s.purge, s.obsolete, s.snaps, e);
    IndexesAppend(s.log, dead, s.files, s.loggedNext, e);
    forall t | t in s.tables
      ensures TableOk(s'.log, s.files, s.loggedNext, s.tables[t]) && TableBound(s'.log, dead, s.tables[t])
    {
      TableAppend(s.log, dead, s.files, s.loggedNext, s.tables[t], e);
    }
    forall j | j in s.jobs
      ensures JobOk(s'.log, s.durable, s.files, s.bits, dead, s.loggedNext, s.nextFile, s.jobs[j])
    {
      JobAppend(s, j, e);
    }
  }

  // ---- snapshots and durability

  lemma SnapshotTaken(s: State, id: nat)
    requires Inv(s) && id !in s.snaps
    ensures Inv(s.(snaps := s.snaps[id := |s.log|]))
  {
    var snaps' := s.snaps[id := |s.log|];
    forall q | q in snaps'.Values
      ensures q in s.snaps.Values || q == |s.log|
    {
    }
    assert Sim(s.log, s.spec, s.files, s.durable, snaps');
    assert Clean(s.log, s.obsolete, s.durable, snaps');
  }

  lemma SnapshotReleased(s: State, id: nat)
    requires Inv(s)
    ensures Inv(s.(snaps := s.snaps - {id}))
  {
    var snaps' := s.snaps - {id};
    forall q | q in snaps'.Values
      ensures q in s.snaps.Values
    {
    }
    assert Sim(s.log, s.spec, s.files, s.durable, snaps');
    assert Clean(s.log, s.obsolete, s.durable, snaps');
  }

  lemma DurableGrows(s: State, upTo: nat)
    requires Inv(s) && s.durable <= upTo <= |s.log|
    ensures Inv(s.(durable := upTo))
  {
    var dead := s.bits + s.undelivered;
    assert Sim(s.log, s.spec, s.files, upTo, s.snaps);
    assert Clean(s.log, s.obsolete, upTo, s.snaps);
    forall j | j in s.jobs
      ensures JobOk(s.log, upTo, s.files, s.bits, dead, s.loggedNext, s.nextFile, s.jobs[j])
    {
      CoveredFades(s.log, s.log, s.durable, upTo, s.jobs[j]);
    }
  }

  // ---- flushes and compactions

  /** New files do not disturb a reader. */
  lemma SimMoreFiles(log: seq<Entry>, spec: seq<SpecOp>, files: map<nat, File>, files': map<nat, File>,
                     durable: nat, snaps: map<nat, nat>)
    requires Sim(log, spec, files, durable, snaps)
    requires forall f :: f in files ==> f in files' && files'[f].recs == files[f].recs
    ensures Sim(log, spec, files', durable, snaps)
  {
    forall p: nat, k | Observed(|log|, durable, snaps, p)
      ensures Read(log, files', p, k) == SpecRead(spec, p, k)
    {
      assert Read(log, files, p, k) == SpecRead(spec, p, k);
    }
  }

  lemma JobDataFiles(files: map<nat, File>, files': map<nat, File>, bits: set<Ix>, job: Job)
    requires JobData(files, bits, job)
    requires job.phase != Deleted ==> forall f :: f in job.inputs ==>
               f in files && f in files' && files'[f].recs == files[f].recs
    ensures JobData(files', bits, job)
  {
    if job.phase != Deleted {
      forall r | 0 <= r < |job.rewrites|
        ensures RewriteOk(files', job.inputs, job.fallback, job.out, job.outRecs, job.rewrites[r], r)
      {
        assert RewriteOk(files, job.inputs, job.fallback, job.out, job.outRecs, job.rewrites[r], r);
      }
    }
  }

  lemma KeysMatchFiles(log: seq<Entry>, files: map<nat, File>, files': map<nat, File>, bound: nat)
    requires KeysMatch(log, files) && RefBound(log, bound)
    requires forall f :: f in files' && f < bound ==> f in files && files'[f].recs == files[f].recs
    ensures KeysMatch(log, files')
  {
    forall i | 0 <= i < |log| && log[i].val.Blob?
      ensures log[i].val.ix.file < bound
    {
      assert Refers(log, log[i].val.ix);
    }
  }

  /** A job's own view, when the file map changes outside its files. */
  lemma JobFiles(log: seq<Entry>, durable: nat, files: map<nat, File>, files': map<nat, File>, bits: set<Ix>, dead: set<Ix>,
                 loggedNext: nat, loggedNext': nat, nextFile: nat, nextFile': nat, job: Job)
    requires JobOk(log, durable, files, bits, dead, loggedNext, nextFile, job)
    requires loggedNext <= loggedNext' && nextFile <= nextFile' && SameFor(files, files', job)
    ensures JobOk(log, durable, files', bits, dead, loggedNext', nextFile', job)
  {
    JobDataFiles(files, files', bits, job);
  }

  /** The files of a job are the same in both maps; a job that is done only needs that none comes back. */
  predicate SameFor(files: map<nat, File>, files': map<nat, File>, job: Job) {
    && (forall f :: f in job.inputs && f in files && job.phase != Deleted ==> f in files' && files'[f] == files[f])
    && (forall f :: f in job.inputs && f in files' && job.phase == Deleted ==> f in files && files'[f] == files[f])
    && (job.out.Some? ==> if job.out.value in files
                          then job.out.value in files' && files'[job.out.value] == files[job.out.value]
                          else job.out.value !in files')
  }

  lemma AllJobsFiles(log: seq<Entry>, durable: nat, files: map<nat, File>, files': map<nat, File>, bits: set<Ix>, dead: set<Ix>,
                     loggedNext: nat, loggedNext': nat, nextFile: nat, nextFile': nat, jobs: map<nat, Job>)
    requires AllJobs(log, durable, files, bits, dead, loggedNext, nextFile, jobs)
    requires loggedNext <= loggedNext' && nextFile <= nextFile'
    requires forall j :: j in jobs ==> SameFor(files, files', jobs[j])
    ensures AllJobs(log, durable, files', bits, dead, loggedNext', nextFile', jobs)
  {
    forall j | j in jobs
      ensures JobOk(log, durable, files', bits, dead, loggedNext', nextFile', jobs[j])
    {
      JobFiles(log, durable, files, files', bits, dead, loggedNext, loggedNext', nextFile, nextFile', jobs[j]);
    }
  }

  lemma TableFiles(log: seq<Entry>, files: map<nat, File>, files': map<nat, File>, loggedNext: nat, loggedNext': nat, t: Table)
    requires TableOk(log, files, loggedNext, t) && loggedNext <= loggedNext'
    requires !t.installed ==> forall f :: t.lo <= f < t.hi && f in files ==> f in files' && files'[f] == files[f]
    ensures TableOk(log, files', loggedNext', t)
  {
  }

  lemma NewTable(s: State, id: nat, newFiles: seq<seq<Rec>>, plan: map<nat, Val>)
    requires CanTableOutput(s, id, newFiles, plan) && s.loggedNext <= s.nextFile
    requires RefBound(s.log, s.loggedNext) && DeadBound(s.bits + s.undelivered, s.nextFile)
    ensures var s' := DoTableOutput(s, id, newFiles, plan);
            && TableOk(s.log, s'.files, s'.loggedNext, s'.tables[id])
            && TableBound(s.log, s.bits + s.undelivered, s'.tables[id])
  {
  }

  lemma TableWrittenTables(s: State, id: nat, newFiles: seq<seq<Rec>>, plan: map<nat, Val>)
    requires Tables(s.log, s.bits + s.undelivered, s.files, s.loggedNext, s.tables)
    requires Numbered(|s.log|, s.files, s.obsolete, s.loggedNext, s.nextFile)
    requires RefBound(s.log, s.loggedNext) && DeadBound(s.bits + s.undelivered, s.nextFile)
    requires CanTableOutput(s, id, newFiles, plan)
    ensures var s' := DoTableOutput(s, id, newFiles, plan);
            Tables(s.log, s.bits + s.undelivered, s'.files, s'.loggedNext, s'.tables)
  {
    var s' := DoTableOutput(s, id, newFiles, plan);
    var dead := s.bits + s.undelivered;
    NewTable(s, id, newFiles, plan);
    forall t | t in s.tables
      ensures TableOk(s.log, s'.files, s'.loggedNext, s.tables[t]) && TableBound(s.log, dead, s.tables[t])
    {
      TableFiles(s.log, s.files, s'.files, s.loggedNext, s'.loggedNext, s.tables[t]);
    }
  }

  lemma TableWrittenSame(files: map<nat, File>, files': map<nat, File>, loggedNext: nat, nextFile: nat, job: Job)
    requires Reserved(files, loggedNext, nextFile, job) && loggedNext <= nextFile
    requires forall f :: f in files ==> f in files' && files'[f] == files[f]
    requires forall f :: f in files' && f !in files ==> nextFile <= f
    ensures SameFor(files, files', job)
  {
  }

  lemma TableWrittenJobs(s: State, id: nat, newFiles: seq<seq<Rec>>, plan: map<nat, Val>)
    requires AllJobs(s.log, s.durable, s.files, s.bits, s.bits + s.undelivered, s.loggedNext, s.nextFile, s.jobs)
    requires Numbered(|s.log|, s.files, s.obsolete, s.loggedNext, s.nextFile)
    requires CanTableOutput(s, id, newFiles, plan)
    ensures var s' := DoTableOutput(s, id, newFiles, plan);
            AllJobs(s.log, s.durable, s'.files, s.bits, s.bits + s.undelivered, s'.loggedNext, s'.nextFile, s.jobs)
  {
    var s' := DoTableOutput(s, id, newFiles, plan);
    forall j | j in s.jobs
      ensures SameFor(s.files, s'.files, s.jobs[j])
    {
      assert JobOk(s.log, s.durable, s.files, s.bits, s.bits + s.undelivered, s.loggedNext, s.nextFile, s.jobs[j]);
      TableWrittenSame(s.files, s'.files, s.loggedNext, s.nextFile, s.jobs[j]);
    }
    AllJobsFiles(s.log, s.durable, s.files, s'.files, s.bits, s.bits + s.undelivered,
                 s.loggedNext, s'.loggedNext, s.nextFile, s'.nextFile, s.jobs);
  }

  lemma TableWrittenApart(s: State, id: nat, newFiles: seq<seq<Rec>>, plan: map<nat, Val>)
    requires AllJobs(s.log, s.durable, s.files, s.bits, s.bits + s.undelivered, s.loggedNext, s.nextFile, s.jobs)
    requires CanTableOutput(s, id, newFiles, plan) && Apart(s.jobs, s.tables)
    ensures Apart(s.jobs, DoTableOutput(s, id, newFiles, plan).tables)
  {
    forall j | j in s.jobs && s.jobs[j].out.Some?
      ensures s.jobs[j].out.value < s.nextFile
    {
      assert JobOk(s.log, s.durable, s.files, s.bits, s.bits + s.undelivered, s.loggedNext, s.nextFile, s.jobs[j]);
    }
  }

  lemma TableWritten(s: State, id: nat, newFiles: seq<seq<Rec>>, plan: map<nat, Val>)
    requires Inv(s) && CanTableOutput(s, id, newFiles, plan)
    ensures Inv(DoTableOutput(s, id, newFiles, plan))
  {
    var s' := DoTableOutput(s, id, newFiles, plan);
    SimMoreFiles(s.log, s.spec, s.files, s'.files, s.durable, s.snaps);
    KeysMatchFiles(s.log, s.files, s'.files, s.loggedNext);
    TableWrittenTables(s, id, newFiles, plan);
    TableWrittenJobs(s, id, newFiles, plan);
    TableWrittenApart(s, id, newFiles, plan);
  }

  // ---- installing an SST

  lemma SimInstall(log: seq<Entry>, spec: seq<SpecOp>, files: map<nat, File>, durable: nat, durable': nat,
                   snaps: map<nat, nat>, plan: map<nat, Val>)
    requires Sim(log, spec, files, durable, snaps) && durable <= durable' <= |log|
    requires forall i :: i in plan ==>
               && i < |log| && plan[i] != Hole && (log[i].val.Inline? || log[i].val.Blob?)
               && (Meaning(files, log[i].val).Found? ==> Meaning(files, plan[i]) == Meaning(files, log[i].val))
    ensures Sim(Replace(log, plan), spec, files, durable', snaps)
  {
    var log' := Replace(log, plan);
    forall p: nat, k | Observed(|log'|, durable', snaps, p)
      ensures Read(log', files, p, k) == SpecRead(spec, p, k)
    {
      PosReplace(log, plan, p, k);
      assert Read(log, files, p, k) == SpecRead(spec, p, k);
    }
  }

  lemma CleanInstall(log: seq<Entry>, obsolete: map<nat, nat>, durable: nat, durable': nat, snaps: map<nat, nat>, plan: map<nat, Val>)
    requires Clean(log, obsolete, durable, snaps) && durable <= durable' <= |log|
    requires forall i :: i in plan ==> i < |log| && plan[i] != Hole && log[i].val != Hole && !InFiles(plan[i], obsolete.Keys)
    ensures Clean(Replace(log, plan), obsolete, durable', snaps)
  {
    var log' := Replace(log, plan);
    forall f, p: nat, k | f in obsolete && Observed(|log'|, durable', snaps, p) && (obsolete[f] <= p || durable' <= p)
      ensures !InFile(Look(log', p, k), f)
    {
      PosReplace(log, plan, p, k);
      assert !InFile(Look(log, p, k), f);
    }
  }

  lemma PurgeInstall(log: seq<Entry>, purge: Option<Option<nat>>, obsolete: map<nat, nat>, snaps: map<nat, nat>, plan: map<nat, Val>)
    requires PurgeOk(log, purge, obsolete, snaps)
    requires forall i :: i in plan ==> i < |log| && plan[i] != Hole && log[i].val != Hole && !InFiles(plan[i], obsolete.Keys)
    ensures PurgeOk(Replace(log, plan), purge, obsolete, snaps)
  {
    if purge.Some? {
      forall f, q: nat, k | f in obsolete && Above(purge.value, obsolete[f]) && q in snaps.Values && q <= |log|
        ensures !InFile(Look(Replace(log, plan), q, k), f)
      {
        PosReplace(log, plan, q, k);
        assert !InFile(Look(log, q, k), f);
      }
    }
  }

  /** What the log refers to after entries were replaced in place. */
  lemma RefersReplace(log: seq<Entry>, plan: map<nat, Val>, ix: Ix)
    requires Unique(log) && Refers(Replace(log, plan), ix)
    ensures (Refers(log, ix) && ix !in Removed(log, plan.Keys)) || exists i :: i in plan && plan[i] == Blob(ix)
  {
    var log' := Replace(log, plan);
    var i :| 0 <= i < |log'| && log'[i].val == Blob(ix);
    if i !in plan {
      assert log[i].val == Blob(ix);
    }
  }

  lemma IndexesInstall(log: seq<Entry>, dead: set<Ix>, files: map<nat, File>, loggedNext: nat, nextFile: nat, t: Table)
    requires Unique(log) && BitsSound(log, dead) && RefBound(log, loggedNext) && KeysMatch(log, files)
    requires DeadBound(dead, nextFile) && loggedNext <= nextFile
    requires TableOk(log, files, loggedNext, t) && TableBound(log, dead, t) && !t.installed
    ensures var log', dead' := Replace(log, t.plan), dead + Removed(log, t.plan.Keys);
            && Unique(log') && BitsSound(log', dead') && RefBound(log', loggedNext)
            && KeysMatch(log', files) && DeadBound(dead', nextFile)
  {
    var log', dead' := Replace(log, t.plan), dead + Removed(log, t.plan.Keys);
    forall i | 0 <= i < |log| && log[i].val.Blob?
      ensures Refers(log, log[i].val.ix)
    {
    }
    forall ix | Refers(log', ix)
      ensures ix !in dead' && ix.file < loggedNext
    {
      RefersReplace(log, t.plan, ix);
    }
  }

  lemma UsedInstall(log: seq<Entry>, dead: set<Ix>, t: Table, ix: Ix)
    requires Unique(log)
    requires Used(Replace(log, t.plan), dead + Removed(log, t.plan.Keys), ix)
    ensures Used(log, dead, ix) || exists i :: i in t.plan && t.plan[i] == Blob(ix)
  {
    if Refers(Replace(log, t.plan), ix) {
      RefersReplace(log, t.plan, ix);
    } else if ix in Removed(log, t.plan.Keys) {
      assert Refers(log, ix);
    }
  }

  lemma OtherTableInstall(log: seq<Entry>, dead: set<Ix>, files: map<nat, File>, loggedNext: nat, t: Table, u: Table)
    requires Unique(log)
    requires TableOk(log, files, loggedNext, t) && !t.installed
    requires TableOk(log, files, loggedNext, u) && TableBound(log, dead, u)
    requires t.hi <= u.lo || u.hi <= t.lo
    ensures TableOk(Replace(log, t.plan), files, loggedNext, u)
    ensures TableBound(Replace(log, t.plan), dead + Removed(log, t.plan.Keys), u)
  {
    var log', dead' := Replace(log, t.plan), dead + Removed(log, t.plan.Keys);
    if !u.installed {
      forall ix | Used(log', dead', ix)
        ensures !(u.lo <= ix.file < u.hi)
      {
        UsedInstall(log, dead, t, ix);
      }
    }
  }

  /** The files of a table that is not installed belong to nobody else. */
  lemma PlanAvoids(s: State, id: nat, upTo: nat)
    requires Inv(s) && CanTableInstall(s, id, upTo)
    ensures forall i :: i in s.tables[id].plan ==>
              && i < |s.log| && s.tables[id].plan[i] != Hole && s.log[i].val != Hole
              && !InFiles(s.tables[id].plan[i], s.obsolete.Keys)
    ensures forall j, i :: j in s.jobs && s.jobs[j].phase != Deleted && i in s.tables[id].plan ==>
              !InFiles(s.tables[id].plan[i], s.jobs[j].inputs)
  {
    assert TableOk(s.log, s.files, s.loggedNext, s.tables[id]);
  }

  lemma JobInstall(s: State, id: nat, upTo: nat, j: nat)
    requires Inv(s) && CanTableInstall(s, id, upTo) && j in s.jobs
    ensures var s' := DoTableInstall(s, id, upTo);
            JobOk(s'.log, s'.durable, s.files, s.bits, s.bits + s'.undelivered, s.loggedNext, s.nextFile, s.jobs[j])
  {
    var s' := DoTableInstall(s, id, upTo);
    var job, t := s.jobs[j], s.tables[id];
    var dead := s.bits + s.undelivered;
    assert s.bits + s'.undelivered == dead + Removed(s.log, t.plan.Keys);
    assert Covered(s'.log, s'.durable, job) by {
      if job.phase != Deleted {
        PlanAvoids(s, id, upTo);
        FadesReplace(s.log, t.plan, s.durable, job.inputs);
        CoveredFades(s.log, s'.log, s.durable, s'.durable, job);
      }
    }
    OutInstall(s.log, dead, s.files, s.loggedNext, t, job);
  }

  lemma OutInstall(log: seq<Entry>, dead: set<Ix>, files: map<nat, File>, loggedNext: nat, t: Table, job: Job)
    requires Unique(log) && TableOk(log, files, loggedNext, t) && !t.installed
    requires OutBound(log, dead, job)
    requires job.out.Some? ==> !(t.lo <= job.out.value < t.hi)
    ensures OutBound(Replace(log, t.plan), dead + Removed(log, t.plan.Keys), job)
  {
    forall ix | Used(Replace(log, t.plan), dead + Removed(log, t.plan.Keys), ix) && job.out == Some(ix.file)
      ensures ix.pos < job.written
    {
      UsedInstall(log, dead, t, ix);
    }
  }

  lemma TablesInstall(s: State, id: nat, upTo: nat)
    requires Inv(s) && CanTableInstall(s, id, upTo)
    ensures var s' := DoTableInstall(s, id, upTo);
            Tables(s'.log, s.bits + s'.undelivered, s.files, s.loggedNext, s'.tables)
  {
    var s' := DoTableInstall(s, id, upTo);
    var t := s.tables[id];
    var dead := s.bits + s.undelivered;
    assert s.bits + s'.undelivered == dead + Removed(s.log, t.plan.Keys);
    forall u | u in s.tables && u != id
      ensures TableOk(s'.log, s.files, s.loggedNext, s.tables[u])
      ensures TableBound(s'.log, s.bits + s'.undelivered, s.tables[u])
    {
      OtherTableInstall(s.log, dead, s.files, s.loggedNext, t, s.tables[u]);
    }
  }

  lemma TableInstalled(s: State, id: nat, upTo: nat)
    requires Inv(s) && CanTableInstall(s, id, upTo)
    ensures Inv(DoTableInstall(s, id, upTo))
  {
    var s' := DoTableInstall(s, id, upTo);
    var t := s.tables[id];
    var dead := s.bits + s.undelivered;
    assert s.bits + s'.undelivered == dead + Removed(s.log, t.plan.Keys);
    PlanAvoids(s, id, upTo);
    SimInstall(s.log, s.spec, s.files, s.durable, s'.durable, s.snaps, t.plan);
    CleanInstall(s.log, s.obsolete, s.durable, s'.durable, s.snaps, t.plan);
    PurgeInstall(s.log, s.purge, s.obsolete, s.snaps, t.plan);
    IndexesInstall(s.log, dead, s.files, s.loggedNext, s.nextFile, t);
    TablesInstall(s, id, upTo);
    forall j | j in s.jobs
      ensures JobOk(s'.log, s'.durable, s.files, s.bits, s.bits + s'.undelivered, s.loggedNext, s.nextFile, s.jobs[j])
    {
      JobInstall(s, id, upTo, j);
    }
  }

  lemma SettledJobs(log: seq<Entry>, durable: nat, files: map<nat, File>, bits: set<Ix>, dead: set<Ix>,
                    loggedNext: nat, nextFile: nat, jobs: map<nat, Job>, lo: nat, hi: nat)
    requires AllJobs(log, durable, files, bits, dead, loggedNext, nextFile, jobs)
    ensures AllJobs(log, durable, Settle(files, lo, hi), bits, dead, loggedNext, nextFile, jobs)
  {
    forall j | j in jobs
      ensures SameFor(files, Settle(files, lo, hi), jobs[j])
    {
      assert JobOk(log, durable, files, bits, dead, loggedNext, nextFile, jobs[j]);
    }
    AllJobsFiles(log, durable, files, Settle(files, lo, hi), bits, dead, loggedNext, loggedNext, nextFile, nextFile, jobs);
  }

  lemma SettledTables(log: seq<Entry>, dead: set<Ix>, files: map<nat, File>, loggedNext: nat, tables: map<nat, Table>, id: nat)
    requires Tables(log, dead, files, loggedNext, tables) && id in tables
    ensures Tables(log, dead, Settle(files, tables[id].lo, tables[id].hi), loggedNext, tables - {id})
  {
    var files' := Settle(files, tables[id].lo, tables[id].hi);
    forall u | u in tables && u != id
      ensures TableOk(log, files', loggedNext, tables[u])
    {
      TableFiles(log, files, files', loggedNext, loggedNext, tables[u]);
    }
  }

  lemma TableSettled(s: State, id: nat)
    requires Inv(s) && id in s.tables && s.tables[id].installed
    ensures Inv(s.(files := Settle(s.files, s.tables[id].lo, s.tables[id].hi), tables := s.tables - {id}))
  {
    var files' := Settle(s.files, s.tables[id].lo, s.tables[id].hi);
    SimMoreFiles(s.log, s.spec, s.files, files', s.durable, s.snaps);
    KeysMatchFiles(s.log, s.files, files', s.loggedNext);
    SettledTables(s.log, s.bits + s.undelivered, s.files, s.loggedNext, s.tables, id);
    SettledJobs(s.log, s.durable, s.files, s.bits, s.bits + s.undelivered, s.loggedNext, s.nextFile, s.jobs,
                s.tables[id].lo, s.tables[id].hi);
  }

  lemma TableAborted(s: State, id: nat)
    requires Inv(s)
    ensures Inv(s.(tables := s.tables - {id}))
  {
  }

  // ---- compaction

  lemma RefersDrop(log: seq<Entry>, dropped: set<nat>, ix: Ix)
    requires Unique(log) && Refers(Drop(log, dropped), ix)
    ensures Refers(log, ix) && ix !in Removed(log, dropped)
  {
    var i :| 0 <= i < |log| && Drop(log, dropped)[i].val == Blob(ix);
    assert log[i].val == Blob(ix);
  }

  lemma UsedDrop(log: seq<Entry>, dead: set<Ix>, dropped: set<nat>, ix: Ix)
    requires Unique(log) && Used(Drop(log, dropped), dead + Removed(log, dropped), ix)
    ensures Used(log, dead, ix)
  {
    if Refers(Drop(log, dropped), ix) {
      RefersDrop(log, dropped, ix);
    } else if ix in Removed(log, dropped) {
      assert Refers(log, ix);
    }
  }

  lemma IndexesDrop(log: seq<Entry>, dead: set<Ix>, files: map<nat, File>, loggedNext: nat, nextFile: nat, dropped: set<nat>)
    requires Unique(log) && BitsSound(log, dead) && RefBound(log, loggedNext) && KeysMatch(log, files)
    requires DeadBound(dead, nextFile) && loggedNext <= nextFile
    ensures var log', dead' := Drop(log, dropped), dead + Removed(log, dropped);
            && Unique(log') && BitsSound(log', dead') && RefBound(log', loggedNext)
            && KeysMatch(log', files) && DeadBound(dead', nextFile)
  {
    var log', dead' := Drop(log, dropped), dead + Removed(log, dropped);
    forall ix | Refers(log', ix)
      ensures ix !in dead' && ix.file < loggedNext
    {
      RefersDrop(log, dropped, ix);
    }
    forall ix | ix in Removed(log, dropped)
      ensures Refers(log, ix)
    {
    }
  }

  lemma TableDrop(log: seq<Entry>, dead: set<Ix>, files: map<nat, File>, loggedNext: nat, t: Table, dropped: set<nat>)
    requires Unique(log) && TableOk(log, files, loggedNext, t) && TableBound(log, dead, t)
    ensures TableOk(Drop(log, dropped), files, loggedNext, t)
    ensures TableBound(Drop(log, dropped), dead + Removed(log, dropped), t)
  {
    forall ix | Used(Drop(log, dropped), dead + Removed(log, dropped), ix)
      ensures Used(log, dead, ix)
    {
      UsedDrop(log, dead, dropped, ix);
    }
  }

  lemma JobDrop(s: State, dropped: set<nat>, j: nat)
    requires Inv(s) && CanCompact(s, dropped) && j in s.jobs
    ensures var s' := DoCompact(s, dropped);
            JobOk(s'.log, s.durable, s.files, s.bits, s.bits + s'.undelivered, s.loggedNext, s.nextFile, s.jobs[j])
  {
    var s' := DoCompact(s, dropped);
    var dead := s.bits + s.undelivered;
    assert s.bits + s'.undelivered == dead + Removed(s.log, dropped);
    FadesDrop(s, dropped, s.jobs[j].inputs);
    CoveredFades(s.log, s'.log, s.durable, s.durable, s.jobs[j]);
    forall ix | Used(s'.log, s.bits + s'.undelivered, ix)
      ensures Used(s.log, dead, ix)
    {
      UsedDrop(s.log, dead, dropped, ix);
    }
  }

  lemma Compacted(s: State, dropped: set<nat>)
    requires Inv(s) && CanCompact(s, dropped)
    ensures Inv(DoCompact(s, dropped))
  {
    var s' := DoCompact(s, dropped);
    var dead := s.bits + s.undelivered;
    assert s.bits + s'.undelivered == dead + Removed(s.log, dropped);
    IndexesDrop(s.log, dead, s.files, s.loggedNext, s.nextFile, dropped);
    forall t | t in s.tables
      ensures TableOk(s'.log, s.files, s.loggedNext, s.tables[t])
      ensures TableBound(s'.log, s.bits + s'.undelivered, s.tables[t])
    {
      TableDrop(s.log, dead, s.files, s.loggedNext, s.tables[t], dropped);
    }
    forall j | j in s.jobs
      ensures JobOk(s'.log, s.durable, s.files, s.bits, s.bits + s'.undelivered, s.loggedNext, s.nextFile, s.jobs[j])
    {
      JobDrop(s, dropped, j);
    }
    assert Sim(s'.log, s.spec, s.files, s.durable, s.snaps);
    assert Clean(s'.log, s.obsolete, s.durable, s.snaps);
  }

  lemma Delivered(s: State, ixs: set<Ix>)
    requires Inv(s) && ixs <= s.undelivered
    ensures Inv(s.(bits := s.bits + ixs, undelivered := s.undelivered - ixs))
  {
    assert s.bits + ixs + (s.undelivered - ixs) == s.bits + s.undelivered;
  }

  // ---- jobs

  lemma ApartJob(jobs: map<nat, Job>, tables: map<nat, Table>, id: nat, job': Job)
    requires Apart(jobs, tables)
    requires forall j :: j in jobs && j != id ==>
               && job'.inputs !! jobs[j].inputs
               && (job'.out.Some? ==> job'.out != jobs[j].out && job'.out.value !in jobs[j].inputs)
               && (jobs[j].out.Some? ==> jobs[j].out.value !in job'.inputs)
    requires forall t :: t in tables && job'.out.Some? ==> !(tables[t].lo <= job'.out.value < tables[t].hi)
    ensures Apart(jobs[id := job'], tables)
  {
  }

  /** A job moves on by itself, possibly taking a fresh file number. */
  lemma JobStep(s: State, id: nat, job': Job, nextFile': nat)
    requires Inv(s) && id in s.jobs && s.nextFile <= nextFile'
    requires s.jobs[id].inputs == job'.inputs && (job'.out == s.jobs[id].out || job'.out == Some(s.nextFile))
    requires JobOk(s.log, s.durable, s.files, s.bits, s.bits + s.undelivered, s.loggedNext, nextFile', job')
    ensures Inv(s.(nextFile := nextFile', jobs := s.jobs[id := job']))
  {
    forall j | j in s.jobs && j != id
      ensures JobOk(s.log, s.durable, s.files, s.bits, s.bits + s.undelivered, s.loggedNext, nextFile', s.jobs[j])
    {
      JobFiles(s.log, s.durable, s.files, s.files, s.bits, s.bits + s.undelivered,
               s.loggedNext, s.loggedNext, s.nextFile, nextFile', s.jobs[j]);
    }
    ApartJob(s.jobs, s.tables, id, job');
  }

  lemma BitsCopied(s: State, id: nat)
    requires Inv(s) && id in s.jobs && s.jobs[id].phase == Scanning
    ensures Inv(s.(jobs := s.jobs[id := s.jobs[id].(bits := s.bits)]))
  {
    JobStep(s, id, s.jobs[id].(bits := s.bits), s.nextFile);
  }

  lemma LatestKey(log: seq<Entry>, files: map<nat, File>, ix: Ix, k: Key)
    requires KeysMatch(log, files) && ix.file in files && Look(log, |log|, k) == Blob(ix)
    ensures ix.pos < |files[ix.file].recs| && files[ix.file].recs[ix.pos].key == k
  {
  }

  lemma PickedCovers(s: State, inputs: set<nat>, stream: seq<Ix>, job: Job)
    requires KeysMatch(s.log, s.files) && Enumerates(s.files, inputs, stream)
    requires forall f :: f in inputs ==> f in s.files
    requires job.phase == Scanning && job.inputs == inputs && job.stream == stream && job.scanned == 0 && !job.isFresh
    ensures Covered(s.log, s.durable, job)
  {
    forall ix | Latest(s.log, ix) && ix.file in inputs
      ensures ix in stream[0..]
    {
      var k :| Look(s.log, |s.log|, k) == Blob(ix);
      LatestKey(s.log, s.files, ix, k);
    }
  }

  lemma PickedJob(s: State, id: nat, inputs: set<nat>, stream: seq<Ix>, useBitmap: bool, fallback: bool)
    requires Inv(s) && CanPick(s, id, inputs, stream)
    ensures var s' := DoPick(s, id, inputs, stream, useBitmap, fallback);
            JobOk(s.log, s.durable, s'.files, s.bits, s.bits + s.undelivered, s.loggedNext, s.nextFile, s'.jobs[id])
  {
    var s' := DoPick(s, id, inputs, stream, useBitmap, fallback);
    PickedCovers(s, inputs, stream, s'.jobs[id]);
  }

  /** Files change state, and only files that no table or job has reserved. */
  lemma OthersTables(log: seq<Entry>, dead: set<Ix>, files: map<nat, File>, files': map<nat, File>, changed: set<nat>,
                     loggedNext: nat, loggedNext': nat, tables: map<nat, Table>)
    requires Tables(log, dead, files, loggedNext, tables) && files'.Keys == files.Keys && loggedNext <= loggedNext'
    requires forall f :: f in files && f !in changed ==> files'[f] == files[f]
    requires forall f :: f in files && f in changed ==> files[f].state != PendingLSM
    ensures Tables(log, dead, files', loggedNext', tables)
  {
    forall t | t in tables
      ensures TableOk(log, files', loggedNext', tables[t])
    {
      TableFiles(log, files, files', loggedNext, loggedNext', tables[t]);
    }
  }

  lemma OthersJob(s: State, files': map<nat, File>, changed: set<nat>, j: nat)
    requires Inv(s) && files'.Keys == s.files.Keys && j in s.jobs
    requires forall f :: f in s.files && f !in changed ==> files'[f] == s.files[f]
    requires changed !! s.jobs[j].inputs && (s.jobs[j].out.Some? ==> s.jobs[j].out.value !in changed)
    ensures JobOk(s.log, s.durable, files', s.bits, s.bits + s.undelivered, s.loggedNext, s.nextFile, s.jobs[j])
  {
    JobFiles(s.log, s.durable, s.files, files', s.bits, s.bits + s.undelivered,
               s.loggedNext, s.loggedNext, s.nextFile, s.nextFile, s.jobs[j]);
  }

  /** A file in state Normal is reserved by no job. */
  lemma NormalIsFree(s: State, f: nat, j: nat)
    requires Inv(s) && f in s.files && s.files[f].state == Normal && j in s.jobs
    ensures f !in s.jobs[j].inputs && s.jobs[j].out != Some(f)
  {
    assert Reserved(s.files, s.loggedNext, s.nextFile, s.jobs[j]);
  }

  lemma PickedOther(s: State, inputs: set<nat>, j: nat)
    requires Inv(s) && j in s.jobs
    requires forall f :: f in inputs ==> f in s.files && s.files[f].state == Normal
    ensures JobOk(s.log, s.durable, SetStates(s.files, inputs, BeingGC), s.bits, s.bits + s.undelivered,
                  s.loggedNext, s.nextFile, s.jobs[j])
    ensures inputs !! s.jobs[j].inputs && (s.jobs[j].out.Some? ==> s.jobs[j].out.value !in inputs)
  {
    forall f | f in inputs
      ensures f !in s.jobs[j].inputs && s.jobs[j].out != Some(f)
    {
      NormalIsFree(s, f, j);
    }
    OthersJob(s, SetStates(s.files, inputs, BeingGC), inputs, j);
  }

  lemma NumberedStates(n: nat, files: map<nat, File>, files': map<nat, File>, obsolete: map<nat, nat>, loggedNext: nat, nextFile: nat)
    requires Numbered(n, files, obsolete, loggedNext, nextFile)
    requires files'.Keys == files.Keys
    requires forall f :: f in files ==> (files'[f].state == Obsolete <==> files[f].state == Obsolete)
    ensures Numbered(n, files', obsolete, loggedNext, nextFile)
  {
  }

  lemma PickedJobs(s: State, id: nat, inputs: set<nat>, stream: seq<Ix>, useBitmap: bool, fallback: bool)
    requires Inv(s) && CanPick(s, id, inputs, stream)
    ensures var s' := DoPick(s, id, inputs, stream, useBitmap, fallback);
            && AllJobs(s.log, s.durable, s'.files, s.bits, s.bits + s.undelivered, s.loggedNext, s.nextFile, s'.jobs)
            && Apart(s'.jobs, s.tables)
  {
    var s' := DoPick(s, id, inputs, stream, useBitmap, fallback);
    PickedJob(s, id, inputs, stream, useBitmap, fallback);
    forall j | j in s.jobs {
      PickedOther(s, inputs, j);
    }
    ApartJob(s.jobs, s.tables, id, s'.jobs[id]);
  }

  lemma Picked(s: State, id: nat, inputs: set<nat>, stream: seq<Ix>, useBitmap: bool, fallback: bool)
    requires Inv(s) && CanPick(s, id, inputs, stream)
    ensures Inv(DoPick(s, id, inputs, stream, useBitmap, fallback))
  {
    var s' := DoPick(s, id, inputs, stream, useBitmap, fallback);
    SimMoreFiles(s.log, s.spec, s.files, s'.files, s.durable, s.snaps);
    KeysMatchFiles(s.log, s.files, s'.files, s.loggedNext);
    NumberedStates(|s.log|, s.files, s'.files, s.obsolete, s.loggedNext, s.nextFile);
    OthersTables(s.log, s.bits + s.undelivered, s.files, s'.files, inputs, s.loggedNext, s.loggedNext, s.tables);
    PickedJobs(s, id, inputs, stream, useBitmap, fallback);
  }

  // ---- the scan loop

  /** Whatever the loop decides about the record under the cursor, it stays accounted for. */
  lemma ScanDecision(s: State, job: Job, ix: Ix)
    requires KeysMatch(s.log, s.files) && BitsSound(s.log, s.bits + s.undelivered)
    requires JobData(s.files, s.bits, job) && Covered(s.log, s.durable, job)
    requires job.phase == Scanning && ix.file in job.inputs && ix.file in s.files
    requires ix.pos < |s.files[ix.file].recs|
    requires !Keeps(s.log, job, s.files[ix.file].recs[ix.pos].key, ix) && Latest(s.log, ix)
    ensures Pending(job.rewrites, 0, ix)
  {
    var k :| Look(s.log, |s.log|, k) == Blob(ix);
    LatestKey(s.log, s.files, ix, k);
    LookRefers(s.log, |s.log|, k, ix);
  }

  lemma PendingGrows(rws: seq<Rewrite>, rw: Rewrite, n: nat, ix: Ix)
    requires n <= |rws|
    ensures Pending(rws, n, ix) ==> Pending(rws + [rw], n, ix)
    ensures Pending(rws + [rw], n, rw.from)
  {
    var rws' := rws + [rw];
    if Pending(rws, n, ix) {
      var r :| n <= r < |rws| && rws[r].from == ix;
      assert rws'[r].from == ix;
    }
    assert rws'[|rws|].from == rw.from;
  }

  lemma ScanCovered(s: State, job: Job, job': Job, ix: Ix)
    requires KeysMatch(s.log, s.files) && BitsSound(s.log, s.bits + s.undelivered)
    requires JobData(s.files, s.bits, job) && Covered(s.log, s.durable, job)
    requires job.phase == Scanning && job.scanned < |job.stream| && job.stream[job.scanned] == ix
    requires ix.file in job.inputs && ix.file in s.files && ix.pos < |s.files[ix.file].recs|
    requires var key := s.files[ix.file].recs[ix.pos].key;
             var next := Advance(s.log, job, key, ix);
             && job'.phase == Scanning && job'.inputs == job.inputs && job'.stream == job.stream
             && job'.scanned == next.scanned && job'.lastKey == next.lastKey && job'.isFresh == next.isFresh
             && if Keeps(s.log, job, key, ix)
                then |job'.rewrites| == |job.rewrites| + 1 && job'.rewrites[..|job.rewrites|] == job.rewrites
                     && job'.rewrites[|job.rewrites|].from == ix
                else job'.rewrites == job.rewrites
    ensures Covered(s.log, s.durable, job')
  {
    var key := s.files[ix.file].recs[ix.pos].key;
    if Keeps(s.log, job, key, ix) {
      assert job'.rewrites == job.rewrites + [job'.rewrites[|job.rewrites|]];
    }
    forall x | Pending(job.rewrites, 0, x) || (Keeps(s.log, job, key, ix) && x == ix)
      ensures Pending(job'.rewrites, 0, x)
    {
      if Keeps(s.log, job, key, ix) {
        PendingGrows(job.rewrites, job'.rewrites[|job.rewrites|], 0, x);
      }
    }
    forall x | Latest(s.log, x) && x.file in job.inputs
      ensures x in job'.stream[job'.scanned..] || Pending(job'.rewrites, 0, x)
    {
      if x == ix && !Keeps(s.log, job, key, ix) {
        ScanDecision(s, job, ix);
      }
      assert job.stream[job.scanned..] == [ix] + job.stream[job.scanned + 1..];
    }
  }

  lemma ScanReserved(log: seq<Entry>, dead: set<Ix>, files: map<nat, File>, loggedNext: nat, nextFile: nat,
                     job: Job, rec: Rec, ix: Ix)
    requires Reserved(files, loggedNext, nextFile, job) && OutBound(log, dead, job) && job.phase == Scanning
    requires RefBound(log, loggedNext) && DeadBound(dead, nextFile) && loggedNext <= nextFile
    requires forall f :: f in files ==> f < loggedNext
    ensures var job' := ScanJob(log, job, rec, ix, nextFile);
            var nextFile' := if job'.out == job.out then nextFile else nextFile + 1;
            && Reserved(files, loggedNext, nextFile', job')
            && OutBound(log, dead, job')
            && (job'.out == job.out || job'.out == Some(nextFile))
  {
  }

  lemma ScanData(log: seq<Entry>, files: map<nat, File>, bits: set<Ix>, job: Job, ix: Ix, number: nat)
    requires JobData(files, bits, job) && job.phase == Scanning
    requires job.scanned < |job.stream| && job.stream[job.scanned] == ix
    requires ix.file in files && ix.pos < |files[ix.file].recs|
    ensures JobData(files, bits, ScanJob(log, job, files[ix.file].recs[ix.pos], ix, number))
  {
    var job' := ScanJob(log, job, files[ix.file].recs[ix.pos], ix, number);
    forall r | 0 <= r < |job'.rewrites|
      ensures RewriteOk(files, job'.inputs, job'.fallback, job'.out, job'.outRecs, job'.rewrites[r], r)
    {
      if r < |job.rewrites| {
        assert RewriteOk(files, job.inputs, job.fallback, job.out, job.outRecs, job.rewrites[r], r);
      }
    }
  }

  lemma ScannedJob(s: State, id: nat)
    requires Inv(s) && CanScan(s, id)
    ensures var s' := DoScan(s, id);
            && JobOk(s.log, s.durable, s.files, s.bits, s.bits + s.undelivered, s.loggedNext, s'.nextFile, s'.jobs[id])
            && s'.jobs[id].inputs == s.jobs[id].inputs && s.nextFile <= s'.nextFile
            && (s'.jobs[id].out == s.jobs[id].out || s'.jobs[id].out == Some(s.nextFile))
  {
    var job := s.jobs[id];
    var ix := job.stream[job.scanned];
    var rec := s.files[ix.file].recs[ix.pos];
    ScanReserved(s.log, s.bits + s.undelivered, s.files, s.loggedNext, s.nextFile, job, rec, ix);
    ScanData(s.log, s.files, s.bits, job, ix, s.nextFile);
    ScanCovered(s, job, DoScan(s, id).jobs[id], ix);
  }

  lemma Scanned(s: State, id: nat)
    requires Inv(s) && CanScan(s, id)
    ensures Inv(DoScan(s, id))
  {
    ScannedJob(s, id);
    JobStep(s, id, DoScan(s, id).jobs[id], DoScan(s, id).nextFile);
  }

  // ---- installing the output

  lemma InstalledFiles(s: State, id: nat)
    requires Inv(s) && id in s.jobs && s.jobs[id].phase == Scanning
    ensures var s' := DoInstall(s, id);
            && Sim(s.log, s.spec, s'.files, s.durable, s.snaps)
            && KeysMatch(s.log, s'.files)
            && Numbered(|s.log|, s'.files, s.obsolete, s'.loggedNext, s.nextFile)
  {
    var s' := DoInstall(s, id);
    var job := s.jobs[id];
    SimMoreFiles(s.log, s.spec, s.files, s'.files, s.durable, s.snaps);
    forall i | 0 <= i < |s.log| && s.log[i].val.Blob?
      ensures job.out != Some(s.log[i].val.ix.file)
    {
      assert Used(s.log, s.bits + s.undelivered, s.log[i].val.ix);
    }
  }

  lemma InstalledCovered(log: seq<Entry>, durable: nat, job: Job)
    requires job.phase == Scanning && job.scanned == |job.stream| && job.written == 0
    requires Covered(log, durable, job)
    ensures Covered(log, durable, job.(phase := Rewriting))
  {
  }

  lemma InstalledJob(log: seq<Entry>, durable: nat, files: map<nat, File>, bits: set<Ix>, dead: set<Ix>,
                     loggedNext: nat, nextFile: nat, job: Job)
    requires JobOk(log, durable, files, bits, dead, loggedNext, nextFile, job) && loggedNext <= nextFile
    requires job.phase == Scanning && job.scanned == |job.stream|
    ensures var files' := if job.out.Some? then files[job.out.value := File(job.outRecs, PendingGC)] else files;
            JobOk(log, durable, files', bits, dead, nextFile, nextFile, job.(phase := Rewriting))
  {
    var files' := if job.out.Some? then files[job.out.value := File(job.outRecs, PendingGC)] else files;
    InstalledCovered(log, durable, job);
    JobDataFiles(files, files', bits, job);
  }

  lemma InstalledOther(s: State, id: nat, j: nat)
    requires Inv(s) && id in s.jobs && s.jobs[id].phase == Scanning && j in s.jobs && j != id
    ensures var s' := DoInstall(s, id);
            JobOk(s.log, s.durable, s'.files, s.bits, s.bits + s.undelivered, s'.loggedNext, s.nextFile, s.jobs[j])
  {
    var s' := DoInstall(s, id);
    assert Reserved(s.files, s.loggedNext, s.nextFile, s.jobs[id]);
    JobFiles(s.log, s.durable, s.files, s'.files, s.bits, s.bits + s.undelivered,
             s.loggedNext, s'.loggedNext, s.nextFile, s.nextFile, s.jobs[j]);
  }

  lemma InstalledJobs(s: State, id: nat)
    requires Inv(s) && id in s.jobs && s.jobs[id].phase == Scanning && s.jobs[id].scanned == |s.jobs[id].stream|
    ensures var s' := DoInstall(s, id);
            && AllJobs(s.log, s.durable, s'.files, s.bits, s.bits + s.undelivered, s'.loggedNext, s.nextFile, s'.jobs)
            && Apart(s'.jobs, s.tables)
  {
    InstalledJob(s.log, s.durable, s.files, s.bits, s.bits + s.undelivered, s.loggedNext, s.nextFile, s.jobs[id]);
    forall j | j in s.jobs && j != id {
      InstalledOther(s, id, j);
    }
    ApartJob(s.jobs, s.tables, id, DoInstall(s, id).jobs[id]);
  }

  lemma InstalledTables(log: seq<Entry>, dead: set<Ix>, files: map<nat, File>, loggedNext: nat, nextFile: nat,
                        tables: map<nat, Table>, job: Job)
    requires Tables(log, dead, files, loggedNext, tables) && loggedNext <= nextFile
    requires Reserved(files, loggedNext, nextFile, job) && job.phase == Scanning
    ensures var files' := if job.out.Some? then files[job.out.value := File(job.outRecs, PendingGC)] else files;
            Tables(log, dead, files', nextFile, tables)
  {
    var files' := if job.out.Some? then files[job.out.value := File(job.outRecs, PendingGC)] else files;
    forall t | t in tables
      ensures TableOk(log, files', nextFile, tables[t])
    {
      TableFiles(log, files, files', loggedNext, nextFile, tables[t]);
    }
  }

  lemma Installed(s: State, id: nat)
    requires Inv(s) && id in s.jobs && s.jobs[id].phase == Scanning && s.jobs[id].scanned == |s.jobs[id].stream|
    ensures Inv(DoInstall(s, id))
  {
    InstalledFiles(s, id);
    assert JobOk(s.log, s.durable, s.files, s.bits, s.bits + s.undelivered, s.loggedNext, s.nextFile, s.jobs[id]);
    InstalledTables(s.log, s.bits + s.undelivered, s.files, s.loggedNext, s.nextFile, s.tables, s.jobs[id]);
    InstalledJobs(s, id);
  }

  // ---- rewriting keys

  /** A conditional write that finds the index it expects. */
  lemma RewriteHit(s: State, id: nat)
    requires Inv(s) && id in s.jobs && s.jobs[id].phase == Rewriting && s.jobs[id].written < |s.jobs[id].rewrites|
    requires var rw := s.jobs[id].rewrites[s.jobs[id].written]; Look(s.log, |s.log|, rw.key) == Blob(rw.from)
    ensures var rw := s.jobs[id].rewrites[s.jobs[id].written];
            && (rw.to.Inline? || rw.to.Blob?)
            && Faithful(s.log, s.files, Entry(rw.key, rw.to), Nop)
            && !InFiles(rw.to, s.obsolete.Keys)
            && (rw.to.Blob? ==>
                  && s.jobs[id].out == Some(rw.to.ix.file) && rw.to.ix.pos == s.jobs[id].written
                  && !Used(s.log, s.bits + s.undelivered, rw.to.ix) && rw.to.ix.file < s.loggedNext
                  && rw.to.ix.file in s.files && rw.to.ix.pos < |s.files[rw.to.ix.file].recs|
                  && s.files[rw.to.ix.file].recs[rw.to.ix.pos].key == rw.key)
  {
    var job := s.jobs[id];
    var rw := job.rewrites[job.written];
    assert RewriteOk(s.files, job.inputs, job.fallback, job.out, job.outRecs, rw, job.written);
    assert Reserved(s.files, s.loggedNext, s.nextFile, job);
    assert OutBound(s.log, s.bits + s.undelivered, job);
  }

  /** Once the key has moved on, the job no longer owes it anything. */
  lemma RewriteCovered(log: seq<Entry>, log': seq<Entry>, files: map<nat, File>, durable: nat, job: Job)
    requires Covered(log, durable, job) && job.phase == Rewriting && job.written < |job.rewrites|
    requires KeysMatch(log, files) && durable <= |log|
    requires var rw := job.rewrites[job.written];
             && RewriteOk(files, job.inputs, job.fallback, job.out, job.outRecs, rw, job.written)
             && !InFiles(rw.to, job.inputs)
             && (if Look(log, |log|, rw.key) == Blob(rw.from)
                 then rw.to != Hole && log' == log + [Entry(rw.key, rw.to)] else log' == log)
    ensures Covered(log', durable, job.(written := job.written + 1))
  {
    var rw := job.rewrites[job.written];
    forall ix | Latest(log', ix) && ix.file in job.inputs
      ensures Pending(job.rewrites, job.written + 1, ix)
    {
      var k :| Look(log', |log'|, k) == Blob(ix);
      if log' != log {
        LookAppend(log, Entry(rw.key, rw.to), |log'|, k);
      }
      assert Look(log, |log|, k) == Blob(ix);
      var r :| job.written <= r < |job.rewrites| && job.rewrites[r].from == ix;
      if r == job.written {
        LatestKey(log, files, ix, k);
        assert false;
      }
    }
  }

  lemma MovedOn(job: Job, files: map<nat, File>, bits: set<Ix>)
    requires JobData(files, bits, job) && job.phase == Rewriting && job.written < |job.rewrites|
    ensures JobData(files, bits, job.(written := job.written + 1))
  {
  }

  lemma OutAppend(log: seq<Entry>, dead: set<Ix>, e: Entry, job: Job)
    requires OutBound(log, dead, job)
    requires e.val.Blob? && job.out == Some(e.val.ix.file) ==> e.val.ix.pos == job.written
    ensures OutBound(log + [e], dead, job.(written := job.written + 1))
  {
    RefersAppend(log, e);
  }

  lemma RewriteHitJob(log: seq<Entry>, durable: nat, files: map<nat, File>, bits: set<Ix>, dead: set<Ix>,
                      loggedNext: nat, nextFile: nat, job: Job)
    requires JobOk(log, durable, files, bits, dead, loggedNext, nextFile, job) && KeysMatch(log, files) && durable <= |log|
    requires job.phase == Rewriting && job.written < |job.rewrites|
    requires var rw := job.rewrites[job.written]; Look(log, |log|, rw.key) == Blob(rw.from)
    ensures var rw := job.rewrites[job.written];
            JobOk(log + [Entry(rw.key, rw.to)], durable, files, bits, dead, loggedNext, nextFile,
                  job.(written := job.written + 1))
  {
    var rw := job.rewrites[job.written];
    var e := Entry(rw.key, rw.to);
    assert RewriteOk(files, job.inputs, job.fallback, job.out, job.outRecs, rw, job.written);
    RewriteCovered(log, log + [e], files, durable, job);
    MovedOn(job, files, bits);
    OutAppend(log, dead, e, job);
  }

  lemma RewriteHitOther(s: State, id: nat, j: nat)
    requires Inv(s) && id in s.jobs && s.jobs[id].phase == Rewriting && s.jobs[id].written < |s.jobs[id].rewrites|
    requires var rw := s.jobs[id].rewrites[s.jobs[id].written]; Look(s.log, |s.log|, rw.key) == Blob(rw.from)
    requires j in s.jobs && j != id
    ensures var rw := s.jobs[id].rewrites[s.jobs[id].written];
            JobOk(s.log + [Entry(rw.key, rw.to)], s.durable, s.files, s.bits, s.bits + s.undelivered,
                  s.loggedNext, s.nextFile, s.jobs[j])
  {
    var rw := s.jobs[id].rewrites[s.jobs[id].written];
    RewriteHit(s, id);
    assert Reserved(s.files, s.loggedNext, s.nextFile, s.jobs[id]);
    assert Reserved(s.files, s.loggedNext, s.nextFile, s.jobs[j]);
    JobAppend(s, j, Entry(rw.key, rw.to));
  }

  lemma RewroteHitTables(s: State, id: nat)
    requires Inv(s) && id in s.jobs && s.jobs[id].phase == Rewriting && s.jobs[id].written < |s.jobs[id].rewrites|
    requires var rw := s.jobs[id].rewrites[s.jobs[id].written]; Look(s.log, |s.log|, rw.key) == Blob(rw.from)
    ensures var rw := s.jobs[id].rewrites[s.jobs[id].written];
            Tables(s.log + [Entry(rw.key, rw.to)], s.bits + s.undelivered, s.files, s.loggedNext, s.tables)
  {
    var rw := s.jobs[id].rewrites[s.jobs[id].written];
    var e := Entry(rw.key, rw.to);
    var dead := s.bits + s.undelivered;
    RewriteHit(s, id);
    forall t | t in s.tables
      ensures TableOk(s.log + [e], s.files, s.loggedNext, s.tables[t]) && TableBound(s.log + [e], dead, s.tables[t])
    {
      TableAppend(s.log, dead, s.files, s.loggedNext, s.tables[t], e);
    }
  }

  lemma RewroteHitJobs(s: State, id: nat)
    requires Inv(s) && id in s.jobs && s.jobs[id].phase == Rewriting && s.jobs[id].written < |s.jobs[id].rewrites|
    requires var rw := s.jobs[id].rewrites[s.jobs[id].written]; Look(s.log, |s.log|, rw.key) == Blob(rw.from)
    ensures var job := s.jobs[id];
            var rw := job.rewrites[job.written];
            var jobs' := s.jobs[id := job.(written := job.written + 1)];
            && AllJobs(s.log + [Entry(rw.key, rw.to)], s.durable, s.files, s.bits, s.bits + s.undelivered,
                       s.loggedNext, s.nextFile, jobs')
            && Apart(jobs', s.tables)
  {
    RewriteHitJob(s.log, s.durable, s.files, s.bits, s.bits + s.undelivered, s.loggedNext, s.nextFile, s.jobs[id]);
    forall j | j in s.jobs && j != id {
      RewriteHitOther(s, id, j);
    }
    ApartJob(s.jobs, s.tables, id, s.jobs[id].(written := s.jobs[id].written + 1));
  }

  lemma RewroteHitLog(s: State, id: nat)
    requires Inv(s) && id in s.jobs && s.jobs[id].phase == Rewriting && s.jobs[id].written < |s.jobs[id].rewrites|
    requires var rw := s.jobs[id].rewrites[s.jobs[id].written]; Look(s.log, |s.log|, rw.key) == Blob(rw.from)
    ensures var rw := s.jobs[id].rewrites[s.jobs[id].written];
            var log' := s.log + [Entry(rw.key, rw.to)];
            && Sim(log', s.spec + [Nop], s.files, s.durable, s.snaps)
            && Clean(log', s.obsolete, s.durable, s.snaps)
            && PurgeOk(log', s.purge, s.obsolete, s.snaps)
            && KeysMatch(log', s.files)
            && Unique(log') && BitsSound(log', s.bits + s.undelivered) && RefBound(log', s.loggedNext)
  {
    var rw := s.jobs[id].rewrites[s.jobs[id].written];
    var e := Entry(rw.key, rw.to);
    RewriteHit(s, id);
    SimAppend(s.log, s.spec, s.files, s.durable, s.snaps, e, Nop);
    CleanAppend(s.log, s.obsolete, s.durable, s.snaps, e);
    PurgeAppend(s.log, s.purge, s.obsolete, s.snaps, e);
    IndexesAppend(s.log, s.bits + s.undelivered, s.files, s.loggedNext, e);
  }

  lemma RewroteHit(s: State, id: nat)
    requires Inv(s) && id in s.jobs && s.jobs[id].phase == Rewriting && s.jobs[id].written < |s.jobs[id].rewrites|
    requires var rw := s.jobs[id].rewrites[s.jobs[id].written]; Look(s.log, |s.log|, rw.key) == Blob(rw.from)
    ensures Inv(DoRewriteNext(s, id))
  {
    RewroteHitLog(s, id);
    RewroteHitTables(s, id);
    RewroteHitJobs(s, id);
  }

  // A conditional write that finds something else: the copy in the output is dropped.

  lemma OutDead(log: seq<Entry>, dead: set<Ix>, extra: set<Ix>, job: Job, job': Job)
    requires OutBound(log, dead, job) && job.out == job'.out && job.written <= job'.written
    requires forall ix :: ix in extra && job.out == Some(ix.file) ==> ix.pos < job'.written
    ensures OutBound(log, dead + extra, job')
  {
  }

  lemma RewroteMissJob(log: seq<Entry>, durable: nat, files: map<nat, File>, bits: set<Ix>, dead: set<Ix>, extra: set<Ix>,
                       loggedNext: nat, nextFile: nat, job: Job)
    requires JobOk(log, durable, files, bits, dead, loggedNext, nextFile, job)
    requires KeysMatch(log, files) && durable <= |log|
    requires job.phase == Rewriting && job.written < |job.rewrites|
    requires var rw := job.rewrites[job.written]; Look(log, |log|, rw.key) != Blob(rw.from)
    requires forall ix :: ix in extra && job.out == Some(ix.file) ==> ix.pos == job.written
    ensures JobOk(log, durable, files, bits, dead + extra, loggedNext, nextFile, job.(written := job.written + 1))
  {
    var job' := job.(written := job.written + 1);
    assert RewriteOk(files, job.inputs, job.fallback, job.out, job.outRecs, job.rewrites[job.written], job.written);
    RewriteCovered(log, log, files, durable, job);
    MovedOn(job, files, bits);
    OutDead(log, dead, extra, job, job');
  }

  /** Invalidating an output record that no key will ever point at. */
  lemma MoreDead(s: State, id: nat, extra: set<Ix>)
    requires Inv(s) && id in s.jobs && s.jobs[id].phase != Scanning
    requires forall ix :: ix in extra ==> s.jobs[id].out == Some(ix.file) && ix.pos == s.jobs[id].written
    ensures BitsSound(s.log, s.bits + s.undelivered + extra) && DeadBound(s.bits + s.undelivered + extra, s.nextFile)
    ensures Tables(s.log, s.bits + s.undelivered + extra, s.files, s.loggedNext, s.tables)
  {
    var dead := s.bits + s.undelivered;
    assert JobOk(s.log, s.durable, s.files, s.bits, dead, s.loggedNext, s.nextFile, s.jobs[id]);
    forall ix | ix in extra
      ensures !Refers(s.log, ix)
    {
      assert !Used(s.log, dead, ix);
    }
  }

  lemma RewroteMissJobs(s: State, id: nat, extra: set<Ix>)
    requires Inv(s) && id in s.jobs && s.jobs[id].phase == Rewriting && s.jobs[id].written < |s.jobs[id].rewrites|
    requires var rw := s.jobs[id].rewrites[s.jobs[id].written]; Look(s.log, |s.log|, rw.key) != Blob(rw.from)
    requires forall ix :: ix in extra ==> s.jobs[id].out == Some(ix.file) && ix.pos == s.jobs[id].written
    ensures var job := s.jobs[id];
            var jobs' := s.jobs[id := job.(written := job.written + 1)];
            && AllJobs(s.log, s.durable, s.files, s.bits, s.bits + s.undelivered + extra, s.loggedNext, s.nextFile, jobs')
            && Apart(jobs', s.tables)
  {
    var dead := s.bits + s.undelivered;
    RewroteMissJob(s.log, s.durable, s.files, s.bits, dead, extra, s.loggedNext, s.nextFile, s.jobs[id]);
    forall j | j in s.jobs && j != id
      ensures JobOk(s.log, s.durable, s.files, s.bits, dead + extra, s.loggedNext, s.nextFile, s.jobs[j])
    {
      OutDead(s.log, dead, extra, s.jobs[j], s.jobs[j]);
    }
    ApartJob(s.jobs, s.tables, id, s.jobs[id].(written := s.jobs[id].written + 1));
  }

  /** The state after a write that found something else; `extra` is the copy it drops, if bitmaps are in use. */
  lemma MissKeepsInv(s: State, id: nat, extra: set<Ix>)
    requires Inv(s) && id in s.jobs && s.jobs[id].phase == Rewriting && s.jobs[id].written < |s.jobs[id].rewrites|
    requires var rw := s.jobs[id].rewrites[s.jobs[id].written]; Look(s.log, |s.log|, rw.key) != Blob(rw.from)
    requires forall ix :: ix in extra ==> s.jobs[id].out == Some(ix.file) && ix.pos == s.jobs[id].written
    ensures Inv(s.(jobs := s.jobs[id := s.jobs[id].(written := s.jobs[id].written + 1)], undelivered := s.undelivered + extra))
  {
    assert s.bits + s.undelivered + extra == s.bits + (s.undelivered + extra);
    MoreDead(s, id, extra);
    RewroteMissJobs(s, id, extra);
  }

  lemma DroppedCopy(files: map<nat, File>, bits: set<Ix>, job: Job, ix: Ix)
    requires JobData(files, bits, job) && job.phase == Rewriting && job.written < |job.rewrites|
    requires ix in Dropped(job, job.rewrites[job.written])
    ensures job.out == Some(ix.file) && ix.pos == job.written
  {
    assert RewriteOk(files, job.inputs, job.fallback, job.out, job.outRecs, job.rewrites[job.written], job.written);
  }

  lemma DroppedCopies(s: State, id: nat)
    requires Inv(s) && id in s.jobs && s.jobs[id].phase == Rewriting && s.jobs[id].written < |s.jobs[id].rewrites|
    ensures forall ix :: ix in Dropped(s.jobs[id], s.jobs[id].rewrites[s.jobs[id].written]) ==>
              s.jobs[id].out == Some(ix.file) && ix.pos == s.jobs[id].written
  {
    assert JobOk(s.log, s.durable, s.files, s.bits, s.bits + s.undelivered, s.loggedNext, s.nextFile, s.jobs[id]);
    forall ix | ix in Dropped(s.jobs[id], s.jobs[id].rewrites[s.jobs[id].written])
      ensures s.jobs[id].out == Some(ix.file) && ix.pos == s.jobs[id].written
    {
      DroppedCopy(s.files, s.bits, s.jobs[id], ix);
    }
  }

  lemma MissedState(s: State, id: nat)
    requires id in s.jobs && s.jobs[id].written < |s.jobs[id].rewrites|
    requires var rw := s.jobs[id].rewrites[s.jobs[id].written]; Look(s.log, |s.log|, rw.key) != Blob(rw.from)
    ensures DoRewriteNext(s, id) ==
              s.(jobs := s.jobs[id := s.jobs[id].(written := s.jobs[id].written + 1)],
                 undelivered := s.undelivered + Dropped(s.jobs[id], s.jobs[id].rewrites[s.jobs[id].written]))
  {
  }

  lemma RewroteMiss(s: State, id: nat)
    requires Inv(s) && id in s.jobs && s.jobs[id].phase == Rewriting && s.jobs[id].written < |s.jobs[id].rewrites|
    requires var rw := s.jobs[id].rewrites[s.jobs[id].written]; Look(s.log, |s.log|, rw.key) != Blob(rw.from)
    ensures Inv(DoRewriteNext(s, id))
  {
    DroppedCopies(s, id);
    MissedState(s, id);
    MissKeepsInv(s, id, Dropped(s.jobs[id], s.jobs[id].rewrites[s.jobs[id].written]));
  }

  lemma RewriteFinished(s: State, id: nat)
    requires Inv(s) && id in s.jobs && s.jobs[id].phase == Rewriting && s.jobs[id].written == |s.jobs[id].rewrites|
    ensures Inv(s.(jobs := s.jobs[id := s.jobs[id].(phase := Rewritten(|s.log|))]))
  {
    var job := s.jobs[id];
    var job' := job.(phase := Rewritten(|s.log|));
    assert JobOk(s.log, s.durable, s.files, s.bits, s.bits + s.undelivered, s.loggedNext, s.nextFile, job);
    FinishedCovered(s.log, s.durable, job);
    JobStep(s, id, job', s.nextFile);
  }

  lemma FinishedCovered(log: seq<Entry>, durable: nat, job: Job)
    requires Covered(log, durable, job) && job.phase == Rewriting && job.written == |job.rewrites|
    ensures Covered(log, durable, job.(phase := Rewritten(|log|)))
  {
    forall k
      ensures !InFiles(Look(log, |log|, k), job.inputs)
    {
      if InFiles(Look(log, |log|, k), job.inputs) {
        assert Latest(log, Look(log, |log|, k).ix);
      }
    }
  }

  lemma JobSynced(s: State, id: nat)
    requires Inv(s) && id in s.jobs && s.jobs[id].phase.Rewritten?
    ensures Inv(s.(durable := |s.log|, jobs := s.jobs[id := s.jobs[id].(phase := Synced(s.jobs[id].phase.doneAt))]))
  {
    DurableGrows(s, |s.log|);
    var s1 := s.(durable := |s.log|);
    var job := s.jobs[id];
    assert JobOk(s1.log, s1.durable, s1.files, s1.bits, s1.bits + s1.undelivered, s1.loggedNext, s1.nextFile, job);
    JobStep(s1, id, job.(phase := Synced(job.phase.doneAt)), s1.nextFile);
  }

  // ---- giving up the inputs

  lemma DeletedClean(log: seq<Entry>, obsolete: map<nat, nat>, durable: nat, snaps: map<nat, nat>, inputs: set<nat>)
    requires Clean(log, obsolete, durable, snaps) && durable <= |log|
    requires forall p, k :: durable <= p <= |log| ==> !InFiles(Look(log, p, k), inputs)
    ensures Clean(log, obsolete + map f | f in inputs :: |log|, durable, snaps)
  {
    var obsolete' := obsolete + map f | f in inputs :: |log|;
    forall f, p: nat, k | f in obsolete' && Observed(|log|, durable, snaps, p) && (obsolete'[f] <= p || durable <= p)
      ensures !InFile(Look(log, p, k), f)
    {
      if f in inputs {
        assert !InFiles(Look(log, p, k), inputs);
      }
    }
  }

  lemma DeletedReads(s: State, id: nat)
    requires Inv(s) && id in s.jobs && s.jobs[id].phase.Synced?
    ensures var s' := DoDeleteInputs(s, id);
            Sim(s.log, s.spec, s'.files, s.durable, s.snaps) && KeysMatch(s.log, s'.files)
  {
    var s' := DoDeleteInputs(s, id);
    SimMoreFiles(s.log, s.spec, s.files, s'.files, s.durable, s.snaps);
    KeysMatchFiles(s.log, s.files, s'.files, s.loggedNext);
  }

  lemma DeletedNumbers(n: nat, files: map<nat, File>, obsolete: map<nat, nat>, loggedNext: nat, nextFile: nat, job: Job)
    requires Numbered(n, files, obsolete, loggedNext, nextFile)
    requires Reserved(files, loggedNext, nextFile, job) && job.phase != Deleted
    ensures Numbered(n, SetStates(files, job.inputs, Obsolete), obsolete + map f | f in job.inputs :: n, nextFile, nextFile)
  {
  }

  lemma DeletedFiles(s: State, id: nat)
    requires Numbered(|s.log|, s.files, s.obsolete, s.loggedNext, s.nextFile) && RefBound(s.log, s.loggedNext)
    requires Tables(s.log, s.bits + s.undelivered, s.files, s.loggedNext, s.tables)
    requires id in s.jobs && s.jobs[id].phase.Synced? && Reserved(s.files, s.loggedNext, s.nextFile, s.jobs[id])
    ensures var s' := DoDeleteInputs(s, id);
            && Numbered(|s.log|, s'.files, s'.obsolete, s'.loggedNext, s.nextFile)
            && RefBound(s.log, s'.loggedNext)
            && Tables(s.log, s.bits + s.undelivered, s'.files, s'.loggedNext, s.tables)
  {
    var s' := DoDeleteInputs(s, id);
    DeletedNumbers(|s.log|, s.files, s.obsolete, s.loggedNext, s.nextFile, s.jobs[id]);
    OthersTables(s.log, s.bits + s.undelivered, s.files, s'.files, s.jobs[id].inputs, s.loggedNext, s'.loggedNext, s.tables);
  }

  lemma DeletedOther(s: State, id: nat, j: nat)
    requires Inv(s) && id in s.jobs && s.jobs[id].phase.Synced? && j in s.jobs && j != id
    ensures var s' := DoDeleteInputs(s, id);
            JobOk(s.log, s.durable, s'.files, s.bits, s.bits + s.undelivered, s'.loggedNext, s.nextFile, s.jobs[j])
  {
    var s' := DoDeleteInputs(s, id);
    JobFiles(s.log, s.durable, s.files, s'.files, s.bits, s.bits + s.undelivered,
             s.loggedNext, s'.loggedNext, s.nextFile, s.nextFile, s.jobs[j]);
  }

  lemma DeletedJob(log: seq<Entry>, durable: nat, files: map<nat, File>, bits: set<Ix>, dead: set<Ix>,
                   loggedNext: nat, nextFile: nat, job: Job)
    requires JobOk(log, durable, files, bits, dead, loggedNext, nextFile, job) && loggedNext <= nextFile
    requires job.phase.Synced?
    ensures JobOk(log, durable, SetStates(files, job.inputs, Obsolete), bits, dead, nextFile, nextFile,
                  job.(phase := Deleted))
  {
  }

  lemma DeletedJobs(s: State, id: nat)
    requires Inv(s) && id in s.jobs && s.jobs[id].phase.Synced?
    ensures var s' := DoDeleteInputs(s, id);
            && AllJobs(s.log, s.durable, s'.files, s.bits, s.bits + s.undelivered, s'.loggedNext, s.nextFile, s'.jobs)
            && Apart(s'.jobs, s.tables)
  {
    DeletedJob(s.log, s.durable, s.files, s.bits, s.bits + s.undelivered, s.loggedNext, s.nextFile, s.jobs[id]);
    forall j | j in s.jobs && j != id {
      DeletedOther(s, id, j);
    }
    ApartJob(s.jobs, s.tables, id, s.jobs[id].(phase := Deleted));
  }

  /** A purge that has seen a snapshot never takes the new file; one that has seen none may. */
  lemma DeletedPurge(s: State, id: nat)
    requires Inv(s) && id in s.jobs && s.jobs[id].phase.Synced? && !RaceOpens(s, id)
    ensures PurgeOk(s.log, s.purge, DoDeleteInputs(s, id).obsolete, s.snaps)
  {
    var obsolete' := DoDeleteInputs(s, id).obsolete;
    if s.purge.Some? {
      forall f, q: nat, k | f in obsolete' && Above(s.purge.value, obsolete'[f]) && q in s.snaps.Values && q <= |s.log|
        ensures !InFile(Look(s.log, q, k), f)
      {
        assert f in s.jobs[id].inputs ==> !InFiles(Look(s.log, q, k), s.jobs[id].inputs);
      }
    }
  }

  lemma InputsDeleted(s: State, id: nat)
    requires Inv(s) && id in s.jobs && s.jobs[id].phase.Synced? && !RaceOpens(s, id)
    ensures Inv(DoDeleteInputs(s, id))
  {
    assert JobOk(s.log, s.durable, s.files, s.bits, s.bits + s.undelivered, s.loggedNext, s.nextFile, s.jobs[id]);
    DeletedClean(s.log, s.obsolete, s.durable, s.snaps, s.jobs[id].inputs);
    DeletedPurge(s, id);
    DeletedReads(s, id);
    DeletedFiles(s, id);
    DeletedJobs(s, id);
  }

  // ---- releasing a job

  lemma ReleasedOther(s: State, id: nat, j: nat)
    requires Inv(s) && id in s.jobs && j in s.jobs && j != id
    ensures JobOk(s.log, s.durable, DoReleaseJob(s, id).files, s.bits, s.bits + s.undelivered,
                  s.loggedNext, s.nextFile, s.jobs[j])
  {
    var s' := DoReleaseJob(s, id);
    JobFiles(s.log, s.durable, s.files, s'.files, s.bits, s.bits + s.undelivered,
             s.loggedNext, s.loggedNext, s.nextFile, s.nextFile, s.jobs[j]);
  }

  lemma ReleasedFiles(s: State, id: nat)
    requires Inv(s) && id in s.jobs
    ensures var s' := DoReleaseJob(s, id);
            && Sim(s.log, s.spec, s'.files, s.durable, s.snaps)
            && KeysMatch(s.log, s'.files)
            && Numbered(|s.log|, s'.files, s.obsolete, s.loggedNext, s.nextFile)
            && Tables(s.log, s.bits + s.undelivered, s'.files, s.loggedNext, s.tables)
  {
    var s' := DoReleaseJob(s, id);
    SimMoreFiles(s.log, s.spec, s.files, s'.files, s.durable, s.snaps);
    KeysMatchFiles(s.log, s.files, s'.files, s.loggedNext);
    var others := set f | f in s.files && s.files[f].state != PendingLSM;
    OthersTables(s.log, s.bits + s.undelivered, s.files, s'.files, others, s.loggedNext, s.loggedNext, s.tables);
  }

  lemma JobReleased(s: State, id: nat)
    requires Inv(s) && id in s.jobs
    ensures Inv(DoReleaseJob(s, id))
  {
    ReleasedFiles(s, id);
    forall j | j in s.jobs && j != id {
      ReleasedOther(s, id, j);
    }
  }

  // ---- purge

  lemma PurgeBegun(s: State)
    requires Inv(s)
    ensures Inv(s.(purge := Some(OldestOf(s.snaps))))
  {
  }

  lemma PurgeSim(s: State)
    requires Inv(s) && s.purge.Some?
    ensures Sim(s.log, s.spec, DoPurgeRemove(s, s.purge.value).files, s.durable, s.snaps)
  {
    var files' := DoPurgeRemove(s, s.purge.value).files;
    forall p: nat, k | Observed(|s.log|, s.durable, s.snaps, p)
      ensures Read(s.log, files', p, k) == SpecRead(s.spec, p, k)
    {
      var val := Look(s.log, p, k);
      assert Read(s.log, s.files, p, k) == SpecRead(s.spec, p, k);
      assert val.Blob? ==> InFile(val, val.ix.file);
    }
  }

  lemma PurgeJobs(s: State)
    requires Inv(s) && s.purge.Some?
    ensures var files' := DoPurgeRemove(s, s.purge.value).files;
            && AllJobs(s.log, s.durable, files', s.bits, s.bits + s.undelivered, s.loggedNext, s.nextFile, s.jobs)
            && Tables(s.log, s.bits + s.undelivered, files', s.loggedNext, s.tables)
  {
    var files' := DoPurgeRemove(s, s.purge.value).files;
    forall j | j in s.jobs
      ensures JobOk(s.log, s.durable, files', s.bits, s.bits + s.undelivered, s.loggedNext, s.nextFile, s.jobs[j])
    {
      JobFiles(s.log, s.durable, s.files, files', s.bits, s.bits + s.undelivered,
               s.loggedNext, s.loggedNext, s.nextFile, s.nextFile, s.jobs[j]);
    }
    forall t | t in s.tables
      ensures TableOk(s.log, files', s.loggedNext, s.tables[t])
    {
      TableFiles(s.log, s.files, files', s.loggedNext, s.loggedNext, s.tables[t]);
    }
  }

  lemma PurgeRemoved(s: State)
    requires Inv(s) && s.purge.Some?
    ensures Inv(DoPurgeRemove(s, s.purge.value))
  {
    PurgeSim(s);
    PurgeJobs(s);
  }

  // ---- crash

  lemma CrashSim(s: State, p: nat)
    requires Inv(s) && s.durable <= p <= |s.log|
    ensures var s' := DoCrash(s, p); Sim(s'.log, s'.spec, s'.files, p, map[])
  {
    var s' := DoCrash(s, p);
    forall k
      ensures Read(s'.log, s'.files, p, k) == SpecRead(s'.spec, p, k)
    {
      LookPrefix(s.log, p, p, k);
      SpecReadPrefix(s.spec, s'.spec, p, k);
      assert Observed(|s.log|, s.durable, s.snaps, p);
      assert Read(s.log, s.files, p, k) == SpecRead(s.spec, p, k);
    }
  }

  lemma Crashed(s: State, p: nat)
    requires Inv(s) && s.durable <= p <= |s.log|
    ensures Inv(DoCrash(s, p))
  {
    var s' := DoCrash(s, p);
    CrashSim(s, p);
    assert RefBound(s'.log, s'.loggedNext) by {
      forall ix | Refers(s'.log, ix)
        ensures Refers(s.log, ix)
      {
        var i :| 0 <= i < |s'.log| && s'.log[i].val == Blob(ix);
        assert s.log[i].val == Blob(ix);
      }
    }
  }
}
