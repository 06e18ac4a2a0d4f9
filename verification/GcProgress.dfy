/** What garbage collection is for: a job can always run to its end, and then its input files are gone. */
module GcProgress {
  import opened Types
  import opened Lsm
  import opened GcProtocol
  import opened GcInvariant
  import opened GcTheorems
  import opened GcScan
  import opened GcHistory

  ghost predicate Reaches(s: State, es: seq<Event>, s': State) {
    ValidRun(s, es, true) && Run(s, es, true) == s'
  }

  lemma OneStep(s: State, e: Event)
    requires Enabled(s, e, true)
    ensures Reaches(s, [e], Apply(s, e))
  {
    assert [e][1..] == [];
    assert ValidRun(Apply(s, e), [], true) && Run(Apply(s, e), [], true) == Apply(s, e);
  }

  lemma Onward(s: State, a: seq<Event>, m: State, b: seq<Event>, t: State)
    requires Reaches(s, a, m) && Reaches(m, b, t)
    ensures Reaches(s, a + b, t)
  {
    RunJoins(s, a, b, true);
  }

  // ---- the scan

  /** The records behind a stream of indexes. */
  function RecsAt(files: map<nat, File>, stream: seq<Ix>): (r: seq<Rec>)
    requires forall ix :: ix in stream ==> ix.file in files && ix.pos < |files[ix.file].recs|
    ensures |r| == |stream| && forall i :: 0 <= i < |stream| ==> r[i] == files[stream[i].file].recs[stream[i].pos]
  {
    seq(|stream|, i requires 0 <= i < |stream| => (assert stream[i] in stream; files[stream[i].file].recs[stream[i].pos]))
  }

  /** The job has read its first n records while nothing else happened. */
  ghost predicate ScannedTo(s0: State, id: nat, n: nat, s: State)
    requires id in s0.jobs
  {
    var start := s0.jobs[id];
    && n <= |start.stream| && start == StartJob(start.inputs, start.useBitmap, start.fallback, start.bits, start.stream)
    && (forall ix :: ix in start.stream ==> ix.file in s0.files && ix.pos < |s0.files[ix.file].recs|)
    && var job := ScanTo(start, RecsAt(s0.files, start.stream), seq(|start.stream|, _ => s0.log), s0.nextFile, n);
       s == s0.(jobs := s0.jobs[id := job], nextFile := if job.out.Some? then s0.nextFile + 1 else s0.nextFile)
  }

  lemma ScanNumber(log: seq<Entry>, job: Job, rec: Rec, ix: Ix, a: nat, b: nat)
    requires job.out.Some? || a == b
    ensures ScanJob(log, job, rec, ix, a) == ScanJob(log, job, rec, ix, b)
    ensures var out := ScanJob(log, job, rec, ix, a).out; out == job.out || (job.out.None? && out == Some(a))
  {
  }

  lemma ScanJobDone(s0: State, id: nat, n: nat, s: State)
    requires id in s0.jobs && s0.jobs[id].phase == Scanning && ScannedTo(s0, id, n, s) && n < |s0.jobs[id].stream|
    ensures var start := s0.jobs[id];
            var recs, logs := RecsAt(s0.files, start.stream), seq(|start.stream|, _ => s0.log);
            var job, job' := ScanTo(start, recs, logs, s0.nextFile, n), ScanTo(start, recs, logs, s0.nextFile, n + 1);
            && job' == ScanJob(s.log, job, recs[n], start.stream[n], s.nextFile)
            && (job'.out == job.out || (job.out.None? && job'.out == Some(s0.nextFile)))
  {
    var start := s0.jobs[id];
    var recs, logs := RecsAt(s0.files, start.stream), seq(|start.stream|, _ => s0.log);
    ScanNumber(s.log, ScanTo(start, recs, logs, s0.nextFile, n), recs[n], start.stream[n], s0.nextFile, s.nextFile);
  }

  lemma ScanIsEnabled(s0: State, id: nat, n: nat, s: State)
    requires id in s0.jobs && s0.jobs[id].phase == Scanning && ScannedTo(s0, id, n, s) && n < |s0.jobs[id].stream|
    ensures CanScan(s, id)
  {
    assert s0.jobs[id].stream[n] in s0.jobs[id].stream;
  }

  lemma ScanDone(s0: State, id: nat, n: nat, s: State)
    requires id in s0.jobs && s0.jobs[id].phase == Scanning && ScannedTo(s0, id, n, s) && n < |s0.jobs[id].stream|
    requires CanScan(s, id)
    ensures ScannedTo(s0, id, n + 1, DoScan(s, id))
  {
    ScanJobDone(s0, id, n, s);
  }

  lemma ScanStepped(s0: State, id: nat, n: nat, s: State)
    requires id in s0.jobs && s0.jobs[id].phase == Scanning && ScannedTo(s0, id, n, s) && n < |s0.jobs[id].stream|
    ensures Enabled(s, Scan(id), true) && ScannedTo(s0, id, n + 1, Apply(s, Scan(id)))
  {
    ScanIsEnabled(s0, id, n, s);
    ScanDone(s0, id, n, s);
  }

  lemma {:induction false} ScanOn(s0: State, id: nat, n: nat, s: State) returns (es: seq<Event>, s': State)
    requires id in s0.jobs && s0.jobs[id].phase == Scanning && ScannedTo(s0, id, n, s)
    ensures Reaches(s, es, s') && ScannedTo(s0, id, |s0.jobs[id].stream|, s')
    decreases |s0.jobs[id].stream| - n
  {
    if n == |s0.jobs[id].stream| {
      es, s' := [], s;
    } else {
      ScanStepped(s0, id, n, s);
      OneStep(s, Scan(id));
      es, s' := ScanOn(s0, id, n + 1, Apply(s, Scan(id)));
      Onward(s, [Scan(id)], Apply(s, Scan(id)), es, s');
      es := [Scan(id)] + es;
    }
  }

  // ---- the rewrites

  /** The job has written some of its rewrites; the user's operations and the files are as they were. */
  predicate RewroteSome(s0: State, id: nat, s: State) {
    && id in s0.jobs && id in s.jobs
    && s.jobs[id] == s0.jobs[id].(written := s.jobs[id].written) && s.jobs - {id} == s0.jobs - {id}
    && s.jobs[id].written <= |s.jobs[id].rewrites|
    && s.files == s0.files && s.obsolete == s0.obsolete && s.snaps == s0.snaps && s.purge == s0.purge
    && UserOps(s.spec) == UserOps(s0.spec)
  }

  lemma RewriteSpec(s: State, id: nat)
    requires id in s.jobs && s.jobs[id].written < |s.jobs[id].rewrites|
    ensures DoRewriteNext(s, id).spec == s.spec || DoRewriteNext(s, id).spec == s.spec + [Nop]
  {
  }

  lemma RewriteJobs(s: State, id: nat)
    requires id in s.jobs && s.jobs[id].written < |s.jobs[id].rewrites|
    ensures DoRewriteNext(s, id).jobs == s.jobs[id := s.jobs[id].(written := s.jobs[id].written + 1)]
  {
  }

  lemma RewriteKeeps(s: State, id: nat)
    requires id in s.jobs && s.jobs[id].written < |s.jobs[id].rewrites|
    ensures var s' := DoRewriteNext(s, id);
            s'.files == s.files && s'.obsolete == s.obsolete && s'.snaps == s.snaps && s'.purge == s.purge
  {
  }

  lemma RewriteStepped(s0: State, id: nat, s: State)
    requires RewroteSome(s0, id, s) && s.jobs[id].phase == Rewriting && s.jobs[id].written < |s.jobs[id].rewrites|
    ensures RewroteSome(s0, id, DoRewriteNext(s, id))
    ensures DoRewriteNext(s, id).jobs[id].written == s.jobs[id].written + 1
  {
    RewriteSpec(s, id);
    RewriteJobs(s, id);
    RewriteKeeps(s, id);
    UserOpsAppend(s.spec, Nop);
    assert s.jobs[id := s.jobs[id].(written := s.jobs[id].written + 1)] - {id} == s.jobs - {id};
  }

  lemma {:induction false} RewriteOn(s0: State, id: nat, s: State) returns (es: seq<Event>, s': State)
    requires RewroteSome(s0, id, s) && s.jobs[id].phase == Rewriting
    ensures Reaches(s, es, s') && RewroteSome(s0, id, s') && s'.jobs[id].written == |s'.jobs[id].rewrites|
    decreases |s.jobs[id].rewrites| - s.jobs[id].written
  {
    if s.jobs[id].written == |s.jobs[id].rewrites| {
      es, s' := [], s;
    } else {
      RewriteStepped(s0, id, s);
      OneStep(s, RewriteNext(id));
      es, s' := RewriteOn(s0, id, DoRewriteNext(s, id));
      Onward(s, [RewriteNext(id)], DoRewriteNext(s, id), es, s');
      es := [RewriteNext(id)] + es;
    }
  }

  // ---- the end of the job, and the purge

  /** What is left when the job is done and everything obsolete is removed. */
  ghost predicate Ended(s: State, id: nat, s': State) {
    && id in s.jobs && s'.jobs == s.jobs - {id} && s'.spec == s.spec && s'.snaps == s.snaps && s'.purge == None
    && (forall f :: f in s'.files <==> f in s.files && f !in s.obsolete && f !in s.jobs[id].inputs)
    && (forall f :: f in s'.files ==>
          s'.files[f] == if s.jobs[id].out == Some(f) && s.files[f].state == PendingGC then File(s.files[f].recs, Normal)
                         else s.files[f])
  }

  function Synchronized(s: State, id: nat): State
    requires id in s.jobs
  {
    s.(durable := |s.log|, jobs := s.jobs[id := s.jobs[id].(phase := Synced(|s.log|))])
  }

  lemma RewritesSynced(s: State, id: nat) returns (es: seq<Event>)
    requires id in s.jobs && s.jobs[id].phase == Rewriting && s.jobs[id].written == |s.jobs[id].rewrites|
    ensures Reaches(s, es, Synchronized(s, id))
  {
    var a := Apply(s, RewriteDone(id));
    OneStep(s, RewriteDone(id));
    OneStep(a, JobSync(id));
    assert Apply(a, JobSync(id)) == Synchronized(s, id);
    Onward(s, [RewriteDone(id)], a, [JobSync(id)], Synchronized(s, id));
    es := [RewriteDone(id)] + [JobSync(id)];
  }

  lemma DeletedAndReleased(s: State, id: nat) returns (es: seq<Event>)
    requires id in s.jobs && s.jobs[id].phase.Synced? && s.purge.None?
    ensures Reaches(s, es, DoReleaseJob(DoDeleteInputs(s, id), id))
  {
    var c := DoDeleteInputs(s, id);
    OneStep(s, DeleteInputs(id));
    OneStep(c, ReleaseJob(id));
    Onward(s, [DeleteInputs(id)], c, [ReleaseJob(id)], DoReleaseJob(c, id));
    es := [DeleteInputs(id)] + [ReleaseJob(id)];
  }

  lemma PurgeEnds(s: State) returns (es: seq<Event>, s': State)
    requires s.purge.None? && s.snaps == map[]
    ensures Reaches(s, es, s') && s' == DoPurgeRemove(s.(purge := Some(None)), None)
  {
    var a := Apply(s, PurgeBegin);
    OneStep(s, PurgeBegin);
    s' := Apply(a, PurgeRemove);
    OneStep(a, PurgeRemove);
    Onward(s, [PurgeBegin], a, [PurgeRemove], s');
    es := [PurgeBegin] + [PurgeRemove];
  }

  lemma EndedAfter(s: State, id: nat)
    requires id in s.jobs && s.snaps == map[] && s.purge.None? && forall f :: f in s.jobs[id].inputs ==> f in s.files
    ensures Ended(s, id, DoPurgeRemove(DoReleaseJob(DoDeleteInputs(s, id), id).(purge := Some(None)), None))
  {
    var d := DoDeleteInputs(s, id);
    var r := DoReleaseJob(d, id).(purge := Some(None));
    assert d.obsolete.Keys == s.obsolete.Keys + s.jobs[id].inputs;
    assert Purged(r, None) == d.obsolete.Keys;
    assert d.jobs - {id} == s.jobs - {id};
  }

  lemma EndOn(s: State, id: nat) returns (es: seq<Event>, s': State)
    requires id in s.jobs && s.jobs[id].phase == Rewriting && s.jobs[id].written == |s.jobs[id].rewrites|
    requires s.snaps == map[] && s.purge.None? && forall f :: f in s.jobs[id].inputs ==> f in s.files
    ensures Reaches(s, es, s') && Ended(s, id, s')
  {
    var a := Synchronized(s, id);
    es := RewritesSynced(s, id);
    var more := DeletedAndReleased(a, id);
    var b := DoReleaseJob(DoDeleteInputs(a, id), id);
    Onward(s, es, a, more, b);
    es := es + more;
    more, s' := PurgeEnds(b);
    Onward(s, es, b, more, s');
    es := es + more;
    EndedAfter(a, id);
    assert a.jobs - {id} == s.jobs - {id};
  }

  // ---- a whole job

  lemma Begins(s: State, id: nat, inputs: set<nat>, stream: seq<Ix>, useBitmap: bool, fallback: bool)
    returns (es: seq<Event>, s': State)
    requires CanPick(s, id, inputs, stream)
    ensures Reaches(s, es, s')
    ensures s' == s.(files := SetStates(s.files, inputs, BeingGC),
                     jobs := s.jobs[id := StartJob(inputs, useBitmap, fallback, s.bits, stream)])
    ensures ScannedTo(s', id, 0, s')
  {
    var a := DoPick(s, id, inputs, stream, useBitmap, fallback);
    OneStep(s, Pick(id, inputs, stream, useBitmap, fallback));
    s' := Apply(a, CopyBits(id));
    OneStep(a, CopyBits(id));
    Onward(s, [Pick(id, inputs, stream, useBitmap, fallback)], a, [CopyBits(id)], s');
    es := [Pick(id, inputs, stream, useBitmap, fallback)] + [CopyBits(id)];
  }

  /** The log as a scan without writers sees it, again and again. */
  function Still(log: seq<Entry>, n: nat): seq<seq<Entry>> {
    seq(n, _ => log)
  }

  /** The places of the records that a job over this stream keeps when nobody writes. */
  function KeptPlaces(s: State, stream: seq<Ix>, useBitmap: bool): (ks: seq<nat>)
    requires forall ix :: ix in stream ==> ix.file in s.files && ix.pos < |s.files[ix.file].recs|
    ensures forall r :: 0 <= r < |ks| ==> ks[r] < |stream|
  {
    Picks(useBitmap, s.bits, stream, RecsAt(s.files, stream), Still(s.log, |stream|), |stream|)
  }

  /** The new file, if there is one, holds exactly the kept records and can be picked again. */
  predicate HoldsKept(s: State, stream: seq<Ix>, ks: seq<nat>, file: File)
    requires forall ix :: ix in stream ==> ix.file in s.files && ix.pos < |s.files[ix.file].recs|
    requires forall r :: 0 <= r < |ks| ==> ks[r] < |stream|
  {
    && file.state == Normal && |file.recs| == |ks|
    && forall r :: 0 <= r < |ks| ==> file.recs[r] == RecsAt(s.files, stream)[ks[r]]
  }

  /** The inputs are gone, the other live files are as they were, and the kept records are in one new file. */
  ghost predicate Reclaimed(s: State, inputs: set<nat>, stream: seq<Ix>, useBitmap: bool, fallback: bool, s': State)
    requires forall ix :: ix in stream ==> ix.file in s.files && ix.pos < |s.files[ix.file].recs|
  {
    var ks := KeptPlaces(s, stream, useBitmap);
    && s'.jobs == s.jobs && UserOps(s'.spec) == UserOps(s.spec)
    && (forall f :: f in inputs ==> f !in s'.files)
    && (forall f :: f in s.files && f !in s.obsolete && f !in inputs ==> f in s'.files && s'.files[f] == s.files[f])
    && (forall f :: f in s'.files && f !in s.files ==> f == s.nextFile)
    && (s.nextFile in s'.files <==> !fallback && ks != [])
    && (s.nextFile in s'.files ==> HoldsKept(s, stream, ks, s'.files[s.nextFile]))
  }

  /** What the scan leaves in the job, in terms of the state before the pick. */
  lemma ScanLeaves(s: State, id: nat, inputs: set<nat>, stream: seq<Ix>, useBitmap: bool, fallback: bool, s0: State, s1: State)
    requires CanPick(s, id, inputs, stream)
    requires s0 == s.(files := SetStates(s.files, inputs, BeingGC),
                      jobs := s.jobs[id := StartJob(inputs, useBitmap, fallback, s.bits, stream)])
    requires ScannedTo(s0, id, |stream|, s1)
    ensures id in s1.jobs && s1.jobs == s.jobs[id := s1.jobs[id]] && s1.spec == s.spec && s1.files == s0.files
    ensures s1.obsolete == s.obsolete && s1.snaps == s.snaps && s1.purge == s.purge
    ensures var job, ks := s1.jobs[id], KeptPlaces(s, stream, useBitmap);
            && job.phase == Scanning && job.inputs == inputs && job.scanned == |job.stream| && job.written == 0
            && Copies(stream, RecsAt(s.files, stream), ks, fallback, s.nextFile, job.out, job.outRecs, job.rewrites)
  {
    var start := s0.jobs[id];
    assert RecsAt(s0.files, stream) == RecsAt(s.files, stream);
    ScanCopies(start, RecsAt(s.files, stream), Still(s.log, |stream|), s.nextFile, |stream|);
  }

  lemma FilesLeft(s: State, id: nat, inputs: set<nat>, stream: seq<Ix>, useBitmap: bool, fallback: bool, job: Job, s2: State, s': State)
    requires Numbered(|s.log|, s.files, s.obsolete, s.loggedNext, s.nextFile) && CanPick(s, id, inputs, stream)
    requires var ks := KeptPlaces(s, stream, useBitmap);
             Copies(stream, RecsAt(s.files, stream), ks, fallback, s.nextFile, job.out, job.outRecs, job.rewrites)
    requires s2.files == if job.out.Some? then SetStates(s.files, inputs, BeingGC)[job.out.value := File(job.outRecs, PendingGC)]
                         else SetStates(s.files, inputs, BeingGC)
    requires s2.obsolete == s.obsolete
    requires forall f :: f in s'.files <==> f in s2.files && f !in s2.obsolete && f !in inputs
    requires forall f :: f in s'.files ==>
               s'.files[f] == if job.out == Some(f) && s2.files[f].state == PendingGC then File(s2.files[f].recs, Normal)
                              else s2.files[f]
    requires s'.jobs == s.jobs && UserOps(s'.spec) == UserOps(s.spec)
    ensures Reclaimed(s, inputs, stream, useBitmap, fallback, s')
  {
  }

  lemma RewrittenToEnd(s: State, id: nat) returns (es: seq<Event>, s': State)
    requires id in s.jobs && s.jobs[id].phase == Rewriting && s.jobs[id].written <= |s.jobs[id].rewrites|
    requires s.snaps == map[] && s.purge.None? && forall f :: f in s.jobs[id].inputs ==> f in s.files
    ensures Reaches(s, es, s')
    ensures UserOps(s'.spec) == UserOps(s.spec) && s'.jobs == s.jobs - {id}
    ensures forall f :: f in s'.files <==> f in s.files && f !in s.obsolete && f !in s.jobs[id].inputs
    ensures forall f :: f in s'.files ==>
              s'.files[f] == if s.jobs[id].out == Some(f) && s.files[f].state == PendingGC then File(s.files[f].recs, Normal)
                             else s.files[f]
  {
    var m, more;
    es, m := RewriteOn(s, id, s);
    more, s' := EndOn(m, id);
    Onward(s, es, m, more, s');
    es := es + more;
  }

  /** The state after the output is installed. */
  ghost predicate InstalledFrom(s: State, id: nat, inputs: set<nat>, stream: seq<Ix>, useBitmap: bool, fallback: bool, job: Job, s2: State)
    requires forall ix :: ix in stream ==> ix.file in s.files && ix.pos < |s.files[ix.file].recs|
  {
    && Copies(stream, RecsAt(s.files, stream), KeptPlaces(s, stream, useBitmap), fallback, s.nextFile,
              job.out, job.outRecs, job.rewrites)
    && s2.jobs == s.jobs[id := job] && job.phase == Rewriting && job.inputs == inputs && job.written == 0
    && s2.spec == s.spec && s2.obsolete == s.obsolete && s2.snaps == s.snaps && s2.purge == s.purge
    && s2.files == if job.out.Some? then SetStates(s.files, inputs, BeingGC)[job.out.value := File(job.outRecs, PendingGC)]
                   else SetStates(s.files, inputs, BeingGC)
  }

  lemma UpToInstall(s: State, id: nat, inputs: set<nat>, stream: seq<Ix>, useBitmap: bool, fallback: bool)
    returns (es: seq<Event>, job: Job, s2: State)
    requires CanPick(s, id, inputs, stream)
    ensures Reaches(s, es, s2) && InstalledFrom(s, id, inputs, stream, useBitmap, fallback, job, s2)
  {
    var s0, s1, more;
    es, s0 := Begins(s, id, inputs, stream, useBitmap, fallback);
    more, s1 := ScanOn(s0, id, 0, s0);
    Onward(s, es, s0, more, s1);
    ScanLeaves(s, id, inputs, stream, useBitmap, fallback, s0, s1);
    OneStep(s1, Install(id));
    s2 := DoInstall(s1, id);
    job := s2.jobs[id];
    Onward(s, es + more, s1, [Install(id)], s2);
    es := es + more + [Install(id)];
  }

  /**
   From every state of the invariant in which no snapshot is held and no purge runs, a job over any
   normal files can run to its end.  Then its inputs are gone, and exactly the kept records are in
   one new file; nothing else has changed for the user or for the other files.
   */
  lemma JobReclaims(s: State, id: nat, inputs: set<nat>, stream: seq<Ix>, useBitmap: bool, fallback: bool)
    returns (es: seq<Event>, s': State)
    requires Inv(s) && CanPick(s, id, inputs, stream) && s.snaps == map[] && s.purge.None?
    ensures Reaches(s, es, s') && Inv(s') && Reclaimed(s, inputs, stream, useBitmap, fallback, s')
  {
    es, s' := JobRuns(s, id, inputs, stream, useBitmap, fallback);
    RunKeepsInv(s, es);
  }

  lemma JobRuns(s: State, id: nat, inputs: set<nat>, stream: seq<Ix>, useBitmap: bool, fallback: bool)
    returns (es: seq<Event>, s': State)
    requires Numbered(|s.log|, s.files, s.obsolete, s.loggedNext, s.nextFile)
    requires CanPick(s, id, inputs, stream) && s.snaps == map[] && s.purge.None?
    ensures Reaches(s, es, s') && Reclaimed(s, inputs, stream, useBitmap, fallback, s')
  {
    var job, s2, more;
    es, job, s2 := UpToInstall(s, id, inputs, stream, useBitmap, fallback);
    more, s' := RewrittenToEnd(s2, id);
    Onward(s, es, s2, more, s');
    es := es + more;
    assert s.jobs[id := job] - {id} == s.jobs;
    FilesLeft(s, id, inputs, stream, useBitmap, fallback, job, s2, s');
  }

  // ---- flushes and compactions

  function Written(s: State, id: nat, newFiles: seq<seq<Rec>>, plan: map<nat, Val>, upTo: nat): State {
    DoTableInstall(DoTableOutput(s, id, newFiles, plan), id, upTo)
  }

  /** Exactly the planned entries are replaced, and the indexes they held are to be invalidated. */
  ghost predicate Replaced(s: State, plan: map<nat, Val>, s': State) {
    && |s'.log| == |s.log| && s'.spec == s.spec && s'.snaps == s.snaps
    && (forall i :: 0 <= i < |s.log| ==> s'.log[i] == if i in plan then Entry(s.log[i].key, plan[i]) else s.log[i])
    && (forall i :: i in plan && i < |s.log| && s.log[i].val.Blob? ==> s.log[i].val.ix in s'.undelivered)
  }

  lemma WrittenReplaces(s: State, id: nat, newFiles: seq<seq<Rec>>, plan: map<nat, Val>, upTo: nat)
    ensures Replaced(s, plan, Written(s, id, newFiles, plan, upTo))
  {
    forall i | i in plan && i < |s.log| && s.log[i].val.Blob?
      ensures s.log[i].val.ix in Removed(s.log, plan.Keys)
    {
      assert i in plan.Keys;
    }
  }

  /** The new files are there and can be picked. */
  predicate HasFiles(files: map<nat, File>, first: nat, newFiles: seq<seq<Rec>>) {
    forall f :: first <= f < first + |newFiles| ==> f in files && files[f] == File(newFiles[f - first], Normal)
  }

  lemma WrittenHasFiles(s: State, id: nat, newFiles: seq<seq<Rec>>, plan: map<nat, Val>, upTo: nat)
    ensures var b := Written(s, id, newFiles, plan, upTo);
            id in b.tables && HasFiles(Settle(b.files, b.tables[id].lo, b.tables[id].hi), s.nextFile, newFiles)
  {
  }

  lemma TableWritten(s: State, id: nat, newFiles: seq<seq<Rec>>, plan: map<nat, Val>, upTo: nat) returns (es: seq<Event>)
    requires CanTableOutput(s, id, newFiles, plan) && CanTableInstall(DoTableOutput(s, id, newFiles, plan), id, upTo)
    ensures Reaches(s, es, Written(s, id, newFiles, plan, upTo))
  {
    var a := DoTableOutput(s, id, newFiles, plan);
    OneStep(s, TableOutput(id, newFiles, plan));
    OneStep(a, TableInstall(id, upTo));
    Onward(s, [TableOutput(id, newFiles, plan)], a, [TableInstall(id, upTo)], Written(s, id, newFiles, plan, upTo));
    es := [TableOutput(id, newFiles, plan)] + [TableInstall(id, upTo)];
  }

  lemma TableCompletes(s: State, id: nat) returns (s': State)
    requires id in s.tables && s.tables[id].installed
    ensures Reaches(s, [TableCompleted(id)], s')
    ensures s' == s.(files := Settle(s.files, s.tables[id].lo, s.tables[id].hi), tables := s.tables - {id})
  {
    OneStep(s, TableCompleted(id));
    s' := Apply(s, TableCompleted(id));
  }

  /** A flush or compaction that runs to its end has separated what it planned to, and nothing else. */
  lemma TableSeparates(s: State, id: nat, newFiles: seq<seq<Rec>>, plan: map<nat, Val>, upTo: nat) returns (es: seq<Event>, s': State)
    requires Inv(s) && CanTableOutput(s, id, newFiles, plan) && CanTableInstall(DoTableOutput(s, id, newFiles, plan), id, upTo)
    ensures Reaches(s, es, s') && Inv(s') && Replaced(s, plan, s') && HasFiles(s'.files, s.nextFile, newFiles)
  {
    var b := Written(s, id, newFiles, plan, upTo);
    es := TableWritten(s, id, newFiles, plan, upTo);
    WrittenReplaces(s, id, newFiles, plan, upTo);
    WrittenHasFiles(s, id, newFiles, plan, upTo);
    s' := TableCompletes(b, id);
    Onward(s, es, b, [TableCompleted(id)], s');
    es := es + [TableCompleted(id)];
    RunKeepsInv(s, es);
  }

  lemma CompactsAndDelivers(s: State, dropped: set<nat>) returns (es: seq<Event>)
    requires CanCompact(s, dropped)
    ensures var a := DoCompact(s, dropped);
            Reaches(s, es, a.(bits := a.bits + a.undelivered, undelivered := a.undelivered - a.undelivered))
  {
    var a := DoCompact(s, dropped);
    OneStep(s, Compact(dropped));
    OneStep(a, Deliver(a.undelivered));
    Onward(s, [Compact(dropped)], a, [Deliver(a.undelivered)], Apply(a, Deliver(a.undelivered)));
    es := [Compact(dropped)] + [Deliver(a.undelivered)];
  }

  /** An index that a compaction drops is in no entry any more, and once its event is delivered its bit is set. */
  lemma DroppedIsMarked(s: State, dropped: set<nat>) returns (es: seq<Event>, s': State)
    requires Inv(s) && CanCompact(s, dropped)
    ensures Reaches(s, es, s') && Inv(s') && |s'.log| == |s.log|
    ensures forall i :: 0 <= i < |s.log| ==> s'.log[i] == if i in dropped then Entry(s.log[i].key, Hole) else s.log[i]
    ensures forall i :: i in dropped && i < |s.log| && s.log[i].val.Blob? ==>
              s.log[i].val.ix in s'.bits && !Refers(s'.log, s.log[i].val.ix)
  {
    es := CompactsAndDelivers(s, dropped);
    var a := DoCompact(s, dropped);
    s' := a.(bits := a.bits + a.undelivered, undelivered := a.undelivered - a.undelivered);
    RunKeepsInv(s, es);
    forall i | i in dropped && i < |s.log| && s.log[i].val.Blob?
      ensures s.log[i].val.ix in s'.bits
    {
      assert s.log[i].val.ix in Removed(s.log, dropped);
    }
  }

  // ---- giving back and cleaning up

  /** A job that stops, at whatever stage, gives its files back: inputs not deleted yet and an installed output can be picked. */
  lemma ReleaseFrees(s: State, id: nat)
    requires Inv(s) && id in s.jobs
    ensures var s' := DoReleaseJob(s, id);
            && Reaches(s, [ReleaseJob(id)], s') && s'.jobs == s.jobs - {id}
            && (forall f :: f in s.jobs[id].inputs && f in s.files && f !in s.obsolete ==>
                  f in s'.files && s'.files[f] == File(s.files[f].recs, Normal))
            && (forall f :: s.jobs[id].out == Some(f) && f in s.files && f !in s.obsolete ==>
                  f in s'.files && s'.files[f] == File(s.files[f].recs, Normal))
            && (forall f :: f in s.files && f !in s.jobs[id].inputs && s.jobs[id].out != Some(f) ==>
                  f in s'.files && s'.files[f] == s.files[f])
  {
    OneStep(s, ReleaseJob(id));
    assert JobOk(s.log, s.durable, s.files, s.bits, s.bits + s.undelivered, s.loggedNext, s.nextFile, s.jobs[id]);
    ReleaseFiles(s.files, s.obsolete, s.loggedNext, s.nextFile, |s.log|, s.jobs[id]);
  }

  lemma ReleaseFiles(files: map<nat, File>, obsolete: map<nat, nat>, loggedNext: nat, nextFile: nat, n: nat, job: Job)
    requires Reserved(files, loggedNext, nextFile, job) && Numbered(n, files, obsolete, loggedNext, nextFile)
    ensures forall f :: f in job.inputs && f in files && f !in obsolete ==> files[f].state == BeingGC
    ensures forall f :: job.out == Some(f) && f in files && f !in obsolete ==> files[f].state == PendingGC
  {
  }

  /** A purge with nothing in between removes exactly the files that became obsolete before every live snapshot. */
  lemma PurgeIsExact(s: State) returns (s': State)
    requires Inv(s) && s.purge.None?
    ensures Reaches(s, [PurgeBegin, PurgeRemove], s')
    ensures forall f :: f in s'.files <==>
              f in s.files && !(f in s.obsolete && forall q :: q in s.snaps.Values ==> s.obsolete[f] < q)
    ensures forall f :: f in s'.files ==> s'.files[f] == s.files[f]
  {
    var a := Apply(s, PurgeBegin);
    OneStep(s, PurgeBegin);
    OneStep(a, PurgeRemove);
    s' := DoPurgeRemove(a, a.purge.value);
    Onward(s, [PurgeBegin], a, [PurgeRemove], s');
    assert [PurgeBegin] + [PurgeRemove] == [PurgeBegin, PurgeRemove];
    OldestDecides(s.snaps, a.purge.value);
  }

  lemma OldestDecides(snaps: map<nat, nat>, oldest: Option<nat>)
    requires IsOldest(snaps, oldest)
    ensures forall n: nat :: Above(oldest, n) <==> forall q :: q in snaps.Values ==> n < q
  {
  }

  lemma {:induction false} SnapshotsEnd(s: State) returns (es: seq<Event>, s': State)
    ensures Reaches(s, es, s') && s' == s.(snaps := map[])
    decreases |s.snaps|
  {
    if s.snaps == map[] {
      es, s' := [], s;
    } else {
      var id :| id in s.snaps;
      OneStep(s, ReleaseSnapshot(id));
      var t := Apply(s, ReleaseSnapshot(id));
      assert s.snaps == t.snaps[id := s.snaps[id]];
      es, s' := SnapshotsEnd(t);
      Onward(s, [ReleaseSnapshot(id)], t, es, s');
      es := [ReleaseSnapshot(id)] + es;
    }
  }

  /** Once the snapshots are released, a purge leaves no obsolete file behind and takes no other. */
  lemma NothingIsLeftBehind(s: State) returns (es: seq<Event>, s': State)
    requires Inv(s) && s.purge.None?
    ensures Reaches(s, es, s') && Inv(s')
    ensures forall f :: f in s'.files <==> f in s.files && f !in s.obsolete
    ensures forall f :: f in s'.files ==> s'.files[f] == s.files[f]
  {
    var t;
    es, t := SnapshotsEnd(s);
    RunKeepsInv(s, es);
    s' := PurgeIsExact(t);
    Onward(s, es, t, [PurgeBegin, PurgeRemove], s');
    es := es + [PurgeBegin, PurgeRemove];
    RunKeepsInv(s, es);
  }

  lemma DeletedNow(s: State, id: nat)
    requires Enabled(s, DeleteInputs(id), true)
    ensures var t := Apply(s, DeleteInputs(id));
            && t.snaps == s.snaps && t.purge == s.purge && t.files.Keys == s.files.Keys
            && (forall f :: f in s.jobs[id].inputs ==> f in t.obsolete && t.obsolete[f] == |s.log|)
  {
  }

  lemma SnapshotsBelow(s: State)
    requires Inv(s)
    ensures forall q :: q in s.snaps.Values ==> q <= |s.log|
  {
  }

  /** A purge right after a job takes its inputs exactly if no snapshot is live. */
  lemma SnapshotsHoldInputs(s: State, id: nat) returns (s': State)
    requires Inv(s) && s.purge.None? && Enabled(s, DeleteInputs(id), true)
    ensures Reaches(s, [DeleteInputs(id)] + [PurgeBegin, PurgeRemove], s')
    ensures forall f :: f in s.jobs[id].inputs ==> (f in s'.files <==> f in s.files && s.snaps != map[])
  {
    var t := Apply(s, DeleteInputs(id));
    OneStep(s, DeleteInputs(id));
    StepKeepsInv(s, DeleteInputs(id));
    DeletedNow(s, id);
    SnapshotsBelow(s);
    s' := PurgeIsExact(t);
    Onward(s, [DeleteInputs(id)], t, [PurgeBegin, PurgeRemove], s');
    if s.snaps != map[] {
      var x :| x in s.snaps;
      assert s.snaps[x] in s.snaps.Values;
    }
  }

  /** A copy that nobody was re-pointed to is told to the bitmaps. */
  lemma MissIsMarked(s: State, id: nat)
    requires Enabled(s, RewriteNext(id), true) && s.jobs[id].useBitmap
    requires var rw := s.jobs[id].rewrites[s.jobs[id].written]; Look(s.log, |s.log|, rw.key) != Blob(rw.from) && rw.to.Blob?
    ensures var s' := Apply(s, RewriteNext(id));
            s'.log == s.log && s.jobs[id].rewrites[s.jobs[id].written].to.ix in s'.undelivered
  {
  }
}
