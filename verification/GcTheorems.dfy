/** What garbage collection guarantees over whole runs. */
module GcTheorems {
  import opened Types
  import opened Lsm
  import opened GcProtocol
  import opened GcInvariant
  import opened GcProof

  lemma InitInv()
    ensures Inv(INIT)
  {
  }

  predicate IsScanEvent(e: Event) {
    e.Pick? || e.CopyBits? || e.Scan? || e.Install? || e.RewriteNext?
  }

  predicate IsFinishEvent(e: Event) {
    e.RewriteDone? || e.JobSync? || e.DeleteInputs? || e.ReleaseJob?
  }

  predicate IsTableEvent(e: Event) {
    e.TableOutput? || e.TableInstall? || e.TableCompleted? || e.TableAbort? || e.Compact? || e.Deliver?
  }

  predicate IsUserEvent(e: Event) {
    e.UserPut? || e.UserDelete? || e.TakeSnapshot? || e.ReleaseSnapshot? || e.SyncWal? || e.Crash?
  }

  lemma RewriteStepKeepsInv(s: State, id: nat)
    requires Inv(s) && Enabled(s, RewriteNext(id), true)
    ensures Inv(Apply(s, RewriteNext(id)))
  {
    var rw := s.jobs[id].rewrites[s.jobs[id].written];
    if Look(s.log, |s.log|, rw.key) == Blob(rw.from) { RewroteHit(s, id); } else { RewroteMiss(s, id); }
  }

  lemma ScanStepKeepsInv(s: State, e: Event)
    requires Inv(s) && Enabled(s, e, true) && IsScanEvent(e)
    ensures Inv(Apply(s, e))
  {
    match e
    case Pick(id, inputs, stream, useBitmap, fallback) => Picked(s, id, inputs, stream, useBitmap, fallback);
    case CopyBits(id) => BitsCopied(s, id);
    case Scan(id) => Scanned(s, id);
    case Install(id) => Installed(s, id);
    case RewriteNext(id) => RewriteStepKeepsInv(s, id);
  }

  lemma DeleteStepKeepsInv(s: State, e: Event)
    requires Inv(s) && Enabled(s, e, true) && (e.DeleteInputs? || e.ReleaseJob?)
    ensures Inv(Apply(s, e))
  {
    match e
    case DeleteInputs(id) => InputsDeleted(s, id);
    case ReleaseJob(id) => JobReleased(s, id);
  }

  lemma FinishStepKeepsInv(s: State, e: Event)
    requires Inv(s) && Enabled(s, e, true) && IsFinishEvent(e)
    ensures Inv(Apply(s, e))
  {
    if e.DeleteInputs? || e.ReleaseJob? {
      DeleteStepKeepsInv(s, e);
    } else {
      match e
      case RewriteDone(id) => RewriteFinished(s, id);
      case JobSync(id) => JobSynced(s, id);
    }
  }

  lemma PurgeStepKeepsInv(s: State, e: Event)
    requires Inv(s) && Enabled(s, e, true) && (e.PurgeBegin? || e.PurgeRemove?)
    ensures Inv(Apply(s, e))
  {
    if e.PurgeBegin? {
      PurgeBegun(s);
    } else {
      PurgeRemoved(s);
    }
  }

  lemma TableStepKeepsInv(s: State, e: Event)
    requires Inv(s) && Enabled(s, e, true) && IsTableEvent(e)
    ensures Inv(Apply(s, e))
  {
    match e
    case TableOutput(id, newFiles, plan) => TableWritten(s, id, newFiles, plan);
    case TableInstall(id, upTo) => TableInstalled(s, id, upTo);
    case TableCompleted(id) => TableSettled(s, id);
    case TableAbort(id) => TableAborted(s, id);
    case Compact(dropped) => Compacted(s, dropped);
    case Deliver(ixs) => Delivered(s, ixs);
  }

  lemma UserStepKeepsInv(s: State, e: Event)
    requires Inv(s) && Enabled(s, e, true) && IsUserEvent(e)
    ensures Inv(Apply(s, e))
  {
    match e
    case UserPut(k, v) => UserWrite(s, Entry(k, Inline(v)), Put(k, v));
    case UserDelete(k) => UserWrite(s, Entry(k, Tomb), Del(k));
    case TakeSnapshot(id) => SnapshotTaken(s, id);
    case ReleaseSnapshot(id) => SnapshotReleased(s, id);
    case SyncWal(upTo) => DurableGrows(s, upTo);
    case Crash(p) => Crashed(s, p);
  }

  /** Every step keeps the invariant, as long as no purge races with a deletion. */
  lemma StepKeepsInv(s: State, e: Event)
    requires Inv(s) && Enabled(s, e, true)
    ensures Inv(Apply(s, e))
  {
    if IsUserEvent(e) {
      UserStepKeepsInv(s, e);
    } else if IsTableEvent(e) {
      TableStepKeepsInv(s, e);
    } else if IsScanEvent(e) {
      ScanStepKeepsInv(s, e);
    } else if IsFinishEvent(e) {
      FinishStepKeepsInv(s, e);
    } else {
      PurgeStepKeepsInv(s, e);
    }
  }

  lemma {:induction false} RunKeepsInv(s: State, es: seq<Event>)
    requires Inv(s) && ValidRun(s, es, true)
    ensures Inv(Run(s, es, true))
    decreases |es|
  {
    if es != [] {
      StepKeepsInv(s, es[0]);
      RunKeepsInv(Apply(s, es[0]), es[1..]);
    }
  }

  /** The user's write in an event, if it is one. */
  function UserOp(e: Event): seq<SpecOp> {
    if e.UserPut? then [Put(e.k, e.v)] else if e.UserDelete? then [Del(e.k)] else []
  }

  /** The user's writes in a run. */
  function UserTrace(es: seq<Event>): seq<SpecOp> {
    if es == [] then [] else UserOp(es[0]) + UserTrace(es[1..])
  }

  lemma UserOpsAppend(ops: seq<SpecOp>, op: SpecOp)
    ensures UserOps(ops + [op]) == UserOps(ops) + if op.Nop? then [] else [op]
  {
    assert (ops + [op])[..|ops|] == ops;
  }

  lemma SpecUntouchedByTables(s: State, e: Event)
    requires Enabled(s, e, true) && (IsTableEvent(e) || e.TakeSnapshot? || e.ReleaseSnapshot? || e.SyncWal?)
    ensures Apply(s, e).spec == s.spec
  {
  }

  lemma SpecUntouchedByScan(s: State, e: Event)
    requires Enabled(s, e, true) && IsScanEvent(e)
    ensures Apply(s, e).spec == s.spec || Apply(s, e).spec == s.spec + [Nop]
  {
  }

  lemma SpecUntouchedByFinish(s: State, e: Event)
    requires Enabled(s, e, true) && IsFinishEvent(e)
    ensures Apply(s, e).spec == s.spec
  {
  }

  lemma SpecUntouched(s: State, e: Event)
    requires Enabled(s, e, true) && !e.Crash? && !e.UserPut? && !e.UserDelete?
    ensures Apply(s, e).spec == s.spec || Apply(s, e).spec == s.spec + [Nop]
  {
    if IsScanEvent(e) {
      SpecUntouchedByScan(s, e);
    } else if IsFinishEvent(e) {
      SpecUntouchedByFinish(s, e);
    } else if !e.PurgeBegin? && !e.PurgeRemove? {
      SpecUntouchedByTables(s, e);
    }
  }

  lemma SpecStep(s: State, e: Event)
    requires Enabled(s, e, true) && !e.Crash?
    ensures UserOps(Apply(s, e).spec) == UserOps(s.spec) + UserOp(e)
  {
    if e.UserPut? {
      UserOpsAppend(s.spec, Put(e.k, e.v));
    } else if e.UserDelete? {
      UserOpsAppend(s.spec, Del(e.k));
    } else {
      SpecUntouched(s, e);
      UserOpsAppend(s.spec, Nop);
    }
  }

  /** Without crashes, the specification has run exactly the user's writes. */
  lemma {:induction false} SpecIsUserTrace(s: State, es: seq<Event>)
    requires ValidRun(s, es, true) && forall i :: 0 <= i < |es| ==> !es[i].Crash?
    ensures UserOps(Run(s, es, true).spec) == UserOps(s.spec) + UserTrace(es)
    decreases |es|
  {
    if es != [] {
      SpecStep(s, es[0]);
      SpecIsUserTrace(Apply(s, es[0]), es[1..]);
      Glue(UserOps(Run(s, es, true).spec), UserOps(s.spec), UserOp(es[0]), UserTrace(es[1..]));
    }
  }

  lemma Glue(r: seq<SpecOp>, a: seq<SpecOp>, b: seq<SpecOp>, c: seq<SpecOp>)
    requires r == a + b + c
    ensures r == a + (b + c)
  {
  }

  /** GC is invisible, at the latest sequence and at every live snapshot. */
  lemma GcInvisible(es: seq<Event>, k: Key)
    requires ValidRun(INIT, es, true)
    ensures var s := Run(INIT, es, true);
            && |s.spec| == |s.log|
            && Read(s.log, s.files, |s.log|, k) == SpecRead(UserOps(s.spec), |UserOps(s.spec)|, k)
            && ((forall i :: 0 <= i < |es| ==> !es[i].Crash?) ==> UserOps(s.spec) == UserTrace(es))
            && forall id :: id in s.snaps ==>
                 && s.snaps[id] <= |s.log|
                 && var before := UserOps(s.spec[..s.snaps[id]]);
                    Read(s.log, s.files, s.snaps[id], k) == SpecRead(before, |before|, k)
  {
    InitInv();
    RunKeepsInv(INIT, es);
    var s := Run(INIT, es, true);
    assert s.spec[..|s.log|] == s.spec;
    assert Observed(|s.log|, s.durable, s.snaps, |s.log|);
    SpecReadUserOps(s.spec, |s.log|, k);
    if forall i :: 0 <= i < |es| ==> !es[i].Crash? {
      SpecIsUserTrace(INIT, es);
    }
    forall id | id in s.snaps
      ensures s.snaps[id] <= |s.log|
      ensures var before := UserOps(s.spec[..s.snaps[id]]);
              Read(s.log, s.files, s.snaps[id], k) == SpecRead(before, |before|, k)
    {
      assert s.snaps[id] in s.snaps.Values;
      assert Observed(|s.log|, s.durable, s.snaps, s.snaps[id]);
      SpecReadUserOps(s.spec, s.snaps[id], k);
    }
  }

  lemma InvReads(s: State, p: nat, k: Key)
    requires Inv(s) && Observed(|s.log|, s.durable, s.snaps, p)
    ensures |s.spec| == |s.log| && Read(s.log, s.files, p, k) == SpecRead(s.spec, p, k)
    ensures Look(s.log, p, k).Blob? ==>
              var ix := Look(s.log, p, k).ix;
              && ix.file in s.files && ix.pos < |s.files[ix.file].recs|
              && s.files[ix.file].recs[ix.pos].key == k
  {
  }

  /** A visible blob index always names a file that is still there, and a record of its key in it. */
  lemma NoDanglingIndex(es: seq<Event>, p: nat, k: Key)
    requires ValidRun(INIT, es, true)
    requires var s := Run(INIT, es, true); p == |s.log| || (p in s.snaps.Values && p <= |s.log|)
    ensures var s := Run(INIT, es, true);
            Look(s.log, p, k).Blob? ==>
              var ix := Look(s.log, p, k).ix;
              && ix.file in s.files && ix.pos < |s.files[ix.file].recs|
              && s.files[ix.file].recs[ix.pos].key == k
  {
    InitInv();
    RunKeepsInv(INIT, es);
    InvReads(Run(INIT, es, true), p, k);
  }

  lemma InvCrash(s: State, p: nat, k: Key)
    requires Inv(s) && s.durable <= p <= |s.log|
    ensures |s.spec| == |s.log|
    ensures var r := DoCrash(s, p);
            && Read(r.log, r.files, p, k) == SpecRead(s.spec, p, k)
            && (Look(r.log, p, k).Blob? ==> Look(r.log, p, k).ix.file in r.files)
  {
    Crashed(s, p);
    InvReads(DoCrash(s, p), p, k);
    SpecReadPrefix(s.spec, s.spec[..p], p, k);
  }

  /** Wherever a run stops, recovery from any prefix that keeps the synced writes serves all of them. */
  lemma CrashSafe(es: seq<Event>, p: nat, k: Key)
    requires ValidRun(INIT, es, true)
    requires var s := Run(INIT, es, true); s.durable <= p <= |s.log|
    ensures var s := Run(INIT, es, true);
            && |s.spec| == |s.log|
            && var r := DoCrash(s, p);
               && Read(r.log, r.files, p, k) == SpecRead(s.spec, p, k)
               && (Look(r.log, p, k).Blob? ==> Look(r.log, p, k).ix.file in r.files)
  {
    InitInv();
    RunKeepsInv(INIT, es);
    InvCrash(Run(INIT, es, true), p, k);
  }

  /** A set bit, delivered or on its way, marks an index that no entry of the LSM holds. */
  lemma BitmapSound(es: seq<Event>, ix: Ix)
    requires ValidRun(INIT, es, true)
    requires var s := Run(INIT, es, true);
             ix in s.bits || ix in s.undelivered || exists j :: j in s.jobs && ix in s.jobs[j].bits
    ensures var s := Run(INIT, es, true); forall i :: 0 <= i < |s.log| ==> s.log[i].val != Blob(ix)
  {
    InitInv();
    RunKeepsInv(INIT, es);
    var s := Run(INIT, es, true);
    assert forall j :: j in s.jobs ==>
      JobOk(s.log, s.durable, s.files, s.bits, s.bits + s.undelivered, s.loggedNext, s.nextFile, s.jobs[j]);
  }

  // ---- the purge race

  predicate Served(s: State, p: nat, k: Key) {
    p <= |s.log| && p <= |s.spec| && Read(s.log, s.files, p, k) == SpecRead(s.spec, p, k)
  }

  ghost predicate SnapshotsServed(s: State) {
    forall id, k :: id in s.snaps ==> Served(s, s.snaps[id], k)
  }

  lemma InvServes(s: State)
    requires Inv(s)
    ensures SnapshotsServed(s)
  {
    forall id, k | id in s.snaps
      ensures Served(s, s.snaps[id], k)
    {
      assert s.snaps[id] in s.snaps.Values;
      InvReads(s, s.snaps[id], k);
    }
  }

  /** A snapshot that reads from the inputs loses its value when they are removed. */
  lemma RaceLoses(s: State, id: nat)
    requires id in s.jobs && RaceOpens(s, id)
    ensures !SnapshotsServed(DoPurgeRemove(DoDeleteInputs(s, id), None))
  {
    var s' := DoPurgeRemove(DoDeleteInputs(s, id), None);
    var q, k :| q in s.snaps.Values && q <= |s.log| && InFiles(Look(s.log, q, k), s.jobs[id].inputs);
    var n :| n in s.snaps && s.snaps[n] == q;
    assert Look(s.log, q, k).ix.file in DoDeleteInputs(s, id).obsolete;
    assert Read(s'.log, s'.files, s'.snaps[n], k) == Corruption;
    assert !Served(s', s'.snaps[n], k);
  }

  lemma NoRaceServes(s: State, id: nat)
    requires Inv(s) && s.purge.Some? && id in s.jobs && s.jobs[id].phase.Synced? && !RaceOpens(s, id)
    ensures SnapshotsServed(DoPurgeRemove(DoDeleteInputs(s, id), s.purge.value))
  {
    InputsDeleted(s, id);
    PurgeRemoved(DoDeleteInputs(s, id));
    InvServes(DoPurgeRemove(DoDeleteInputs(s, id), s.purge.value));
  }

  /** es leads from s to s', with deletions allowed to race with a purge. */
  ghost predicate Leads(s: State, es: seq<Event>, s': State) {
    ValidRun(s, es, false) && Run(s, es, false) == s'
  }

  ghost predicate Steps(s: State, e: Event, s': State) {
    Enabled(s, e, false) && Apply(s, e) == s'
  }

  lemma LeadsBack(s: State, e: Event, s': State, es: seq<Event>, end: State)
    requires Steps(s, e, s') && Leads(s', es, end)
    ensures Leads(s, [e] + es, end)
  {
    assert ([e] + es)[1..] == es;
  }

  lemma DeleteThenPurge(s: State, id: nat)
    requires s.purge.Some? && id in s.jobs && s.jobs[id].phase.Synced?
    ensures Leads(s, [DeleteInputs(id), PurgeRemove], DoPurgeRemove(DoDeleteInputs(s, id), s.purge.value))
  {
    LeadsBack(DoDeleteInputs(s, id), PurgeRemove, DoPurgeRemove(DoDeleteInputs(s, id), s.purge.value), [],
              DoPurgeRemove(DoDeleteInputs(s, id), s.purge.value));
    LeadsBack(s, DeleteInputs(id), DoDeleteInputs(s, id), [PurgeRemove], DoPurgeRemove(DoDeleteInputs(s, id), s.purge.value));
  }

  /**
   When inputs are deleted while a purge runs, the live snapshots are still served after it exactly
   when that purge has seen a snapshot or no live snapshot reads from the inputs.
   */
  lemma RaceIff(s: State, id: nat)
    requires Inv(s) && s.purge.Some? && id in s.jobs && s.jobs[id].phase.Synced?
    ensures var s' := DoPurgeRemove(DoDeleteInputs(s, id), s.purge.value);
            && Leads(s, [DeleteInputs(id), PurgeRemove], s')
            && (SnapshotsServed(s') <==> !RaceOpens(s, id))
  {
    DeleteThenPurge(s, id);
    if RaceOpens(s, id) {
      RaceLoses(s, id);
    } else {
      NoRaceServes(s, id);
    }
  }

  /** There is no race when the purge has seen a snapshot, or when no live one is older than the last WAL sync. */
  lemma NoRace(s: State, id: nat)
    requires Inv(s) && id in s.jobs && s.jobs[id].phase.Synced?
    requires s.purge != Some(None) || forall q :: q in s.snaps.Values ==> s.durable <= q
    ensures !RaceOpens(s, id)
  {
    assert JobOk(s.log, s.durable, s.files, s.bits, s.bits + s.undelivered, s.loggedNext, s.nextFile, s.jobs[id]);
  }

  const RACE_REC := Rec([97], [120])
  const RACE_IX := Ix(1, 0)
  const RACE_PLAN: map<nat, Val> := map[0 := Blob(RACE_IX)]

  function RaceFile(st: FileState): map<nat, File> {
    map[1 := File([RACE_REC], st)]
  }

  /** One key, stored inline or in blob file 1. */
  function RaceStart(val: Val, durable: nat, files: map<nat, File>, next: nat, tables: map<nat, Table>): State {
    State([Entry([97], val)], [Put([97], [120])], durable, map[], files, map[], next, next, map[], tables, {}, {}, None)
  }

  const RACE_TABLE := Table(1, 2, RACE_PLAN, false)
  const RACE_1 := RaceStart(Inline([120]), 0, map[], 1, map[])
  const RACE_2 := RaceStart(Inline([120]), 0, RaceFile(PendingLSM), 2, map[0 := RACE_TABLE])
  const RACE_3 := RaceStart(Blob(RACE_IX), 1, RaceFile(PendingLSM), 2, map[0 := RACE_TABLE.(installed := true)])
  const RACE_4 := RaceStart(Blob(RACE_IX), 1, RaceFile(Normal), 2, map[])
  /** A purge has read that there is no snapshot; then a snapshot is taken and the key is deleted. */
  const RACE_5 := RACE_4.(purge := Some(None))
  const RACE_6 := RACE_5.(snaps := map[7 := 1])
  const RACE_7 := RACE_6.(log := [Entry([97], Blob(RACE_IX)), Entry([97], Tomb)], spec := [Put([97], [120]), Del([97])])

  function RaceJob(scanned: nat, phase: Phase): Job {
    Job({1}, false, false, {}, [RACE_IX], scanned, if scanned == 0 then [] else [97], false, None, [], [], 0, phase)
  }

  /** A GC job over file 1 finds nothing to keep and marks the file obsolete. */
  const RACE_8 := RACE_7.(files := RaceFile(BeingGC), jobs := map[0 := RaceJob(0, Scanning)])
  const RACE_9 := RACE_8.(jobs := map[0 := RaceJob(1, Scanning)])
  const RACE_10 := RACE_9.(jobs := map[0 := RaceJob(1, Rewriting)])
  const RACE_11 := RACE_10.(jobs := map[0 := RaceJob(1, Rewritten(2))])
  const RACE_12 := RACE_11.(durable := 2, jobs := map[0 := RaceJob(1, Synced(2))])
  const RACE_13 := RACE_12.(files := RaceFile(Obsolete), obsolete := map[1 := 2], jobs := map[0 := RaceJob(1, Deleted)])
  const RACE_14 := RACE_13.(files := map[], obsolete := map[], purge := None)

  lemma RaceSteps1()
    ensures Steps(INIT, UserPut([97], [120]), RACE_1)
    ensures Steps(RACE_1, TableOutput(0, [[RACE_REC]], RACE_PLAN), RACE_2)
  {
    assert DoTableOutput(RACE_1, 0, [[RACE_REC]], RACE_PLAN).files == RaceFile(PendingLSM);
  }

  lemma RaceSteps2()
    ensures Steps(RACE_2, TableInstall(0, 1), RACE_3)
  {
    assert Replace(RACE_2.log, RACE_PLAN) == RACE_3.log;
    assert Removed(RACE_2.log, RACE_PLAN.Keys) == {};
  }

  lemma RaceSteps3()
    ensures Steps(RACE_3, TableCompleted(0), RACE_4)
    ensures Steps(RACE_4, PurgeBegin, RACE_5)
  {
    assert Settle(RACE_3.files, 1, 2) == RaceFile(Normal);
    assert RACE_3.tables - {0} == map[];
  }

  lemma RaceSteps4()
    ensures Steps(RACE_5, TakeSnapshot(7), RACE_6)
    ensures Steps(RACE_6, UserDelete([97]), RACE_7)
  {
  }

  lemma RacePick()
    ensures Steps(RACE_7, Pick(0, {1}, [RACE_IX], false, false), RACE_8)
  {
    assert RACE_IX in [RACE_IX];
    assert SetStates(RACE_7.files, {1}, BeingGC) == RaceFile(BeingGC);
  }

  lemma RaceScan()
    ensures Steps(RACE_8, Scan(0), RACE_9)
    ensures Steps(RACE_9, Install(0), RACE_10)
  {
    assert Look(RACE_8.log, 2, [97]) == Tomb;
  }

  lemma RaceSteps5()
    ensures Steps(RACE_10, RewriteDone(0), RACE_11)
    ensures Steps(RACE_11, JobSync(0), RACE_12)
  {
  }

  lemma RaceSteps6()
    ensures Steps(RACE_12, DeleteInputs(0), RACE_13)
  {
    assert SetStates(RACE_12.files, {1}, Obsolete) == RaceFile(Obsolete);
  }

  lemma RaceSteps7()
    ensures Steps(RACE_13, PurgeRemove, RACE_14)
  {
    assert Purged(RACE_13, None) == {1};
    assert RACE_13.files - {1} == map[];
    assert RACE_13.obsolete - {1} == map[];
  }

  lemma RaceEnds() returns (es: seq<Event>)
    ensures Leads(RACE_7, es, RACE_14)
  {
    RacePick(); RaceScan(); RaceSteps5(); RaceSteps6(); RaceSteps7();
    es := [];
    LeadsBack(RACE_13, PurgeRemove, RACE_14, es, RACE_14); es := [PurgeRemove] + es;
    LeadsBack(RACE_12, DeleteInputs(0), RACE_13, es, RACE_14); es := [DeleteInputs(0)] + es;
    LeadsBack(RACE_11, JobSync(0), RACE_12, es, RACE_14); es := [JobSync(0)] + es;
    LeadsBack(RACE_10, RewriteDone(0), RACE_11, es, RACE_14); es := [RewriteDone(0)] + es;
    LeadsBack(RACE_9, Install(0), RACE_10, es, RACE_14); es := [Install(0)] + es;
    LeadsBack(RACE_8, Scan(0), RACE_9, es, RACE_14); es := [Scan(0)] + es;
    LeadsBack(RACE_7, Pick(0, {1}, [RACE_IX], false, false), RACE_8, es, RACE_14);
    es := [Pick(0, {1}, [RACE_IX], false, false)] + es;
  }

  /**
   The race does happen: a run from the empty database in which a file that becomes obsolete
   after the purge read the snapshot list is removed although a snapshot still needs it.
   */
  lemma PurgeRaceLosesData() returns (es: seq<Event>)
    ensures Leads(INIT, es, RACE_14)
    ensures RACE_14.snaps == map[7 := 1]
    ensures Read(RACE_14.log, RACE_14.files, 1, [97]) == Corruption
    ensures SpecRead(RACE_14.spec, 1, [97]) == Found([120])
  {
    RaceSteps1(); RaceSteps2(); RaceSteps3(); RaceSteps4();
    es := RaceEnds();
    LeadsBack(RACE_6, UserDelete([97]), RACE_7, es, RACE_14); es := [UserDelete([97])] + es;
    LeadsBack(RACE_5, TakeSnapshot(7), RACE_6, es, RACE_14); es := [TakeSnapshot(7)] + es;
    LeadsBack(RACE_4, PurgeBegin, RACE_5, es, RACE_14); es := [PurgeBegin] + es;
    LeadsBack(RACE_3, TableCompleted(0), RACE_4, es, RACE_14); es := [TableCompleted(0)] + es;
    LeadsBack(RACE_2, TableInstall(0, 1), RACE_3, es, RACE_14); es := [TableInstall(0, 1)] + es;
    LeadsBack(RACE_1, TableOutput(0, [[RACE_REC]], RACE_PLAN), RACE_2, es, RACE_14);
    es := [TableOutput(0, [[RACE_REC]], RACE_PLAN)] + es;
    LeadsBack(INIT, UserPut([97], [120]), RACE_1, es, RACE_14);
    es := [UserPut([97], [120])] + es;
  }
}
