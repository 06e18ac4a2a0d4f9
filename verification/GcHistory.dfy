/** What a run of the GC protocol remembers: snapshots read their own time, and synced writes survive. */
module GcHistory {
  import opened Types
  import opened Lsm
  import opened GcProtocol
  import opened GcInvariant
  import opened GcTheorems

  // ---- runs put end to end

  lemma {:induction false} RunJoins(s: State, a: seq<Event>, b: seq<Event>, locked: bool)
    requires ValidRun(s, a, locked)
    ensures ValidRun(s, a + b, locked) <==> ValidRun(Run(s, a, locked), b, locked)
    ensures ValidRun(s, a + b, locked) ==> Run(s, a + b, locked) == Run(Run(s, a, locked), b, locked)
    decreases |a|
  {
    if a == [] {
      assert a + b == b;
    } else {
      assert (a + b)[1..] == a[1..] + b;
      RunJoins(Apply(s, a[0]), a[1..], b, locked);
    }
  }

  lemma {:induction false} RunSplits(s: State, a: seq<Event>, b: seq<Event>, locked: bool)
    requires ValidRun(s, a + b, locked)
    ensures ValidRun(s, a, locked)
    decreases |a|
  {
    if a != [] {
      assert (a + b)[1..] == a[1..] + b;
      RunSplits(Apply(s, a[0]), a[1..], b, locked);
    }
  }

  // ---- steps without a crash

  /** The specification only grows. */
  lemma SpecGrows(s: State, e: Event)
    requires Enabled(s, e, true) && !e.Crash?
    ensures s.spec <= Apply(s, e).spec
  {
    if !e.UserPut? && !e.UserDelete? {
      SpecUntouched(s, e);
    }
  }

  /** Only its own events touch a snapshot. */
  lemma SnapshotStays(s: State, e: Event, id: nat)
    requires Enabled(s, e, true) && !e.Crash? && id in s.snaps && e != ReleaseSnapshot(id)
    ensures id in Apply(s, e).snaps && Apply(s, e).snaps[id] == s.snaps[id]
  {
    if IsUserEvent(e) {
      UserSnapshotStays(s, e, id);
    } else if IsTableEvent(e) {
      TableSnapshotStays(s, e);
    } else if IsScanEvent(e) {
      ScanSnapshotStays(s, e);
    } else {
      FinishSnapshotStays(s, e);
    }
  }

  lemma UserSnapshotStays(s: State, e: Event, id: nat)
    requires Enabled(s, e, true) && IsUserEvent(e) && !e.Crash? && id in s.snaps && e != ReleaseSnapshot(id)
    ensures id in Apply(s, e).snaps && Apply(s, e).snaps[id] == s.snaps[id]
  {
  }

  lemma TableSnapshotStays(s: State, e: Event)
    requires Enabled(s, e, true) && IsTableEvent(e)
    ensures Apply(s, e).snaps == s.snaps
  {
  }

  lemma ScanStays(s: State, id: nat)
    requires Enabled(s, Scan(id), true)
    ensures Apply(s, Scan(id)).snaps == s.snaps
  {
  }

  lemma RewriteStays(s: State, id: nat)
    requires Enabled(s, RewriteNext(id), true)
    ensures Apply(s, RewriteNext(id)).snaps == s.snaps
  {
  }

  lemma ScanSnapshotStays(s: State, e: Event)
    requires Enabled(s, e, true) && IsScanEvent(e)
    ensures Apply(s, e).snaps == s.snaps
  {
    match e
    case Scan(id) => ScanStays(s, id);
    case RewriteNext(id) => RewriteStays(s, id);
    case _ =>
  }

  lemma FinishSnapshotStays(s: State, e: Event)
    requires Enabled(s, e, true) && (IsFinishEvent(e) || e.PurgeBegin? || e.PurgeRemove?)
    ensures Apply(s, e).snaps == s.snaps
  {
  }

  /** What is synced stays synced. */
  lemma DurableStays(s: State, e: Event)
    requires Inv(s) && Enabled(s, e, true) && !e.Crash?
    ensures s.durable <= Apply(s, e).durable
  {
    if IsScanEvent(e) {
      ScanDurableStays(s, e);
    } else if IsTableEvent(e) {
      TableDurableStays(s, e);
    }
  }

  lemma ScanDurableStays(s: State, e: Event)
    requires Enabled(s, e, true) && IsScanEvent(e)
    ensures Apply(s, e).durable == s.durable
  {
  }

  lemma TableDurableStays(s: State, e: Event)
    requires Enabled(s, e, true) && IsTableEvent(e)
    ensures s.durable <= Apply(s, e).durable
  {
  }

  predicate NoCrash(es: seq<Event>) {
    forall i :: 0 <= i < |es| ==> !es[i].Crash?
  }

  predicate Without(es: seq<Event>, e: Event) {
    forall i :: 0 <= i < |es| ==> es[i] != e
  }

  lemma {:induction false} RunRemembers(s: State, es: seq<Event>, id: nat)
    requires ValidRun(s, es, true) && NoCrash(es) && Without(es, ReleaseSnapshot(id)) && id in s.snaps
    ensures var s' := Run(s, es, true); s.spec <= s'.spec && id in s'.snaps && s'.snaps[id] == s.snaps[id]
    decreases |es|
  {
    if es != [] {
      SpecGrows(s, es[0]);
      SnapshotStays(s, es[0], id);
      RunRemembers(Apply(s, es[0]), es[1..], id);
    }
  }

  lemma {:induction false} RunStaysDurable(s: State, es: seq<Event>)
    requires Inv(s) && ValidRun(s, es, true) && NoCrash(es)
    ensures s.durable <= Run(s, es, true).durable
    decreases |es|
  {
    if es != [] {
      DurableStays(s, es[0]);
      StepKeepsInv(s, es[0]);
      RunStaysDurable(Apply(s, es[0]), es[1..]);
    }
  }

  // ---- snapshots

  lemma TakenNow(s: State, id: nat)
    requires Enabled(s, TakeSnapshot(id), true)
    ensures var s' := Apply(s, TakeSnapshot(id));
            id in s'.snaps && s'.snaps[id] == |s.log| && s'.spec == s.spec
  {
  }

  lemma ReadsOldSpec(s: State, id: nat, spec: seq<SpecOp>, k: Key)
    requires Inv(s) && id in s.snaps && s.snaps[id] == |spec| && spec <= s.spec
    ensures s.snaps[id] <= |s.log|
    ensures Read(s.log, s.files, s.snaps[id], k) == SpecRead(UserOps(spec), |UserOps(spec)|, k)
  {
    assert s.snaps[id] in s.snaps.Values;
    assert s.spec[..|spec|] == spec;
    InvReads(s, s.snaps[id], k);
    SpecReadUserOps(s.spec, |spec|, k);
  }

  /** The state after a run that takes a snapshot on its way and keeps it. */
  lemma SnapshotKept(a: seq<Event>, id: nat, b: seq<Event>)
    requires ValidRun(INIT, a + ([TakeSnapshot(id)] + b), true) && NoCrash(b) && Without(b, ReleaseSnapshot(id))
    ensures ValidRun(INIT, a, true)
    ensures var s0, s := Run(INIT, a, true), Run(INIT, a + ([TakeSnapshot(id)] + b), true);
            Inv(s) && id in s.snaps && s.snaps[id] == |s0.spec| && s0.spec <= s.spec
  {
    var rest := [TakeSnapshot(id)] + b;
    RunSplits(INIT, a, rest, true);
    RunJoins(INIT, a, rest, true);
    InitInv();
    RunKeepsInv(INIT, a);
    RunKeepsInv(INIT, a + rest);
    var s0 := Run(INIT, a, true);
    assert rest[1..] == b;
    TakenNow(s0, id);
    RunRemembers(Apply(s0, TakeSnapshot(id)), b, id);
  }

  lemma NothingBefore(a: seq<Event>)
    ensures UserOps([]) + UserTrace(a) == UserTrace(a)
  {
  }

  lemma WrittenIs(a: seq<Event>)
    requires ValidRun(INIT, a, true) && NoCrash(a)
    ensures UserOps(Run(INIT, a, true).spec) == UserTrace(a)
  {
    SpecIsUserTrace(INIT, a);
    NothingBefore(a);
  }

  /** A snapshot reads the map of the user operations that had come through when it was taken. */
  lemma SnapshotReadsSpec(a: seq<Event>, id: nat, b: seq<Event>, k: Key)
    requires ValidRun(INIT, a + ([TakeSnapshot(id)] + b), true) && NoCrash(b) && Without(b, ReleaseSnapshot(id))
    ensures ValidRun(INIT, a, true)
    ensures var s, written := Run(INIT, a + ([TakeSnapshot(id)] + b), true), UserOps(Run(INIT, a, true).spec);
            && id in s.snaps && s.snaps[id] <= |s.log|
            && Read(s.log, s.files, s.snaps[id], k) == SpecRead(written, |written|, k)
  {
    SnapshotKept(a, id, b);
    ReadsOldSpec(Run(INIT, a + ([TakeSnapshot(id)] + b), true), id, Run(INIT, a, true).spec, k);
  }

  /** Whatever happens later, a snapshot reads what the user had written when it was taken. */
  lemma SnapshotReadsItsTime(a: seq<Event>, id: nat, b: seq<Event>, k: Key)
    requires ValidRun(INIT, a + ([TakeSnapshot(id)] + b), true)
    requires NoCrash(a) && NoCrash(b) && Without(b, ReleaseSnapshot(id))
    ensures var s := Run(INIT, a + ([TakeSnapshot(id)] + b), true);
            && id in s.snaps && s.snaps[id] <= |s.log|
            && Read(s.log, s.files, s.snaps[id], k) == SpecRead(UserTrace(a), |UserTrace(a)|, k)
  {
    SnapshotReadsSpec(a, id, b, k);
    WrittenIs(a);
  }

  // ---- crashes

  /** A crash brings back the first p writes, and the recorded files that were not deleted, ready for use. */
  lemma CrashKeeps(s: State, p: nat)
    requires Inv(s) && Enabled(s, Crash(p), true)
    ensures var r := Apply(s, Crash(p));
            && r.log == s.log[..p] && r.spec == s.spec[..p] && r.durable == p
            && r.snaps == map[] && r.jobs == map[] && r.tables == map[]
            && (forall f :: f in r.files <==> f in s.files && f !in s.obsolete)
            && (forall f :: f in r.files ==> r.files[f] == File(s.files[f].recs, Normal))
  {
  }

  /** Synced writes survive: after SyncWal(n), no crash before the next one can lose any of the first n. */
  lemma SyncedSurvives(a: seq<Event>, n: nat, b: seq<Event>, p: nat)
    requires ValidRun(INIT, a + ([SyncWal(n)] + b), true) && NoCrash(b)
    requires Enabled(Run(INIT, a + ([SyncWal(n)] + b), true), Crash(p), true)
    ensures n <= p
  {
    var rest := [SyncWal(n)] + b;
    RunSplits(INIT, a, rest, true);
    RunJoins(INIT, a, rest, true);
    InitInv();
    RunKeepsInv(INIT, a);
    var s0 := Run(INIT, a, true);
    assert rest[1..] == b;
    StepKeepsInv(s0, SyncWal(n));
    RunStaysDurable(Apply(s0, SyncWal(n)), b);
  }
}
