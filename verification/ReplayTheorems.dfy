/** Recovery rebuilds what the live file set holds. */
module ReplayTheorems {
  import opened Types
  import opened Storage
  import opened Edits
  import opened Manifest
  import opened Replay

  /** Every deletion in the manifest has its addition, and the rest is live. */
  predicate Balanced(files: Files, adds: map<nat, Meta>, dels: map<nat, nat>) {
    dels.Keys <= adds.Keys && LiveMetas(files) == adds - dels.Keys
  }

  predicate CfInv(files: Files, added: seq<Meta>, deleted: seq<Gone>) {
    DelsFit({}, deleted) && Balanced(files, Adds(added), Dels(deleted))
  }

  predicate CounterInv(manifest: seq<Edit>, next: nat, used: set<nat>) {
    && Rising(manifest)
    && LastNext(manifest).Some?
    && LastNext(manifest).value <= next
    && (forall n :: n in used ==> n < LastNext(manifest).value)
  }

  predicate AddsInvAt(manifest: seq<Edit>, used: set<nat>, cf: nat) {
    AddsFit({}, AddsOf(manifest, cf)) && Adds(AddsOf(manifest, cf)).Keys <= used
  }

  ghost predicate AddsInv(manifest: seq<Edit>, used: set<nat>) {
    forall cf :: AddsInvAt(manifest, used, cf)
  }

  predicate ViewInvAt(view: View, manifest: seq<Edit>, c: nat) {
    c in view ==> CfInv(view[c], AddsOf(manifest, c), DelsOf(manifest, c))
  }

  ghost predicate ViewInv(view: View, manifest: seq<Edit>) {
    forall c :: ViewInvAt(view, manifest, c)
  }

  ghost predicate Inv(s: State) {
    && CounterInv(s.manifest, s.next, s.used)
    && AddsInv(s.manifest, s.used)
    && ViewInv(s.view, s.manifest)
  }

  // ---- snapshots

  lemma {:induction false} SnapshotAdds(es: seq<Edit>, n: nat, i: nat, cf: nat)
    requires 1 <= n <= |es| && es[0].added == []
    requires forall j :: 1 <= j < |es| ==> (es[j].cf == cf <==> j == i)
    ensures AddsOf(es[..n], cf) == if 1 <= i < n then es[i].added else []
  {
    var prev, e := es[..n - 1], es[n - 1];
    AddsOneMore(prev, e, cf);
    assert es[..n] == prev + [e];
    if n > 1 {
      SnapshotAdds(es, n - 1, i, cf);
    }
  }

  lemma {:induction false} SnapshotDels(view: View, next: nat, es: seq<Edit>, n: nat, cf: nat)
    requires IsSnapshot(view, next, es) && 1 <= n <= |es|
    ensures DelsOf(es[..n], cf) == []
  {
    var prev, e := es[..n - 1], es[n - 1];
    DelsOneMore(prev, e, cf);
    assert es[..n] == prev + [e];
    if n > 1 {
      SnapshotDels(view, next, es, n - 1, cf);
      assert SaysLive(view, e);
    }
  }

  lemma {:induction false} SnapshotCounter(view: View, next: nat, es: seq<Edit>, n: nat)
    requires IsSnapshot(view, next, es) && 1 <= n <= |es|
    ensures LastNext(es[..n]) == Some(next) && Rising(es[..n])
  {
    var prev, e := es[..n - 1], es[n - 1];
    CounterOneMore(prev, e);
    assert es[..n] == prev + [e];
    if n > 1 {
      SnapshotCounter(view, next, es, n - 1);
      assert SaysLive(view, e);
    }
  }

  /** A snapshot says exactly what is live. */
  lemma SnapshotSays(view: View, next: nat, es: seq<Edit>, cf: nat)
    requires IsSnapshot(view, next, es)
    ensures LastNext(es) == Some(next) && Rising(es)
    ensures DelsOf(es, cf) == []
    ensures AddsFit({}, AddsOf(es, cf))
    ensures Adds(AddsOf(es, cf)) == if cf in view then LiveMetas(view[cf]) else map[]
  {
    assert es[..|es|] == es;
    SnapshotCounter(view, next, es, |es|);
    SnapshotDels(view, next, es, |es|, cf);
    if cf in view {
      SnapshotLists(view, next, es, cf);
    } else {
      forall j | 1 <= j < |es|
        ensures es[j].cf != cf
      {
        assert SaysLive(view, es[j]);
      }
      SnapshotAdds(es, |es|, 0, cf);
    }
  }

  lemma SnapshotLists(view: View, next: nat, es: seq<Edit>, cf: nat)
    requires IsSnapshot(view, next, es) && cf in view
    ensures ListsLive(view[cf], AddsOf(es, cf))
  {
    assert es[..|es|] == es;
    assert HasRecord(es, cf);
    var i :| 1 <= i < |es| && es[i].cf == cf;
    SnapshotAdds(es, |es|, i, cf);
    assert SaysLive(view, es[i]);
  }

  lemma SnapshotInvAt(view: View, next: nat, es: seq<Edit>, used: set<nat>, cf: nat)
    requires IsSnapshot(view, next, es)
    requires cf in view ==> LiveMetas(view[cf]).Keys <= used
    ensures AddsInvAt(es, used, cf) && ViewInvAt(view, es, cf)
  {
    SnapshotSays(view, next, es, cf);
    if cf in view {
      assert Balanced(view[cf], LiveMetas(view[cf]), map[]);
    }
  }

  lemma SnapshotInv(view: View, next: nat, es: seq<Edit>, used: set<nat>)
    requires IsSnapshot(view, next, es)
    requires forall n :: n in used ==> n < next
    requires forall c :: c in view ==> LiveMetas(view[c]).Keys <= used
    ensures Inv(State(view, next, es, used))
  {
    assert CounterInv(es, next, used) by {
      SnapshotSays(view, next, es, 0);
    }
    forall cf
      ensures AddsInvAt(es, used, cf) && ViewInvAt(view, es, cf)
    {
      SnapshotInvAt(view, next, es, used, cf);
    }
  }

  lemma InitInv(s: State)
    requires Initial(s)
    ensures Inv(s)
  {
    SnapshotInv(s.view, s.next, s.manifest, s.used);
  }

  // ---- logging an edit

  lemma LiveAfter(files: Files, c: CfEdits, n: nat)
    requires Fits(files, c)
    ensures var after := Applied(files, c);
            && (Live(after, n) <==> (Live(files, n) || n in c.added) && n !in c.deleted)
            && (Live(after, n) ==> after[n].meta == if n in c.added then c.added[n] else files[n].meta)
  {
  }

  lemma BalancedAfter(files: Files, adds: map<nat, Meta>, dels: map<nat, nat>, c: CfEdits)
    requires Balanced(files, adds, dels) && Fits(files, c) && adds.Keys !! c.added.Keys
    ensures Balanced(Applied(files, c), adds + c.added, dels + c.deleted)
  {
    var after := LiveMetas(Applied(files, c));
    var expected := (adds + c.added) - (dels + c.deleted).Keys;
    forall n: nat
      ensures n in after <==> n in expected
      ensures n in after && n in expected ==> after[n] == expected[n]
    {
      LiveAfter(files, c, n);
      assert Live(files, n) <==> n in adds - dels.Keys;
      assert Live(files, n) ==> LiveMetas(files)[n] == adds[n];
    }
    forall n | n in c.deleted
      ensures n in adds + c.added
    {
      assert n !in c.added ==> n in LiveMetas(files);
    }
  }

  lemma DeletedOnce(files: Files, adds: map<nat, Meta>, dels: map<nat, nat>, c: CfEdits)
    requires Balanced(files, adds, dels) && Fits(files, c) && adds.Keys !! c.added.Keys
    ensures dels.Keys !! c.deleted.Keys
  {
    forall n | n in c.deleted && n !in c.added
      ensures n in LiveMetas(files)
    {
    }
  }

  lemma MergedAlone(e: Edit)
    ensures Merged(NO_EDITS, e) == CfEdits(Adds(e.added), Dels(e.deleted))
  {
  }

  lemma LogCf(files: Files, added: seq<Meta>, deleted: seq<Gone>, e: Edit, used: set<nat>)
    requires CfInv(files, added, deleted) && Adds(added).Keys <= used
    requires DelsFit({}, e.deleted) && Fits(files, Merged(NO_EDITS, e))
    requires Adds(e.added).Keys !! used
    ensures CfInv(Applied(files, Merged(NO_EDITS, e)), added + e.added, deleted + e.deleted)
  {
    AddsConcat(added, e.added);
    DelsConcat(deleted, e.deleted);
    MergedAlone(e);
    var c := CfEdits(Adds(e.added), Dels(e.deleted));
    DeletedOnce(files, Adds(added), Dels(deleted), c);
    DelsApart(Dels(deleted).Keys, e.deleted);
    BalancedAfter(files, Adds(added), Dels(deleted), c);
  }

  lemma LogKeepsInv(s: State, e: Edit)
    requires Inv(s) && Enabled(s, Log(e))
    ensures Inv(Apply(s, Log(e)))
  {
    var r := e.(next := Some(s.next));
    if Accepts(s.view, r) {
      var s' := Apply(s, Log(e));
      forall n | n in Adds(e.added)
        ensures n < s.next && n !in s.used
      {
        AddsNumbers(e.added, n);
      }
      forall cf
        ensures AddsInvAt(s'.manifest, s'.used, cf) && ViewInvAt(s'.view, s'.manifest, cf)
      {
        assert AddsInvAt(s.manifest, s.used, cf) && ViewInvAt(s.view, s.manifest, cf);
        LogAt(s, r, cf);
      }
      OneMore(s.manifest, r, 0);
    }
  }

  lemma LogAt(s: State, r: Edit, cf: nat)
    requires AddsInvAt(s.manifest, s.used, cf) && ViewInvAt(s.view, s.manifest, cf)
    requires Accepts(s.view, r) && Adds(r.added).Keys !! s.used
    ensures AddsInvAt(s.manifest + [r], s.used + Adds(r.added).Keys, cf)
    ensures ViewInvAt(AppliedOne(s.view, r), s.manifest + [r], cf)
  {
    OneMore(s.manifest, r, cf);
    if cf == r.cf {
      AddsConcat(AddsOf(s.manifest, cf), r.added);
      AddsApart(Adds(AddsOf(s.manifest, cf)).Keys, r.added);
      if cf in s.view {
        LogCf(s.view[cf], AddsOf(s.manifest, cf), DelsOf(s.manifest, cf), r, s.used);
      }
    } else {
      assert AddsOf(s.manifest + [r], cf) == AddsOf(s.manifest, cf);
      assert DelsOf(s.manifest + [r], cf) == DelsOf(s.manifest, cf);
    }
  }

  // ---- recovery

  /** Edits for column families that are not open are never matched against files. */
  ghost predicate StrayDeletesDistinct(s: State) {
    forall cf :: cf !in s.view ==> DelsFit({}, DelsOf(s.manifest, cf))
  }

  /** Replay through one collector gives a column family exactly its live files, all below the counter. */
  predicate RestoredAt(view: View, manifest: seq<Edit>, c: nat)
    requires Recovers(view, manifest) && c in view
  {
    && Restored(view, manifest)[c] == Slots(LiveMetas(view[c]))
    && (forall n :: n in view[c] && !view[c][n].obsolete ==> n < Collect(manifest).value.next.value)
  }

  ghost predicate RestoresLive(view: View, manifest: seq<Edit>)
    requires Recovers(view, manifest)
  {
    && Restored(view, manifest).Keys == view.Keys
    && forall c :: c in view ==> RestoredAt(view, manifest, c)
  }

  /** What one column family's batch makes of an empty storage. */
  lemma RestoreCf(files: Files, adds: map<nat, Meta>, dels: map<nat, nat>)
    requires Balanced(files, adds, dels)
    ensures var c := CfEdits(adds, dels);
            Fits(map[], c) && Applied(map[], c) == Slots(LiveMetas(files))
  {
  }

  lemma CollectedFits(s: State, cf: nat)
    requires Inv(s) && Collect(s.manifest).Some? && cf in s.view
    ensures var c := Of(Collect(s.manifest).value.cfs, cf);
            Fits(map[], c) && Applied(map[], c) == Slots(LiveMetas(s.view[cf]))
  {
    CollectIff(s.manifest);
    assert HoldsAt(Collect(s.manifest).value.cfs, s.manifest, cf) && ViewInvAt(s.view, s.manifest, cf);
    RestoreCf(s.view[cf], Adds(AddsOf(s.manifest, cf)), Dels(DelsOf(s.manifest, cf)));
  }

  /** Replay succeeds exactly when no stray deletion is repeated. */
  lemma ReplaySucceedsIff(s: State)
    requires Inv(s)
    ensures Recovers(s.view, s.manifest) <==> StrayDeletesDistinct(s)
    ensures Collect(s.manifest).Some? <==> StrayDeletesDistinct(s)
  {
    CollectIff(s.manifest);
    forall cf | cf in s.view || DelsFit({}, DelsOf(s.manifest, cf))
      ensures FitsAt(s.manifest, cf)
    {
      assert AddsInvAt(s.manifest, s.used, cf) && ViewInvAt(s.view, s.manifest, cf);
    }
    if Collect(s.manifest).Some? {
      forall cf | cf !in s.view
        ensures DelsFit({}, DelsOf(s.manifest, cf))
      {
        assert FitsAt(s.manifest, cf);
      }
      forall cf | cf in Collect(s.manifest).value.cfs && cf in s.view
        ensures Fits(EmptyView(s.view.Keys)[cf], Collect(s.manifest).value.cfs[cf])
      {
        CollectedFits(s, cf);
      }
    }
  }

  lemma LiveAreUsed(s: State, cf: nat)
    requires Inv(s) && cf in s.view
    ensures LiveMetas(s.view[cf]).Keys <= s.used
    ensures forall n :: n in s.view[cf] && !s.view[cf][n].obsolete ==> n in s.used
  {
    assert AddsInvAt(s.manifest, s.used, cf) && ViewInvAt(s.view, s.manifest, cf);
    forall n | n in s.view[cf] && !s.view[cf][n].obsolete
      ensures n in s.used
    {
      assert n in LiveMetas(s.view[cf]);
    }
  }

  /** And then it yields exactly the live files, under a counter above all of them. */
  lemma ReplayEqualsLive(s: State)
    requires Inv(s) && Recovers(s.view, s.manifest)
    ensures RestoresLive(s.view, s.manifest)
  {
    CollectIff(s.manifest);
    forall c | c in s.view
      ensures RestoredAt(s.view, s.manifest, c)
    {
      LiveAreUsed(s, c);
      RestoredIs(s, c);
    }
  }

  lemma RestoredIs(s: State, c: nat)
    requires Inv(s) && Recovers(s.view, s.manifest) && c in s.view
    ensures Restored(s.view, s.manifest)[c] == Slots(LiveMetas(s.view[c]))
  {
    CollectedFits(s, c);
    var batch := Collect(s.manifest).value.cfs;
    if c !in batch {
      assert Applied(map[], NO_EDITS) == map[];
    }
  }

  lemma SlotsLive(metas: map<nat, Meta>)
    ensures LiveMetas(Slots(metas)) == metas
  {
  }

  lemma ReopenKeepsInv(s: State, snapshot: seq<Edit>)
    requires Inv(s) && Enabled(s, Reopen(snapshot))
    ensures Inv(Apply(s, Reopen(snapshot)))
  {
    CollectIff(s.manifest);
    var view := Restored(s.view, s.manifest);
    forall c | c in view
      ensures LiveMetas(view[c]).Keys <= s.used
    {
      LiveAreUsed(s, c);
      RestoredIs(s, c);
      SlotsLive(LiveMetas(s.view[c]));
    }
    SnapshotInv(view, Collect(s.manifest).value.next.value + 1, snapshot, s.used);
  }

  lemma PurgeKeepsInv(s: State, cf: nat, gone: set<nat>)
    requires Inv(s) && Enabled(s, Purge(cf, gone))
    ensures Inv(Apply(s, Purge(cf, gone)))
  {
    var s' := Apply(s, Purge(cf, gone));
    assert LiveMetas(s'.view[cf]) == LiveMetas(s.view[cf]);
    forall c
      ensures ViewInvAt(s'.view, s.manifest, c)
    {
      assert ViewInvAt(s.view, s.manifest, c);
    }
  }

  // ---- the theorem

  lemma {:induction false} RunKeepsInv(s: State, evs: seq<Event>)
    requires Inv(s) && ValidRun(s, evs)
    ensures Inv(Run(s, evs))
    decreases |evs|
  {
    if evs != [] {
      match evs[0] {
        case Allocate =>
        case Log(e) => LogKeepsInv(s, e);
        case Purge(cf, gone) => PurgeKeepsInv(s, cf, gone);
        case Reopen(snapshot) => ReopenKeepsInv(s, snapshot);
      }
      RunKeepsInv(Apply(s, evs[0]), evs[1..]);
    }
  }

  /**
   After any run of a new database, recovery succeeds if and only if no column family that is
   not open has the same number deleted twice; recovery then gives exactly the live files of
   every column family and a next file number above all of them.
   */
  lemma ManifestReplay(init: State, evs: seq<Event>)
    requires Initial(init) && ValidRun(init, evs)
    ensures var s := Run(init, evs);
            && (Recovers(s.view, s.manifest) <==> StrayDeletesDistinct(s))
            && (Recovers(s.view, s.manifest) ==> RestoresLive(s.view, s.manifest))
  {
    InitInv(init);
    RunKeepsInv(init, evs);
    var s := Run(init, evs);
    ReplaySucceedsIff(s);
    if Recovers(s.view, s.manifest) {
      ReplayEqualsLive(s);
    }
  }

  /**
   LogAndApply accepts the deletion of a file of a column family that is not open as often as it
   is given, but a manifest that holds it twice does not replay, whatever else it holds.
   */
  lemma StrayDeletesFail(s: State, cf: nat, n: nat)
    requires Inv(s) && cf !in s.view
    ensures var e := Log(Edit(None, cf, [], [Gone(n, 0)]));
            && Enabled(s, e) && Enabled(Apply(s, e), e)
            && var s2 := Apply(Apply(s, e), e);
               |s2.manifest| == |s.manifest| + 2 && !Recovers(s2.view, s2.manifest)
  {
    var e := Edit(None, cf, [], [Gone(n, 0)]);
    var s1 := StrayStep(s, cf, n);
    var s2 := StrayStep(s1, cf, n);
    LogKeepsInv(s, e);
    LogKeepsInv(s1, e);
    TwiceDoesNotFit(DelsOf(s.manifest, cf), n);
    assert !DelsFit({}, DelsOf(s2.manifest, cf));
    ReplaySucceedsIff(s2);
  }

  /** A new database with the default column family, and two accepted edits whose manifest cannot be replayed. */
  lemma StrayDeleteBreaksReplay()
    ensures exists init, evs ::
              && Initial(init) && 0 in init.view && ValidRun(init, evs)
              && !Recovers(Run(init, evs).view, Run(init, evs).manifest)
  {
    var s := State(map[0 := map[]], 2, [Edit(Some(2), 0, [], []), Edit(None, 0, [], [])], {});
    var e := Log(Edit(None, 7, [], [Gone(5, 0)]));
    assert SaysLive(s.view, s.manifest[1]) && HasRecord(s.manifest, 0);
    assert Initial(s);
    InitInv(s);
    StrayDeletesFail(s, 7, 5);
    RunTwo(s, e, e);
  }

  lemma RunTwo(s: State, a: Event, b: Event)
    requires Enabled(s, a) && Enabled(Apply(s, a), b)
    ensures ValidRun(s, [a, b]) && Run(s, [a, b]) == Apply(Apply(s, a), b)
  {
    assert [a, b][1..] == [b] && [b][1..] == [];
    var s1 := Apply(s, a);
    assert ValidRun(Apply(s1, b), []) && Run(Apply(s1, b), []) == Apply(s1, b);
    assert ValidRun(s1, [b]) && Run(s1, [b]) == Apply(s1, b);
  }

  lemma StrayStep(s: State, cf: nat, n: nat) returns (s': State)
    requires cf !in s.view
    ensures Enabled(s, Log(Edit(None, cf, [], [Gone(n, 0)])))
    ensures s' == Apply(s, Log(Edit(None, cf, [], [Gone(n, 0)]))) && s'.view == s.view
    ensures |s'.manifest| == |s.manifest| + 1
    ensures DelsOf(s'.manifest, cf) == DelsOf(s.manifest, cf) + [Gone(n, 0)]
  {
    var e := Edit(None, cf, [], [Gone(n, 0)]);
    s' := Apply(s, Log(e));
    assert e.deleted[..0] == [];
    assert Accepts(s.view, e.(next := Some(s.next)));
    DelsOneMore(s.manifest, e.(next := Some(s.next)), cf);
  }

  lemma TwiceDoesNotFit(d: seq<Gone>, n: nat)
    ensures !DelsFit({}, d + [Gone(n, 0)] + [Gone(n, 0)])
  {
    var once := d + [Gone(n, 0)];
    assert (once + [Gone(n, 0)])[..|once|] == once && once[..|d|] == d;
  }
}
