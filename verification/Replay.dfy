/** Replaying a manifest through one collector, against applying its edits one by one. */
module Replay {
  import opened Types
  import opened Storage
  import opened Edits
  import opened Manifest

  datatype Batch = Batch(next: Option<nat>, cfs: map<nat, CfEdits>)

  /** The collector after a list of edits, or None when it rejects one of them. */
  function Collect(es: seq<Edit>): Option<Batch> {
    if es == [] then Some(Batch(None, map[]))
    else
      var prev, e := Collect(es[..|es| - 1]), es[|es| - 1];
      if prev.None? || !Takes(prev.value.cfs, prev.value.next, e) then None
      else
        Some(Batch(if e.next.Some? then e.next else prev.value.next,
                   prev.value.cfs[e.cf := Merged(Of(prev.value.cfs, e.cf), e)]))
  }

  /** All files a list of edits adds to a column family, in order. */
  function AddsOf(es: seq<Edit>, cf: nat): seq<Meta> {
    if es == [] then []
    else
      var e := es[|es| - 1];
      AddsOf(es[..|es| - 1], cf) + if e.cf == cf then e.added else []
  }

  function DelsOf(es: seq<Edit>, cf: nat): seq<Gone> {
    if es == [] then []
    else
      var e := es[|es| - 1];
      DelsOf(es[..|es| - 1], cf) + if e.cf == cf then e.deleted else []
  }

  function LastNext(es: seq<Edit>): Option<nat> {
    if es == [] then None
    else if es[|es| - 1].next.Some? then es[|es| - 1].next
    else LastNext(es[..|es| - 1])
  }

  /** The file number counter never steps back. */
  predicate Rising(es: seq<Edit>) {
    es == [] ||
    var prev, e := es[..|es| - 1], es[|es| - 1];
    Rising(prev) && (e.next.Some? && LastNext(prev).Some? ==> LastNext(prev).value <= e.next.value)
  }

  // ---- concatenation

  lemma {:induction false} AddsConcat(a: seq<Meta>, b: seq<Meta>)
    ensures Adds(a + b) == Adds(a) + Adds(b)
    ensures AddsFit({}, a + b) <==> AddsFit({}, a) && AddsFit(Adds(a).Keys, b)
  {
    if b == [] {
      assert a + b == a;
    } else {
      var b' := b[..|b| - 1];
      AddsConcat(a, b');
      assert (a + b)[..|a + b| - 1] == a + b';
    }
  }

  lemma {:induction false} DelsConcat(a: seq<Gone>, b: seq<Gone>)
    ensures Dels(a + b) == Dels(a) + Dels(b)
    ensures DelsFit({}, a + b) <==> DelsFit({}, a) && DelsFit(Dels(a).Keys, b)
  {
    if b == [] {
      assert a + b == a;
    } else {
      var b' := b[..|b| - 1];
      DelsConcat(a, b');
      assert (a + b)[..|a + b| - 1] == a + b';
    }
  }

  lemma {:induction false} AddsApart(have: set<nat>, added: seq<Meta>)
    ensures AddsFit(have, added) <==> AddsFit({}, added) && have !! Adds(added).Keys
  {
    if added != [] {
      AddsApart(have, added[..|added| - 1]);
    }
  }

  lemma {:induction false} DelsApart(have: set<nat>, deleted: seq<Gone>)
    ensures DelsFit(have, deleted) <==> DelsFit({}, deleted) && have !! Dels(deleted).Keys
  {
    if deleted != [] {
      DelsApart(have, deleted[..|deleted| - 1]);
    }
  }

  // ---- one collector for many edits

  predicate FitsAt(es: seq<Edit>, cf: nat) {
    AddsFit({}, AddsOf(es, cf)) && DelsFit({}, DelsOf(es, cf))
  }

  ghost predicate EachFits(es: seq<Edit>) {
    forall cf :: FitsAt(es, cf)
  }

  predicate HoldsAt(cfs: map<nat, CfEdits>, es: seq<Edit>, cf: nat) {
    Of(cfs, cf) == CfEdits(Adds(AddsOf(es, cf)), Dels(DelsOf(es, cf)))
  }

  ghost predicate Holds(cfs: map<nat, CfEdits>, es: seq<Edit>) {
    forall cf :: HoldsAt(cfs, es, cf)
  }

  lemma AddsOneMore(es: seq<Edit>, e: Edit, cf: nat)
    ensures AddsOf(es + [e], cf) == AddsOf(es, cf) + if e.cf == cf then e.added else []
  {
    assert (es + [e])[..|es|] == es;
  }

  lemma DelsOneMore(es: seq<Edit>, e: Edit, cf: nat)
    ensures DelsOf(es + [e], cf) == DelsOf(es, cf) + if e.cf == cf then e.deleted else []
  {
    assert (es + [e])[..|es|] == es;
  }

  lemma CounterOneMore(es: seq<Edit>, e: Edit)
    ensures LastNext(es + [e]) == if e.next.Some? then e.next else LastNext(es)
    ensures Rising(es + [e]) <==>
              Rising(es) && (e.next.Some? && LastNext(es).Some? ==> LastNext(es).value <= e.next.value)
  {
    assert (es + [e])[..|es|] == es;
  }

  lemma OneMore(es: seq<Edit>, e: Edit, cf: nat)
    ensures AddsOf(es + [e], cf) == AddsOf(es, cf) + if e.cf == cf then e.added else []
    ensures DelsOf(es + [e], cf) == DelsOf(es, cf) + if e.cf == cf then e.deleted else []
    ensures LastNext(es + [e]) == if e.next.Some? then e.next else LastNext(es)
    ensures Rising(es + [e]) <==>
              Rising(es) && (e.next.Some? && LastNext(es).Some? ==> LastNext(es).value <= e.next.value)
  {
    AddsOneMore(es, e, cf);
    DelsOneMore(es, e, cf);
    CounterOneMore(es, e);
  }

  lemma OneMoreAt(es: seq<Edit>, e: Edit, cfs: map<nat, CfEdits>, cf: nat)
    requires HoldsAt(cfs, es, cf) && FitsAt(es, cf)
    ensures FitsAt(es + [e], cf) <==>
              (cf == e.cf ==> AddsFit(Of(cfs, cf).added.Keys, e.added) && DelsFit(Of(cfs, cf).deleted.Keys, e.deleted))
    ensures HoldsAt(cfs[e.cf := Merged(Of(cfs, e.cf), e)], es + [e], cf)
  {
    OneMore(es, e, cf);
    if cf == e.cf {
      AddsConcat(AddsOf(es, cf), e.added);
      DelsConcat(DelsOf(es, cf), e.deleted);
    } else {
      assert AddsOf(es + [e], cf) == AddsOf(es, cf) && DelsOf(es + [e], cf) == DelsOf(es, cf);
    }
  }

  lemma OneMoreFits(es: seq<Edit>, e: Edit, cfs: map<nat, CfEdits>)
    requires Holds(cfs, es) && EachFits(es)
    ensures EachFits(es + [e]) <==>
              AddsFit(Of(cfs, e.cf).added.Keys, e.added) && DelsFit(Of(cfs, e.cf).deleted.Keys, e.deleted)
    ensures Holds(cfs[e.cf := Merged(Of(cfs, e.cf), e)], es + [e])
  {
    var cfs' := cfs[e.cf := Merged(Of(cfs, e.cf), e)];
    forall cf
      ensures FitsAt(es + [e], cf) <==>
                (cf == e.cf ==> AddsFit(Of(cfs, cf).added.Keys, e.added) && DelsFit(Of(cfs, cf).deleted.Keys, e.deleted))
    {
      OneMoreAt(es, e, cfs, cf);
    }
    forall cf
      ensures HoldsAt(cfs', es + [e], cf)
    {
      OneMoreAt(es, e, cfs, cf);
    }
  }

  lemma FitsBefore(es: seq<Edit>, e: Edit)
    requires EachFits(es + [e])
    ensures EachFits(es)
  {
    forall cf
      ensures FitsAt(es, cf)
    {
      assert FitsAt(es + [e], cf);
      OneMore(es, e, cf);
      AddsConcat(AddsOf(es, cf), if e.cf == cf then e.added else []);
      DelsConcat(DelsOf(es, cf), if e.cf == cf then e.deleted else []);
    }
  }

  /**
   A batch is accepted exactly when the counter rises and, per column family, the edits put
   end to end never add or delete a number twice; it then holds those edits put end to end.
   */
  lemma {:induction false} CollectIff(es: seq<Edit>)
    ensures Collect(es).Some? <==> Rising(es) && EachFits(es)
    ensures Collect(es).Some? ==> Collect(es).value.next == LastNext(es) && Holds(Collect(es).value.cfs, es)
  {
    if es == [] {
      assert EachFits(es) && Holds(map[], es);
    } else {
      var prev, e := es[..|es| - 1], es[|es| - 1];
      assert es == prev + [e];
      CollectIff(prev);
      OneMore(prev, e, e.cf);
      if Collect(prev).Some? {
        OneMoreFits(prev, e, Collect(prev).value.cfs);
      } else if EachFits(es) {
        FitsBefore(prev, e);
      }
    }
  }

  // ---- recovery and snapshots

  function LiveMetas(files: Files): map<nat, Meta> {
    map n | n in files && !files[n].obsolete :: files[n].meta
  }

  function Slots(metas: map<nat, Meta>): Files {
    map n | n in metas :: Slot(metas[n], false)
  }

  predicate ListsLive(files: Files, added: seq<Meta>) {
    AddsFit({}, added) && Adds(added) == LiveMetas(files)
  }

  /** A column family's record in a snapshot. */
  predicate SaysLive(view: View, e: Edit) {
    e.next == None && e.deleted == [] && e.cf in view && ListsLive(view[e.cf], e.added)
  }

  predicate HasRecord(es: seq<Edit>, cf: nat) {
    exists i :: 1 <= i < |es| && es[i].cf == cf
  }

  /** First the counter, then one record per column family, in any order. */
  predicate IsSnapshot(view: View, next: nat, es: seq<Edit>) {
    && |es| > 0 && es[0] == Edit(Some(next), 0, [], [])
    && (forall i :: 1 <= i < |es| ==> SaysLive(view, es[i]))
    && (forall i, j :: 1 <= i < j < |es| ==> es[i].cf != es[j].cf)
    && (forall c :: c in view ==> HasRecord(es, c))
  }

  function EmptyView(cfs: set<nat>): View {
    map c | c in cfs :: map[]
  }

  predicate ListsOutside(files: Files, rest: set<nat>, added: seq<Meta>) {
    AddsFit({}, added) && Adds(added) == LiveMetas(files - rest)
  }

  lemma ListStep(files: Files, rest: set<nat>, added: seq<Meta>, n: nat)
    requires Named(files) && n in files && n in rest && ListsOutside(files, rest, added)
    ensures ListsOutside(files, rest - {n}, if files[n].obsolete then added else added + [files[n].meta])
  {
    var longer := added + [files[n].meta];
    assert longer[..|added|] == added;
    assert files[n].obsolete ==> LiveMetas(files - (rest - {n})) == LiveMetas(files - rest);
    assert !files[n].obsolete ==> LiveMetas(files - (rest - {n})) == LiveMetas(files - rest)[n := files[n].meta];
  }

  method ListFiles(files: Files) returns (added: seq<Meta>)
    requires Named(files)
    ensures ListsLive(files, added)
  {
    added := [];
    var rest := files.Keys;
    while rest != {}
      invariant rest <= files.Keys && ListsOutside(files, rest, added)
      decreases |rest|
    {
      var number :| number in rest;
      ListStep(files, rest, added, number);
      if !files[number].obsolete {
        added := added + [files[number].meta];
      }
      rest := rest - {number};
    }
    assert files - {} == files;
  }

  method WriteSnapshot(storages: Storages, next: nat) returns (es: seq<Edit>)
    requires forall s :: s in storages.Values ==> Named(s.files)
    ensures IsSnapshot(ViewOf(storages), next, es)
  {
    es := [Edit(Some(next), 0, [], [])];
    var rest := storages.Keys;
    while rest != {}
      invariant rest <= storages.Keys && SnapshotBut(ViewOf(storages), next, rest, es)
      decreases |rest|
    {
      var c :| c in rest;
      var added := ListFiles(storages[c].files);
      SnapshotMore(ViewOf(storages), next, rest, es, Edit(None, c, added, []));
      es := es + [Edit(None, c, added, [])];
      rest := rest - {c};
    }
  }

  /** A snapshot that still lacks the column families in `rest`. */
  predicate SnapshotBut(view: View, next: nat, rest: set<nat>, es: seq<Edit>) {
    && |es| > 0 && es[0] == Edit(Some(next), 0, [], [])
    && (forall i :: 1 <= i < |es| ==> SaysLive(view, es[i]) && es[i].cf !in rest)
    && (forall i, j :: 1 <= i < j < |es| ==> es[i].cf != es[j].cf)
    && (forall c :: c in view && c !in rest ==> HasRecord(es, c))
  }

  lemma SnapshotMore(view: View, next: nat, rest: set<nat>, es: seq<Edit>, e: Edit)
    requires SnapshotBut(view, next, rest, es) && e.cf in rest && SaysLive(view, e)
    ensures SnapshotBut(view, next, rest - {e.cf}, es + [e])
  {
    var more := es + [e];
    assert more[|es|] == e;
    forall c | c in view && c !in rest - {e.cf}
      ensures HasRecord(more, c)
    {
      if c != e.cf {
        assert HasRecord(es, c);
        var i :| 1 <= i < |es| && es[i].cf == c;
        assert more[i].cf == c;
      }
    }
  }

  /** The view that recovery builds from a manifest, starting from empty storages. */
  function Restored(view: View, manifest: seq<Edit>): View
    requires Collect(manifest).Some?
  {
    AppliedAll(EmptyView(view.Keys), Collect(manifest).value.cfs)
  }

  predicate Recovers(view: View, manifest: seq<Edit>) {
    && Collect(manifest).Some?
    && Collect(manifest).value.next.Some?
    && FitsAll(EmptyView(view.Keys), Collect(manifest).value.cfs)
  }

  /** The read loop of recovery: every record goes into one collector. */
  method CollectRecords(records: seq<Edit>) returns (s: Status, collector: EditCollector)
    ensures fresh(collector)
    ensures s == Ok <==> Collect(records).Some?
    ensures s == Ok ==> collector.status == Ok && !collector.sealed
    ensures s == Ok ==> Collect(records) == Some(Batch(collector.next, collector.cfs))
  {
    s := Ok;
    collector := new EditCollector();
    for i := 0 to |records|
      invariant s == Ok && collector.status == Ok && !collector.sealed && fresh(collector)
      invariant Collect(records[..i]) == Some(Batch(collector.next, collector.cfs))
    {
      assert records[..i + 1][..i] == records[..i];
      s := collector.AddEdit(records[i]);
      if s != Ok {
        RejectedForGood(records, i + 1);
        return;
      }
    }
    assert records[..|records|] == records;
  }

  /** What the records of a manifest add stays within the levels that the storages count. */
  predicate RecordLevels(records: seq<Edit>, levels: nat) {
    forall i :: 0 <= i < |records| ==> LevelsOk(records[i].added, levels)
  }

  lemma {:induction false} CollectedLevels(es: seq<Edit>, levels: nat)
    requires RecordLevels(es, levels) && Collect(es).Some?
    ensures BatchLevels(Collect(es).value.cfs, levels)
  {
    if es != [] {
      var prev, e := es[..|es| - 1], es[|es| - 1];
      CollectedLevels(prev, levels);
      MergedLevels(Of(Collect(prev).value.cfs, e.cf), e, levels);
    }
  }

  method ReplayManifest(fileSet: BlobFileSet) returns (s: Status)
    requires fileSet.Valid() && fileSet.Files() == EmptyView(fileSet.storages.Keys)
    requires RecordLevels(fileSet.manifest, fileSet.levels)
    modifies fileSet`next, fileSet.storages.Values
    ensures fileSet.Valid()
    ensures s == Ok <==> Recovers(old(fileSet.Files()), fileSet.manifest)
    ensures s == Ok ==> fileSet.Files() == Restored(old(fileSet.Files()), fileSet.manifest)
    ensures s == Ok ==> fileSet.next == Collect(fileSet.manifest).value.next.value
  {
    var next;
    s, next := ApplyRecords(fileSet.storages, fileSet.manifest, fileSet.levels);
    if s != Ok {
      return;
    }
    SetNext(fileSet, next);
  }

  method SetNext(fileSet: BlobFileSet, next: nat)
    requires fileSet.Valid()
    modifies fileSet`next
    ensures fileSet.Valid() && fileSet.Files() == old(fileSet.Files()) && fileSet.next == next
  {
    fileSet.next := next;
  }

  method SetManifest(fileSet: BlobFileSet, records: seq<Edit>)
    requires fileSet.Valid()
    modifies fileSet`manifest
    ensures fileSet.Valid() && fileSet.Files() == old(fileSet.Files()) && fileSet.manifest == records
  {
    fileSet.manifest := records;
  }

  method ApplyRecords(storages: Storages, records: seq<Edit>, ghost levels: nat) returns (s: Status, next: nat)
    requires Separate(storages) && AllAgree(storages.Values, levels) && RecordLevels(records, levels)
    requires ViewOf(storages) == EmptyView(storages.Keys)
    modifies storages.Values
    ensures AllAgree(storages.Values, levels)
    ensures s == Ok <==> Recovers(old(ViewOf(storages)), records)
    ensures s == Ok ==> ViewOf(storages) == Restored(old(ViewOf(storages)), records)
    ensures s == Ok ==> next == Collect(records).value.next.value
  {
    var collector;
    next := 0;
    s, collector := SealRecords(storages, records, levels);
    if s != Ok {
      return;
    }
    s := collector.Apply(storages, levels);
    s, next := collector.GetNextFileNumber();
  }

  method SealRecords(storages: Storages, records: seq<Edit>, ghost levels: nat) returns (s: Status, collector: EditCollector)
    requires AllAgree(storages.Values, levels) && RecordLevels(records, levels)
    ensures AllAgree(storages.Values, levels) && ViewOf(storages) == old(ViewOf(storages)) && fresh(collector)
    ensures s == Ok <==> Collect(records).Some? && FitsAll(ViewOf(storages), Collect(records).value.cfs)
    ensures s == Ok ==> collector.status == Ok && collector.sealed && BatchLevels(collector.cfs, levels)
    ensures s == Ok ==> Collect(records) == Some(Batch(collector.next, collector.cfs))
  {
    s, collector := CollectRecords(records);
    if s == Ok {
      CollectedLevels(records, levels);
      s := collector.Seal(storages);
    }
  }

  function Numbers(view: View): set<nat> {
    set c, n | c in view && n in view[c] :: n
  }

  /** The numbers of the files in all storages. */
  method AliveFiles(storages: Storages) returns (alive: set<nat>)
    ensures alive == Numbers(ViewOf(storages))
  {
    alive := {};
    var rest := storages.Keys;
    while rest != {}
      invariant rest <= storages.Keys
      invariant forall n :: n in alive <==> exists c :: c in storages && c !in rest && n in storages[c].files
      decreases |rest|
    {
      var c :| c in rest;
      alive := alive + storages[c].files.Keys;
      rest := rest - {c};
    }
    forall n
      ensures n in alive <==> n in Numbers(ViewOf(storages))
    {
      if n in alive {
        var c :| c in storages && n in storages[c].files;
        assert n in ViewOf(storages)[c];
      }
    }
  }

  /** `disk` are the numbers of the blob files in the directory; `kept` are those recovery leaves there. */
  method Recover(fileSet: BlobFileSet, disk: set<nat>) returns (s: Status, kept: set<nat>)
    requires fileSet.Valid() && fileSet.Files() == EmptyView(fileSet.storages.Keys)
    requires RecordLevels(fileSet.manifest, fileSet.levels)
    modifies fileSet`next, fileSet`manifest, fileSet.storages.Values
    ensures fileSet.Valid()
    ensures s == Ok <==> Recovers(old(fileSet.Files()), old(fileSet.manifest))
    ensures s == Ok ==>
              && fileSet.Files() == Restored(old(fileSet.Files()), old(fileSet.manifest))
              && fileSet.next == Collect(old(fileSet.manifest)).value.next.value + 1
              && IsSnapshot(fileSet.Files(), fileSet.next, fileSet.manifest)
              && kept == disk * (Numbers(fileSet.Files()) + {fileSet.next - 1})
  {
    kept := disk;
    s := ReplayManifest(fileSet);
    if s == Ok {
      var alive := OpenManifest(fileSet);
      kept := disk * alive;
    }
  }

  /** A new manifest starts with a snapshot; its number is among those that are in use. */
  method OpenManifest(fileSet: BlobFileSet) returns (alive: set<nat>)
    requires fileSet.Valid()
    modifies fileSet`next, fileSet`manifest
    ensures fileSet.Valid() && fileSet.Files() == old(fileSet.Files()) && fileSet.next == old(fileSet.next) + 1
    ensures IsSnapshot(fileSet.Files(), fileSet.next, fileSet.manifest)
    ensures alive == Numbers(fileSet.Files()) + {fileSet.next - 1}
  {
    var files := AliveFiles(fileSet.storages);
    var snapshot := WriteSnapshot(fileSet.storages, fileSet.next + 1);
    var manifestNumber := fileSet.NewFileNumber();
    SetManifest(fileSet, snapshot);
    alive := files + {manifestNumber};
  }

  lemma {:induction false} RejectedForGood(es: seq<Edit>, n: nat)
    requires n <= |es| && Collect(es[..n]).None?
    ensures Collect(es).None?
  {
    if n == |es| {
      assert es[..n] == es;
    } else {
      assert es[..|es| - 1][..n] == es[..n];
      RejectedForGood(es[..|es| - 1], n);
    }
  }

  // ---- runs of the file set

  /** `used` are the numbers that accepted edits have added so far, in any life of the process. */
  datatype State = State(view: View, next: nat, manifest: seq<Edit>, used: set<nat>)

  datatype Event =
    | Allocate
    | Log(e: Edit)
    | Purge(cf: nat, gone: set<nat>)
    | Reopen(snapshot: seq<Edit>)

  /** A logged edit adds only numbers that NewFileNumber has handed out and that no accepted edit has added. */
  predicate NumbersNew(s: State, e: Edit) {
    forall i :: 0 <= i < |e.added| ==> e.added[i].number < s.next && e.added[i].number !in s.used
  }

  predicate Enabled(s: State, ev: Event) {
    match ev
    case Allocate => true
    case Log(e) => NumbersNew(s, e)
    case Purge(cf, gone) => cf in s.view && forall n :: n in gone ==> n in s.view[cf] && s.view[cf][n].obsolete
    case Reopen(snapshot) =>
      && Recovers(s.view, s.manifest)
      && IsSnapshot(Restored(s.view, s.manifest), Collect(s.manifest).value.next.value + 1, snapshot)
  }

  function Apply(s: State, ev: Event): State
    requires Enabled(s, ev)
  {
    match ev
    case Allocate => s.(next := s.next + 1)
    case Log(e) =>
      var record := e.(next := Some(s.next));
      if Accepts(s.view, record)
      then State(AppliedOne(s.view, record), s.next, s.manifest + [record], s.used + Adds(e.added).Keys)
      else s
    case Purge(cf, gone) => s.(view := s.view[cf := s.view[cf] - gone])
    case Reopen(snapshot) =>
      State(Restored(s.view, s.manifest), Collect(s.manifest).value.next.value + 1, snapshot, s.used)
  }

  predicate ValidRun(s: State, evs: seq<Event>)
    decreases |evs|
  {
    evs == [] || (Enabled(s, evs[0]) && ValidRun(Apply(s, evs[0]), evs[1..]))
  }

  function Run(s: State, evs: seq<Event>): State
    requires ValidRun(s, evs)
    decreases |evs|
  {
    if evs == [] then s else Run(Apply(s, evs[0]), evs[1..])
  }

  /** A new database: the manifest itself took number 1. */
  predicate Initial(s: State) {
    && (forall c :: c in s.view ==> s.view[c] == map[])
    && s.next == 2
    && IsSnapshot(s.view, 2, s.manifest)
    && s.used == {}
  }
}
