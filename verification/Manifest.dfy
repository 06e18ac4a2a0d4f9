/** The file set of a database and its manifest. */
module Manifest {
  import opened Types
  import opened Ordering
  import opened Storage
  import opened Edits

  /** An edit that LogAndApply takes: consistent in itself, and with the files of its column family if that is open. */
  predicate Accepts(view: View, e: Edit) {
    && AddsFit({}, e.added)
    && DelsFit({}, e.deleted)
    && (e.cf in view ==> Fits(view[e.cf], Merged(NO_EDITS, e)))
  }

  function AppliedOne(view: View, e: Edit): View {
    if e.cf in view then view[e.cf := Applied(view[e.cf], Merged(NO_EDITS, e))] else view
  }

  // ---- storages

  type Storages = map<nat, BlobStorage>

  ghost function ViewOf(storages: Storages): View
    reads storages.Values
  {
    map c | c in storages :: storages[c].files
  }

  type Obsolete = map<nat, seq<Gone>>

  ghost function ObsoleteOf(storages: Storages): Obsolete
    reads storages.Values
  {
    map c | c in storages :: storages[c].obsolete
  }

  /** The indexes of every storage agree, and each counts so many levels. */
  ghost predicate AllAgree(all: set<BlobStorage>, levels: nat)
    reads all
  {
    forall s :: s in all ==> s.Agrees() && |s.levels| == levels
  }

  /** Every storage serves one column family. */
  predicate Separate(storages: Storages) {
    forall c, d :: c in storages && d in storages && storages[c] == storages[d] ==> c == d
  }

  /** The batch has reached every open column family outside `rest`. */
  predicate AppliedBut(view: View, cfs: map<nat, CfEdits>, rest: set<nat>, now: View) {
    && now.Keys == view.Keys
    && (forall c :: c in view ==> now[c] == if c in cfs && c !in rest then Applied(view[c], cfs[c]) else view[c])
  }

  lemma AppliedMore(view: View, cfs: map<nat, CfEdits>, rest: set<nat>, now: View, c: nat)
    requires AppliedBut(view, cfs, rest, now) && c in rest && c in cfs
    ensures c in view ==> now[c] == view[c]
    ensures AppliedBut(view, cfs, rest - {c}, if c in view then now[c := Applied(view[c], cfs[c])] else now)
  {
  }

  lemma AppliedDone(view: View, cfs: map<nat, CfEdits>, now: View)
    requires AppliedBut(view, cfs, {}, now)
    ensures now == AppliedAll(view, cfs)
  {
  }

  /** The obsolete lists have the deletions of the batch, outside `rest`, and nothing else new. */
  ghost predicate GrewBut(obsolete: Obsolete, cfs: map<nat, CfEdits>, rest: set<nat>, now: Obsolete) {
    && now.Keys == obsolete.Keys
    && (forall c :: c in obsolete ==> if c in cfs && c !in rest then Grew(obsolete[c], now[c], cfs[c]) else now[c] == obsolete[c])
  }

  ghost predicate GrewAll(obsolete: Obsolete, cfs: map<nat, CfEdits>, now: Obsolete) {
    && now.Keys == obsolete.Keys
    && (forall c :: c in obsolete ==> if c in cfs then Grew(obsolete[c], now[c], cfs[c]) else now[c] == obsolete[c])
  }

  lemma GrewMore(obsolete: Obsolete, cfs: map<nat, CfEdits>, rest: set<nat>, now: Obsolete, c: nat, after: Obsolete)
    requires GrewBut(obsolete, cfs, rest, now) && c in rest && c in cfs && after.Keys == now.Keys
    requires forall d :: d in now ==> if d == c then Grew(now[c], after[c], cfs[c]) else after[d] == now[d]
    ensures GrewBut(obsolete, cfs, rest - {c}, after)
  {
  }

  /** One storage changes, the others do not. */
  method ApplyTo(storages: Storages, c: nat, edits: CfEdits, ghost levels: nat)
    requires Separate(storages) && AllAgree(storages.Values, levels)
    requires c in storages && Fits(storages[c].files, edits) && LevelsFit(edits, levels)
    modifies storages[c]
    ensures AllAgree(storages.Values, levels)
    ensures ViewOf(storages) == old(ViewOf(storages))[c := Applied(old(storages[c].files), edits)]
    ensures Grew(old(storages[c].obsolete), storages[c].obsolete, edits)
    ensures ObsoleteOf(storages) == old(ObsoleteOf(storages))[c := storages[c].obsolete]
  {
    ApplyCf(storages[c], edits);
  }

  method ApplyBatch(storages: Storages, cfs: map<nat, CfEdits>, ghost levels: nat)
    requires Separate(storages) && AllAgree(storages.Values, levels)
    requires FitsAll(ViewOf(storages), cfs) && BatchLevels(cfs, levels)
    modifies storages.Values
    ensures AllAgree(storages.Values, levels) && ViewOf(storages) == AppliedAll(old(ViewOf(storages)), cfs)
    ensures GrewAll(old(ObsoleteOf(storages)), cfs, ObsoleteOf(storages))
  {
    ghost var view, obsolete := ViewOf(storages), ObsoleteOf(storages);
    var rest := cfs.Keys;
    while rest != {}
      invariant rest <= cfs.Keys && AllAgree(storages.Values, levels) && AppliedBut(view, cfs, rest, ViewOf(storages))
      invariant GrewBut(obsolete, cfs, rest, ObsoleteOf(storages))
      decreases |rest|
    {
      var c :| c in rest;
      AppliedMore(view, cfs, rest, ViewOf(storages), c);
      ghost var now := ObsoleteOf(storages);
      if c in storages {
        ApplyTo(storages, c, cfs[c], levels);
      }
      GrewMore(obsolete, cfs, rest, now, c, ObsoleteOf(storages));
      rest := rest - {c};
    }
    AppliedDone(view, cfs, ViewOf(storages));
  }

  lemma OneMoreStorage(storages: Storages, c: nat, storage: BlobStorage)
    requires c !in storages && storage !in storages.Values && Separate(storages)
    ensures storages[c := storage].Values == storages.Values + {storage} && Separate(storages[c := storage])
  {
    var more := storages[c := storage];
    assert more[c] == storage;
    forall s | s in storages.Values
      ensures s in more.Values
    {
      var d :| d in storages && storages[d] == s;
      assert more[d] == s;
    }
    forall d | d in storages
      ensures more[d] in storages.Values
    {
    }
  }

  method NewStorages(le: Le, levels: nat, columnFamilies: set<nat>) returns (storages: Storages)
    requires Total(le)
    ensures Separate(storages) && AllAgree(storages.Values, levels) && fresh(storages.Values)
    ensures ViewOf(storages) == map c | c in columnFamilies :: map[]
  {
    storages := map[];
    var rest := columnFamilies;
    while rest != {}
      invariant rest <= columnFamilies && storages.Keys == columnFamilies - rest
      invariant Separate(storages) && AllAgree(storages.Values, levels) && fresh(storages.Values)
      invariant forall c :: c in storages ==> storages[c].files == map[]
      decreases |rest|
    {
      var c :| c in rest;
      var storage := new BlobStorage(le, levels);
      OneMoreStorage(storages, c, storage);
      storages := storages[c := storage];
      rest := rest - {c};
    }
  }

  // ---- collecting, checking, applying

  lemma {:induction false} AddsFitPrefix(have: set<nat>, added: seq<Meta>, n: nat)
    requires n <= |added|
    ensures AddsFit(have, added) ==> AddsFit(have, added[..n])
  {
    if n < |added| {
      var last := |added| - 1;
      AddsFitPrefix(have, added[..last], n);
      assert added[..last][..n] == added[..n];
    } else {
      assert added[..n] == added;
    }
  }

  lemma {:induction false} DelsFitPrefix(have: set<nat>, deleted: seq<Gone>, n: nat)
    requires n <= |deleted|
    ensures DelsFit(have, deleted) ==> DelsFit(have, deleted[..n])
  {
    if n < |deleted| {
      var last := |deleted| - 1;
      DelsFitPrefix(have, deleted[..last], n);
      assert deleted[..last][..n] == deleted[..n];
    } else {
      assert deleted[..n] == deleted;
    }
  }

  /** CFEditCollector::AddFile for each file of an edit, up to the first one already added. */
  method CollectAdds(c0: CfEdits, added: seq<Meta>) returns (c: CfEdits, fits: bool)
    ensures fits <==> AddsFit(c0.added.Keys, added)
    ensures fits ==> c == c0.(added := c0.added + Adds(added))
  {
    c := c0;
    for i := 0 to |added|
      invariant c == c0.(added := c0.added + Adds(added[..i])) && AddsFit(c0.added.Keys, added[..i])
    {
      assert added[..i + 1][..i] == added[..i];
      var number := added[i].number;
      if number in c.added {
        AddsFitPrefix(c0.added.Keys, added, i + 1);
        return c, false;
      }
      c := c.(added := c.added[number := added[i]]);
    }
    assert added[..|added|] == added;
    return c, true;
  }

  /** CFEditCollector::DeleteFile likewise. */
  method CollectDels(c0: CfEdits, deleted: seq<Gone>) returns (c: CfEdits, fits: bool)
    ensures fits <==> DelsFit(c0.deleted.Keys, deleted)
    ensures fits ==> c == c0.(deleted := c0.deleted + Dels(deleted))
  {
    c := c0;
    for i := 0 to |deleted|
      invariant c == c0.(deleted := c0.deleted + Dels(deleted[..i])) && DelsFit(c0.deleted.Keys, deleted[..i])
    {
      assert deleted[..i + 1][..i] == deleted[..i];
      var number := deleted[i].number;
      if number in c.deleted {
        DelsFitPrefix(c0.deleted.Keys, deleted, i + 1);
        return c, false;
      }
      c := c.(deleted := c.deleted[number := deleted[i].sequence]);
    }
    assert deleted[..|deleted|] == deleted;
    return c, true;
  }

  /** The files of an edit, up to the first that comes twice. */
  method CollectFiles(c0: CfEdits, e: Edit) returns (c: CfEdits, fits: bool)
    ensures fits <==> AddsFit(c0.added.Keys, e.added) && DelsFit(c0.deleted.Keys, e.deleted)
    ensures fits ==> c == Merged(c0, e)
  {
    c, fits := CollectAdds(c0, e.added);
    if fits {
      c, fits := CollectDels(c, e.deleted);
    }
  }

  class EditCollector {
    var status: Status
    var sealed: bool
    var next: Option<nat>
    var cfs: map<nat, CfEdits>

    constructor ()
      ensures status == Ok && !sealed && next == None && cfs == map[]
    {
      status, sealed, next, cfs := Ok, false, None, map[];
    }

    method AddEdit(e: Edit) returns (s: Status)
      modifies this
      ensures old(sealed) ==> s == Incomplete && unchanged(this)
      ensures !old(sealed) ==> s == if Takes(old(cfs), old(next), e) then Ok else Corruption
      ensures s == Ok ==> cfs == old(cfs)[e.cf := Merged(Of(old(cfs), e.cf), e)]
      ensures s == Ok ==> next == if e.next.Some? then e.next else old(next)
      ensures s == Ok ==> status == if e.added == [] && e.deleted == [] then old(status) else Ok
      ensures s == Corruption ==> status == s
      ensures sealed == old(sealed)
    {
      if sealed {
        return Incomplete;
      }
      var c, fits := CollectFiles(Of(cfs, e.cf), e);
      cfs := cfs[e.cf := c];
      status := if !fits then Corruption else if e.added == [] && e.deleted == [] then status else Ok;
      if !fits {
        return status;
      }
      if e.next.Some? {
        if next.Some? && e.next.value < next.value {
          status := Corruption;
          return status;
        }
        next := e.next;
      }
      return Ok;
    }

    method Seal(storages: Storages) returns (s: Status)
      modifies this`status, this`sealed
      ensures s == if old(status) != Ok then old(status) else if FitsAll(ViewOf(storages), cfs) then Ok else Corruption
      ensures status == s && sealed == (old(sealed) || s == Ok)
    {
      if status != Ok {
        return status;
      }
      var rest := cfs.Keys;
      while rest != {}
        invariant rest <= cfs.Keys && status == Ok && sealed == old(sealed)
        invariant forall c :: c in cfs.Keys - rest && c in storages ==> Fits(storages[c].files, cfs[c])
        decreases |rest|
      {
        var c :| c in rest;
        if c in storages {
          status := SealCf(storages[c].files, cfs[c]);
          if status != Ok {
            assert !Fits(ViewOf(storages)[c], cfs[c]);
            return status;
          }
        }
        rest := rest - {c};
      }
      sealed := true;
      return Ok;
    }

    /**
     CFEditCollector::Apply on every open column family of the batch.  The mutex is held since
     Seal, so what Seal found still holds; then all of the batch is applied, or nothing is.
     */
    method Apply(storages: Storages, ghost levels: nat) returns (s: Status)
      requires Separate(storages) && AllAgree(storages.Values, levels)
      requires status == Ok && sealed ==> FitsAll(ViewOf(storages), cfs) && BatchLevels(cfs, levels)
      modifies storages.Values
      ensures AllAgree(storages.Values, levels)
      ensures s == if status != Ok then status else if !sealed then Incomplete else Ok
      ensures ViewOf(storages) == if s == Ok then AppliedAll(old(ViewOf(storages)), cfs) else old(ViewOf(storages))
      ensures if s == Ok then GrewAll(old(ObsoleteOf(storages)), cfs, ObsoleteOf(storages))
              else ObsoleteOf(storages) == old(ObsoleteOf(storages))
    {
      if status != Ok {
        return status;
      }
      if !sealed {
        return Incomplete;
      }
      ApplyBatch(storages, cfs, levels);
      return Ok;
    }

    method GetNextFileNumber() returns (s: Status, number: nat)
      ensures s == if status != Ok then status else if next.Some? then Ok else Corruption
      ensures s == Ok ==> number == next.value
    {
      if status != Ok {
        return status, 0;
      }
      if next.Some? {
        return Ok, next.value;
      }
      return Corruption, 0;
    }
  }

  /** A batch of one edit. */
  lemma OneEdit(e: Edit, levels: nat)
    requires LevelsOk(e.added, levels)
    ensures Takes(map[], None, e) <==> AddsFit({}, e.added) && DelsFit({}, e.deleted)
    ensures BatchLevels(map[e.cf := Merged(NO_EDITS, e)], levels)
  {
    assert NO_EDITS.added.Keys == {} && NO_EDITS.deleted.Keys == {};
    MergedLevels(NO_EDITS, e, levels);
  }

  lemma OneApplied(view: View, e: Edit)
    ensures AppliedAll(view, map[e.cf := Merged(NO_EDITS, e)]) == AppliedOne(view, e)
  {
  }

  predicate AddsFile(e: Edit, n: nat) {
    exists m :: m in e.added && m.number == n
  }

  predicate DeletesFile(e: Edit, n: nat) {
    exists g :: g in e.deleted && g.number == n
  }

  /** An accepted edit, file by file. */
  lemma EditEffect(view: View, e: Edit)
    requires Accepts(view, e) && e.cf in view
    ensures var was, now := view[e.cf], AppliedOne(view, e)[e.cf];
            && (forall n :: n in now <==> n in was || (AddsFile(e, n) && !DeletesFile(e, n)))
            && (forall m :: m in e.added && !DeletesFile(e, m.number) ==> now[m.number] == Slot(m, false))
            && (forall g :: g in e.deleted && !AddsFile(e, g.number) ==>
                  g.number in was && now[g.number] == Slot(was[g.number].meta, true))
            && (forall n :: n in was && !DeletesFile(e, n) ==> now[n] == was[n])
    ensures forall c :: c in view && c != e.cf ==> AppliedOne(view, e)[c] == view[c]
  {
    var c := Merged(NO_EDITS, e);
    assert c == CfEdits(Adds(e.added), Dels(e.deleted));
    AddsAre(e.added);
    DelsAre(e.deleted);
    assert forall n :: n in c.added <==> AddsFile(e, n);
    assert forall n :: n in c.deleted <==> DeletesFile(e, n);
  }

  /** The new entries of the obsolete list are the deletions of the edit, as it has them, of files that it does not add. */
  ghost predicate GrewBy(obsolete0: seq<Gone>, obsolete: seq<Gone>, e: Edit) {
    && obsolete0 <= obsolete
    && var more := obsolete[|obsolete0|..];
    && Unique(more)
    && forall g :: g in more <==> g in e.deleted && !AddsFile(e, g.number)
  }

  lemma OneGrew(obsolete0: seq<Gone>, obsolete: seq<Gone>, e: Edit)
    requires AddsFit({}, e.added) && DelsFit({}, e.deleted) && Grew(obsolete0, obsolete, Merged(NO_EDITS, e))
    ensures GrewBy(obsolete0, obsolete, e)
  {
    var c := Merged(NO_EDITS, e);
    assert c == CfEdits(Adds(e.added), Dels(e.deleted));
    AddsAre(e.added);
    DelsAre(e.deleted);
    assert forall n :: n in c.added <==> AddsFile(e, n);
    forall g: Gone
      ensures g.number in c.deleted && g.sequence == c.deleted[g.number] <==> g in e.deleted
    {
      if g.number in c.deleted && g.sequence == c.deleted[g.number] {
        assert g == Gone(g.number, c.deleted[g.number]);
      }
    }
  }

  /** What an edit alone does to the obsolete lists. */
  ghost predicate GrewOne(obsolete: Obsolete, e: Edit, now: Obsolete) {
    && now.Keys == obsolete.Keys
    && (forall c :: c in obsolete ==> if c == e.cf then GrewBy(obsolete[c], now[c], e) else now[c] == obsolete[c])
  }

  lemma OneGrewAll(obsolete: Obsolete, e: Edit, now: Obsolete)
    requires AddsFit({}, e.added) && DelsFit({}, e.deleted)
    requires GrewAll(obsolete, map[e.cf := Merged(NO_EDITS, e)], now)
    ensures GrewOne(obsolete, e, now)
  {
    if e.cf in obsolete {
      OneGrew(obsolete[e.cf], now[e.cf], e);
    }
  }

  method Collected(storages: Storages, e: Edit, ghost levels: nat) returns (s: Status, collector: EditCollector)
    requires LevelsOk(e.added, levels)
    ensures fresh(collector)
    ensures s == Ok <==> Accepts(ViewOf(storages), e)
    ensures s == Ok ==> collector.status == Ok && collector.sealed && collector.cfs == map[e.cf := Merged(NO_EDITS, e)]
    ensures s == Ok ==> FitsAll(ViewOf(storages), collector.cfs) && BatchLevels(collector.cfs, levels)
  {
    collector := new EditCollector();
    s := collector.AddEdit(e);
    OneEdit(e, levels);
    if s == Ok {
      assert collector.cfs == map[e.cf := Merged(NO_EDITS, e)];
      assert e.cf in collector.cfs;
      s := collector.Seal(storages);
    }
  }

  /** The storages of a database with the manifest that records their changes. */
  class BlobFileSet {
    const levels: nat
    var storages: Storages
    var manifest: seq<Edit>
    var next: nat

    ghost predicate Valid()
      reads this, storages.Values
    {
      Separate(storages) && AllAgree(storages.Values, levels)
    }

    ghost function Files(): View
      reads this, storages.Values
    {
      ViewOf(storages)
    }

    ghost function Lists(): Obsolete
      reads this, storages.Values
    {
      ObsoleteOf(storages)
    }

    constructor (le: Le, levels: nat, columnFamilies: set<nat>, manifest: seq<Edit>)
      requires Total(le)
      ensures Valid() && fresh(storages.Values)
      ensures Files() == (map c | c in columnFamilies :: map[])
      ensures this.levels == levels && this.manifest == manifest && next == 1
    {
      var empty := NewStorages(le, levels, columnFamilies);
      this.levels, this.manifest, next, storages := levels, manifest, 1, empty;
    }

    method NewFileNumber() returns (number: nat)
      modifies this`next
      ensures number == old(next) && next == number + 1
    {
      number := next;
      next := next + 1;
    }

    method AddRecord(record: Edit)
      requires Valid()
      modifies this`manifest
      ensures Valid() && Files() == old(Files()) && Lists() == old(Lists()) && manifest == old(manifest) + [record]
    {
      manifest := manifest + [record];
    }

    /** An edit alone in a collector, checked against the storages; nothing changes yet. */
    method Check(e: Edit) returns (s: Status, collector: EditCollector)
      requires Valid() && LevelsOk(e.added, levels)
      ensures Valid() && Files() == old(Files()) && Lists() == old(Lists()) && fresh(collector)
      ensures s == Ok <==> Accepts(Files(), e)
      ensures s == Ok ==> collector.status == Ok && collector.sealed && collector.cfs == map[e.cf := Merged(NO_EDITS, e)]
      ensures s == Ok ==> FitsAll(Files(), collector.cfs) && BatchLevels(collector.cfs, levels)
    {
      s, collector := Collected(storages, e, levels);
    }

    /** A checked edit reaches the storages. */
    method Install(record: Edit, collector: EditCollector)
      requires Valid() && Accepts(Files(), record)
      requires collector.status == Ok && collector.sealed && collector.cfs == map[record.cf := Merged(NO_EDITS, record)]
      requires FitsAll(Files(), collector.cfs) && BatchLevels(collector.cfs, levels)
      modifies storages.Values
      ensures Valid() && Files() == AppliedOne(old(Files()), record) && GrewOne(old(Lists()), record, Lists())
    {
      var s := collector.Apply(storages, levels);
      OneApplied(old(Files()), record);
      OneGrewAll(old(Lists()), record, Lists());
    }

    /** `written` and `synced` say whether the manifest write and its sync succeed. */
    method LogAndApply(e: Edit, written: bool, synced: bool) returns (s: Status)
      requires Valid() && LevelsOk(e.added, levels)
      modifies this`manifest, storages.Values
      ensures Valid()
      ensures var record := e.(next := Some(next));
              var fits := Accepts(old(Files()), record);
              && (s == Ok <==> fits && written && synced)
              && manifest == (if fits && written then old(manifest) + [record] else old(manifest))
              && Files() == (if s == Ok then AppliedOne(old(Files()), record) else old(Files()))
              && (if s == Ok then GrewOne(old(Lists()), record, Lists()) else Lists() == old(Lists()))
    {
      var record := e.(next := Some(next));
      var collector;
      s, collector := Check(record);
      if s != Ok {
        return;
      }
      if !written {
        return IOError;
      }
      AddRecord(record);
      if !synced {
        return IOError;
      }
      Install(record, collector);
    }
  }
}
