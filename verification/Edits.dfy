/** Version edits and the collector that checks and applies a batch of them. */
module Edits {
  import opened Types
  import opened Storage

  datatype Status = Ok | Corruption | Incomplete | NotFound | IOError

  datatype Edit = Edit(next: Option<nat>, cf: nat, added: seq<Meta>, deleted: seq<Gone>)

  /** What a batch adds to and deletes from one column family. */
  datatype CfEdits = CfEdits(added: map<nat, Meta>, deleted: map<nat, nat>)

  const NO_EDITS := CfEdits(map[], map[])

  /** The files of every open column family. */
  type View = map<nat, Files>

  // ---- collecting

  function Adds(added: seq<Meta>): map<nat, Meta> {
    if added == [] then map[]
    else
      var last := |added| - 1;
      Adds(added[..last])[added[last].number := added[last]]
  }

  function Dels(deleted: seq<Gone>): map<nat, nat> {
    if deleted == [] then map[]
    else
      var last := |deleted| - 1;
      Dels(deleted[..last])[deleted[last].number := deleted[last].sequence]
  }

  function Of(cfs: map<nat, CfEdits>, cf: nat): CfEdits {
    if cf in cfs then cfs[cf] else NO_EDITS
  }

  /** None of the numbers is in `have` or comes twice. */
  predicate AddsFit(have: set<nat>, added: seq<Meta>) {
    added == [] ||
    var last := |added| - 1;
    AddsFit(have, added[..last]) && added[last].number !in have && added[last].number !in Adds(added[..last])
  }

  predicate DelsFit(have: set<nat>, deleted: seq<Gone>) {
    deleted == [] ||
    var last := |deleted| - 1;
    DelsFit(have, deleted[..last]) && deleted[last].number !in have && deleted[last].number !in Dels(deleted[..last])
  }

  /** When the collector takes an edit: no number added twice or deleted twice, and no step back of the counter. */
  predicate Takes(cfs: map<nat, CfEdits>, next: Option<nat>, e: Edit) {
    && AddsFit(Of(cfs, e.cf).added.Keys, e.added)
    && DelsFit(Of(cfs, e.cf).deleted.Keys, e.deleted)
    && (e.next.Some? && next.Some? ==> next.value <= e.next.value)
  }

  function Merged(c: CfEdits, e: Edit): CfEdits {
    CfEdits(c.added + Adds(e.added), c.deleted + Dels(e.deleted))
  }

  lemma {:induction false} AddsNumbers(added: seq<Meta>, n: nat)
    ensures n in Adds(added) <==> exists i :: 0 <= i < |added| && added[i].number == n
    ensures n in Adds(added) ==> Adds(added)[n].number == n
  {
    if added != [] {
      AddsNumbers(added[..|added| - 1], n);
    }
  }

  lemma {:induction false} DelsNumbers(deleted: seq<Gone>, n: nat)
    ensures n in Dels(deleted) <==> exists i :: 0 <= i < |deleted| && deleted[i].number == n
  {
    if deleted != [] {
      DelsNumbers(deleted[..|deleted| - 1], n);
    }
  }

  /** Additions fit exactly if all their numbers are new and different. */
  lemma {:induction false} AddsFitIff(have: set<nat>, added: seq<Meta>)
    ensures AddsFit(have, added) <==>
              && (forall i :: 0 <= i < |added| ==> added[i].number !in have)
              && (forall i, j :: 0 <= i < j < |added| ==> added[i].number != added[j].number)
  {
    if added != [] {
      var last := |added| - 1;
      AddsFitIff(have, added[..last]);
      AddsNumbers(added[..last], added[last].number);
    }
  }

  lemma {:induction false} DelsFitIff(have: set<nat>, deleted: seq<Gone>)
    ensures DelsFit(have, deleted) <==>
              && (forall i :: 0 <= i < |deleted| ==> deleted[i].number !in have)
              && (forall i, j :: 0 <= i < j < |deleted| ==> deleted[i].number != deleted[j].number)
  {
    if deleted != [] {
      var last := |deleted| - 1;
      DelsFitIff(have, deleted[..last]);
      DelsNumbers(deleted[..last], deleted[last].number);
    }
  }

  /** An addition list without repeats gives every number its own file. */
  lemma {:induction false} AddsAre(added: seq<Meta>)
    requires AddsFit({}, added)
    ensures forall m :: m in added ==> m.number in Adds(added) && Adds(added)[m.number] == m
    ensures forall n :: n in Adds(added) ==> Adds(added)[n] in added && Adds(added)[n].number == n
  {
    if added != [] {
      var last := |added| - 1;
      AddsAre(added[..last]);
      assert added == added[..last] + [added[last]];
    }
  }

  /** A deletion list without repeats gives every file the sequence its entry has. */
  lemma {:induction false} DelsAre(deleted: seq<Gone>)
    requires DelsFit({}, deleted)
    ensures forall g :: g in deleted ==> g.number in Dels(deleted) && Dels(deleted)[g.number] == g.sequence
    ensures forall n :: n in Dels(deleted) ==> Gone(n, Dels(deleted)[n]) in deleted
  {
    if deleted != [] {
      var last := |deleted| - 1;
      DelsAre(deleted[..last]);
      assert deleted == deleted[..last] + [deleted[last]];
    }
  }

  /** The level counts of a storage have a place for each of these files. */
  predicate LevelsOk(added: seq<Meta>, levels: nat) {
    forall i :: 0 <= i < |added| ==> added[i].level < levels
  }

  lemma {:induction false} AddsLevels(added: seq<Meta>, levels: nat, n: nat)
    requires LevelsOk(added, levels) && n in Adds(added)
    ensures Adds(added)[n].level < levels
  {
    if added[|added| - 1].number != n {
      AddsLevels(added[..|added| - 1], levels, n);
    }
  }

  // ---- sealing and applying

  /** The batch can be applied to these files: added ones are new, deleted ones are live or added in the batch. */
  predicate Fits(files: Files, c: CfEdits) {
    && (forall n :: n in c.added ==> n !in files)
    && (forall n :: n in c.deleted && n !in c.added ==> Live(files, n))
  }

  /** Files added and deleted in one batch cancel out. */
  function Applied(files: Files, c: CfEdits): Files {
    map n | n in files.Keys + (c.added.Keys - c.deleted.Keys) ::
      if n !in files then Slot(c.added[n], false)
      else if n in c.deleted && n !in c.added then files[n].(obsolete := true)
      else files[n]
  }

  predicate FitsAll(view: View, cfs: map<nat, CfEdits>) {
    forall cf :: cf in cfs && cf in view ==> Fits(view[cf], cfs[cf])
  }

  function AppliedAll(view: View, cfs: map<nat, CfEdits>): View {
    map cf | cf in view :: if cf in cfs then Applied(view[cf], cfs[cf]) else view[cf]
  }

  predicate LevelsFit(c: CfEdits, levels: nat) {
    forall n :: n in c.added ==> c.added[n].number == n && c.added[n].level < levels
  }

  predicate BatchLevels(cfs: map<nat, CfEdits>, levels: nat) {
    forall cf :: cf in cfs ==> LevelsFit(cfs[cf], levels)
  }

  lemma MergedLevels(c: CfEdits, e: Edit, levels: nat)
    requires LevelsFit(c, levels) && LevelsOk(e.added, levels)
    ensures LevelsFit(Merged(c, e), levels)
  {
    forall n | n in Adds(e.added)
      ensures Adds(e.added)[n].number == n && Adds(e.added)[n].level < levels
    {
      AddsNumbers(e.added, n);
      AddsLevels(e.added, levels, n);
    }
  }

  /** CFEditCollector::Seal. */
  method SealCf(files: Files, c: CfEdits) returns (s: Status)
    ensures s == if Fits(files, c) then Ok else Corruption
  {
    var rest := c.added.Keys;
    while rest != {}
      invariant rest <= c.added.Keys
      invariant forall n :: n in c.added.Keys - rest ==> n !in files
      decreases |rest|
    {
      var number :| number in rest;
      if number in files {
        return Corruption;
      }
      rest := rest - {number};
    }
    rest := c.deleted.Keys;
    while rest != {}
      invariant rest <= c.deleted.Keys
      invariant forall n :: n in c.deleted.Keys - rest && n !in c.added ==> Live(files, n)
      decreases |rest|
    {
      var number :| number in rest;
      if number !in c.added {
        if number !in files {
          return Corruption;
        }
        if files[number].obsolete {
          return Corruption;
        }
      }
      rest := rest - {number};
    }
    return Ok;
  }

  /** The files after the added ones outside `rest` are in. */
  predicate AddedSoFar(files0: Files, c: CfEdits, rest: set<nat>, files: Files) {
    && files.Keys == files0.Keys + (c.added.Keys - c.deleted.Keys - rest)
    && (forall n :: n in files ==> files[n] == if n in files0 then files0[n] else Slot(c.added[n], false))
  }

  predicate DeletedSoFar(files0: Files, c: CfEdits, rest: set<nat>, files: Files) {
    && files.Keys == Applied(files0, c).Keys
    && (forall n :: n in files ==>
          files[n] == if n in rest && n in files0 then files0[n] else Applied(files0, c)[n])
  }

  lemma AddStep(files0: Files, c: CfEdits, rest: set<nat>, files: Files, n: nat)
    requires Fits(files0, c) && n in rest && rest <= c.added.Keys && c.added[n].number == n
    requires AddedSoFar(files0, c, rest, files)
    ensures n !in files
    ensures AddedSoFar(files0, c, rest - {n}, if n in c.deleted then files else AddedTo(files, c.added[n]))
  {
  }

  lemma DeleteStep(files0: Files, c: CfEdits, rest: set<nat>, files: Files, n: nat)
    requires Fits(files0, c) && n in rest && rest <= c.deleted.Keys
    requires DeletedSoFar(files0, c, rest, files)
    ensures n !in c.added ==> Live(files, n)
    ensures DeletedSoFar(files0, c, rest - {n}, if n in c.added then files else MarkedIn(files, n))
  {
  }

  lemma AddsBegin(files0: Files, c: CfEdits)
    ensures AddedSoFar(files0, c, c.added.Keys, files0)
  {
  }

  lemma AddsDone(files0: Files, c: CfEdits, files: Files)
    requires Fits(files0, c) && AddedSoFar(files0, c, {}, files)
    ensures DeletedSoFar(files0, c, c.deleted.Keys, files)
  {
  }

  lemma DeletesDone(files0: Files, c: CfEdits, files: Files)
    requires DeletedSoFar(files0, c, {}, files)
    ensures files == Applied(files0, c)
  {
  }

  /**
   The obsolete list keeps what it had.  Each file outside `rest` that the batch deletes and does
   not add comes to it once, with the sequence that its deletion gives, and no other file comes.
   */
  predicate MarkedSoFar(obsolete0: seq<Gone>, c: CfEdits, rest: set<nat>, obsolete: seq<Gone>) {
    && obsolete0 <= obsolete
    && var more := obsolete[|obsolete0|..];
    && Unique(more)
    && (forall g :: g in more ==>
          g.number !in rest && g.number in c.deleted && g.number !in c.added && g.sequence == c.deleted[g.number])
    && (forall n :: n in c.deleted && n !in rest && n !in c.added ==> Gone(n, c.deleted[n]) in more)
  }

  /** All the batch is marked: the new entries are exactly its deletions of files that it does not add. */
  ghost predicate Grew(obsolete0: seq<Gone>, obsolete: seq<Gone>, c: CfEdits) {
    && obsolete0 <= obsolete
    && var more := obsolete[|obsolete0|..];
    && Unique(more)
    && forall g :: g in more <==> g.number in c.deleted && g.number !in c.added && g.sequence == c.deleted[g.number]
  }

  lemma MarkBegin(obsolete0: seq<Gone>, c: CfEdits)
    ensures MarkedSoFar(obsolete0, c, c.deleted.Keys, obsolete0)
  {
  }

  lemma MarkStep(obsolete0: seq<Gone>, c: CfEdits, rest: set<nat>, obsolete: seq<Gone>, n: nat)
    requires MarkedSoFar(obsolete0, c, rest, obsolete) && n in c.deleted && n in rest
    ensures MarkedSoFar(obsolete0, c, rest - {n}, if n in c.added then obsolete else obsolete + [Gone(n, c.deleted[n])])
  {
    if n !in c.added {
      var more := obsolete[|obsolete0|..];
      var more' := (obsolete + [Gone(n, c.deleted[n])])[|obsolete0|..];
      assert more' == more + [Gone(n, c.deleted[n])];
      assert more'[|more|] == Gone(n, c.deleted[n]);
      assert forall i :: 0 <= i < |more| ==> more[i] in more && more'[i] == more[i];
    }
  }

  lemma MarksDone(obsolete0: seq<Gone>, c: CfEdits, obsolete: seq<Gone>)
    requires MarkedSoFar(obsolete0, c, {}, obsolete)
    ensures Grew(obsolete0, obsolete, c)
  {
    var more := obsolete[|obsolete0|..];
    forall g: Gone | g.number in c.deleted && g.number !in c.added && g.sequence == c.deleted[g.number]
      ensures g in more
    {
      assert g == Gone(g.number, c.deleted[g.number]);
    }
  }

  method ApplyAdds(storage: BlobStorage, c: CfEdits)
    requires storage.Agrees() && Fits(storage.files, c) && LevelsFit(c, |storage.levels|)
    modifies storage
    ensures storage.Agrees() && |storage.levels| == old(|storage.levels|)
    ensures AddedSoFar(old(storage.files), c, {}, storage.files) && storage.obsolete == old(storage.obsolete)
  {
    ghost var files0 := storage.files;
    AddsBegin(files0, c);
    var rest := c.added.Keys;
    while rest != {}
      invariant rest <= c.added.Keys
      invariant storage.Agrees() && |storage.levels| == old(|storage.levels|)
      invariant AddedSoFar(files0, c, rest, storage.files) && storage.obsolete == old(storage.obsolete)
      decreases |rest|
    {
      var number :| number in rest;
      ApplyAdd(storage, c, number, files0, rest);
      rest := rest - {number};
    }
  }

  /** A file that the batch deletes again is not added at all. */
  method ApplyAdd(storage: BlobStorage, c: CfEdits, number: nat, ghost files0: Files, ghost rest: set<nat>)
    requires storage.Agrees() && Fits(files0, c) && LevelsFit(c, |storage.levels|)
    requires number in rest && rest <= c.added.Keys && AddedSoFar(files0, c, rest, storage.files)
    modifies storage
    ensures storage.Agrees() && |storage.levels| == old(|storage.levels|)
    ensures AddedSoFar(files0, c, rest - {number}, storage.files) && storage.obsolete == old(storage.obsolete)
  {
    AddStep(files0, c, rest, storage.files, number);
    if number !in c.deleted {
      storage.AddBlobFile(c.added[number]);
    }
  }

  /** A file that the batch adds is not marked. */
  method ApplyDelete(storage: BlobStorage, c: CfEdits, number: nat, ghost files0: Files, ghost obsolete0: seq<Gone>,
      ghost rest: set<nat>)
    requires storage.Agrees() && Fits(files0, c) && number in rest && rest <= c.deleted.Keys
    requires DeletedSoFar(files0, c, rest, storage.files) && MarkedSoFar(obsolete0, c, rest, storage.obsolete)
    modifies storage
    ensures storage.Agrees() && |storage.levels| == old(|storage.levels|)
    ensures DeletedSoFar(files0, c, rest - {number}, storage.files)
    ensures MarkedSoFar(obsolete0, c, rest - {number}, storage.obsolete)
  {
    DeleteStep(files0, c, rest, storage.files, number);
    MarkStep(obsolete0, c, rest, storage.obsolete, number);
    if number !in c.added {
      var found := storage.MarkFileObsolete(number, c.deleted[number]);
      assert found;
    }
  }

  method ApplyDeletes(storage: BlobStorage, c: CfEdits, ghost files0: Files)
    requires storage.Agrees() && Fits(files0, c) && DeletedSoFar(files0, c, c.deleted.Keys, storage.files)
    modifies storage
    ensures storage.Agrees() && |storage.levels| == old(|storage.levels|)
    ensures DeletedSoFar(files0, c, {}, storage.files) && MarkedSoFar(old(storage.obsolete), c, {}, storage.obsolete)
  {
    ghost var obsolete0 := storage.obsolete;
    MarkBegin(obsolete0, c);
    var rest := c.deleted.Keys;
    while rest != {}
      invariant rest <= c.deleted.Keys
      invariant storage.Agrees() && |storage.levels| == old(|storage.levels|)
      invariant DeletedSoFar(files0, c, rest, storage.files) && MarkedSoFar(obsolete0, c, rest, storage.obsolete)
      decreases |rest|
    {
      var number :| number in rest;
      ApplyDelete(storage, c, number, files0, obsolete0, rest);
      rest := rest - {number};
    }
  }

  /** CFEditCollector::Apply. After Seal it finds every file it has to mark. */
  method ApplyCf(storage: BlobStorage, c: CfEdits)
    requires storage.Agrees() && Fits(storage.files, c) && LevelsFit(c, |storage.levels|)
    modifies storage
    ensures storage.Agrees() && |storage.levels| == old(|storage.levels|)
    ensures storage.files == Applied(old(storage.files), c)
    ensures Grew(old(storage.obsolete), storage.obsolete, c)
  {
    ghost var files0 := storage.files;
    ApplyAdds(storage, c);
    AddsDone(files0, c, storage.files);
    ApplyDeletes(storage, c, files0);
    DeletesDone(files0, c, storage.files);
    MarksDone(old(storage.obsolete), c, storage.obsolete);
  }
}
