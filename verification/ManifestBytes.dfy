/** Recovery from the bytes of a manifest. */
module ManifestBytes {
  import opened Types
  import opened Storage
  import opened Edits
  import opened Manifest
  import opened Replay
  import opened ReplayTheorems
  import opened Codec

  function EncodeAll(es: seq<Edit>): seq<Bytes> {
    if es == [] then [] else EncodeAll(es[..|es| - 1]) + [EncodeEdit(es[|es| - 1])]
  }

  function DecodeAll(records: seq<Bytes>): Option<seq<Edit>> {
    if records == [] then Some([])
    else
      var before, last := DecodeAll(records[..|records| - 1]), DecodeTags(records[|records| - 1], EMPTY_EDIT);
      if before.None? || last.None? then None else Some(before.value + [last.value])
  }

  function PersistedAll(es: seq<Edit>): (r: seq<Edit>)
    ensures |r| == |es|
  {
    if es == [] then [] else PersistedAll(es[..|es| - 1]) + [Persisted(es[|es| - 1])]
  }

  lemma DecodeLast(records: seq<Bytes>, record: Bytes, before: seq<Edit>, e: Edit)
    requires DecodeAll(records) == Some(before) && DecodeTags(record, EMPTY_EDIT) == Some(e)
    ensures DecodeAll(records + [record]) == Some(before + [e])
  {
    assert (records + [record])[..|records|] == records;
  }

  lemma {:induction false} AllBack(es: seq<Edit>)
    requires forall i :: 0 <= i < |es| ==> EditFits(es[i])
    ensures DecodeAll(EncodeAll(es)) == Some(PersistedAll(es))
  {
    if es != [] {
      var prev, e := es[..|es| - 1], es[|es| - 1];
      AllBack(prev);
      EditBack(e);
      DecodeLast(EncodeAll(prev), EncodeEdit(e), PersistedAll(prev), Persisted(e));
    }
  }

  // ---- what recovery needs does not depend on the obsolete sequences

  lemma {:induction false} UnsequencedConcat(a: seq<Gone>, b: seq<Gone>)
    ensures Unsequenced(a + b) == Unsequenced(a) + Unsequenced(b)
  {
  }

  lemma {:induction false} UnsequencedDels(d: seq<Gone>)
    ensures Dels(Unsequenced(d)).Keys == Dels(d).Keys
    ensures DelsFit({}, Unsequenced(d)) <==> DelsFit({}, d)
  {
    if d != [] {
      var last := |d| - 1;
      UnsequencedDels(d[..last]);
      assert Unsequenced(d)[..last] == Unsequenced(d[..last]);
    }
  }

  lemma {:induction false} PersistedSays(es: seq<Edit>, cf: nat)
    ensures AddsOf(PersistedAll(es), cf) == AddsOf(es, cf)
    ensures DelsOf(PersistedAll(es), cf) == Unsequenced(DelsOf(es, cf))
    ensures LastNext(PersistedAll(es)) == LastNext(es)
    ensures Rising(PersistedAll(es)) <==> Rising(es)
  {
    if es != [] {
      var prev, e := es[..|es| - 1], es[|es| - 1];
      PersistedSays(prev, cf);
      OneMore(PersistedAll(prev), Persisted(e), cf);
      UnsequencedConcat(DelsOf(prev, cf), if e.cf == cf then e.deleted else []);
    }
  }

  lemma PersistedFits(es: seq<Edit>)
    ensures EachFits(PersistedAll(es)) <==> EachFits(es)
  {
    forall cf
      ensures FitsAt(PersistedAll(es), cf) <==> FitsAt(es, cf)
    {
      PersistedSays(es, cf);
      UnsequencedDels(DelsOf(es, cf));
    }
    if EachFits(es) {
      assert forall cf :: FitsAt(es, cf);
    }
    if EachFits(PersistedAll(es)) {
      assert forall cf :: FitsAt(PersistedAll(es), cf);
    }
  }

  lemma PersistedCollects(es: seq<Edit>)
    ensures Collect(PersistedAll(es)).Some? <==> Collect(es).Some?
    ensures Collect(es).Some? ==> Collect(PersistedAll(es)).value.next == Collect(es).value.next
  {
    CollectIff(es);
    CollectIff(PersistedAll(es));
    PersistedSays(es, 0);
    PersistedFits(es);
  }

  lemma PersistedCf(es: seq<Edit>, cf: nat)
    requires Collect(es).Some? && Collect(PersistedAll(es)).Some?
    ensures var a, b := Of(Collect(es).value.cfs, cf), Of(Collect(PersistedAll(es)).value.cfs, cf);
            a.added == b.added && a.deleted.Keys == b.deleted.Keys
  {
    CollectIff(es);
    CollectIff(PersistedAll(es));
    assert HoldsAt(Collect(es).value.cfs, es, cf);
    assert HoldsAt(Collect(PersistedAll(es)).value.cfs, PersistedAll(es), cf);
    PersistedSays(es, cf);
    UnsequencedDels(DelsOf(es, cf));
  }

  lemma SameEffect(files: Files, a: CfEdits, b: CfEdits)
    requires a.added == b.added && a.deleted.Keys == b.deleted.Keys
    ensures Fits(files, a) <==> Fits(files, b)
    ensures Applied(files, a) == Applied(files, b)
  {
    assert forall n :: n in a.deleted <==> n in a.deleted.Keys;
    assert forall n :: n in b.deleted <==> n in b.deleted.Keys;
  }

  lemma {:induction false} CollectKeys(es: seq<Edit>, cf: nat)
    requires Collect(es).Some? && Collect(PersistedAll(es)).Some?
    ensures cf in Collect(es).value.cfs <==> cf in Collect(PersistedAll(es)).value.cfs
  {
    if es != [] {
      var prev := es[..|es| - 1];
      assert PersistedAll(es)[..|es| - 1] == PersistedAll(prev);
      CollectKeys(prev, cf);
    }
  }

  lemma PersistedRecovers(view: View, es: seq<Edit>)
    ensures Recovers(view, PersistedAll(es)) <==> Recovers(view, es)
    ensures Recovers(view, es) ==> Restored(view, PersistedAll(es)) == Restored(view, es)
  {
    PersistedCollects(es);
    if Collect(es).Some? {
      var a, b := Collect(es).value.cfs, Collect(PersistedAll(es)).value.cfs;
      forall cf
        ensures SameFor(a, b, cf)
      {
        CollectKeys(es, cf);
        PersistedCf(es, cf);
        SameEffect(map[], Of(a, cf), Of(b, cf));
      }
      SameBatches(EmptyView(view.Keys), a, b);
    }
  }

  /** Two batches do the same to an empty storage of this column family. */
  predicate SameFor(a: map<nat, CfEdits>, b: map<nat, CfEdits>, cf: nat) {
    && (cf in a <==> cf in b)
    && (Fits(map[], Of(a, cf)) <==> Fits(map[], Of(b, cf)))
    && Applied(map[], Of(a, cf)) == Applied(map[], Of(b, cf))
  }

  lemma SameBatches(view: View, a: map<nat, CfEdits>, b: map<nat, CfEdits>)
    requires forall c :: c in view ==> view[c] == map[]
    requires forall cf :: SameFor(a, b, cf)
    ensures FitsAll(view, a) <==> FitsAll(view, b)
    ensures AppliedAll(view, a) == AppliedAll(view, b)
  {
    forall c | c in view
      ensures c in a <==> c in b
      ensures c in a ==> (Fits(view[c], a[c]) <==> Fits(view[c], b[c])) && Applied(view[c], a[c]) == Applied(view[c], b[c])
    {
      assert SameFor(a, b, c);
    }
  }

  /**
   The replay theorem on bytes: after any run, decoding the records of the manifest succeeds, and
   replaying what was decoded has the same outcome as replaying the edits that were logged.
   */
  lemma ManifestBytesReplay(init: State, evs: seq<Event>)
    requires Initial(init) && ValidRun(init, evs)
    requires forall i :: 0 <= i < |Run(init, evs).manifest| ==> EditFits(Run(init, evs).manifest[i])
    ensures var s, decoded := Run(init, evs), DecodeAll(EncodeAll(Run(init, evs).manifest));
            && decoded.Some?
            && (Recovers(s.view, decoded.value) <==> StrayDeletesDistinct(s))
            && (Recovers(s.view, decoded.value) ==> RestoresLive(s.view, decoded.value))
  {
    var s := Run(init, evs);
    ManifestReplay(init, evs);
    AllBack(s.manifest);
    PersistedRecovers(s.view, s.manifest);
    if Recovers(s.view, s.manifest) {
      PersistedCollects(s.manifest);
      forall c | c in s.view
        ensures RestoredAt(s.view, PersistedAll(s.manifest), c)
      {
        assert RestoredAt(s.view, s.manifest, c);
      }
    }
  }
}
