/**
 The base DB as Titan sees it: a log of versioned writes.

 The entry at position i carries sequence number i + 1, so a read at sequence p sees
 exactly the entries at positions below p.  A value is stored inline, as a blob index,
 or is a tombstone; `Hole` marks an entry that compaction has dropped.
 */
module Lsm {
  import opened Types

  /** A blob index: file number and the record's place in that file. */
  datatype Ix = Ix(file: nat, pos: nat)

  datatype Val = Inline(v: Value) | Blob(ix: Ix) | Tomb | Hole

  datatype Entry = Entry(key: Key, val: Val)

  predicate Holds(e: Entry, k: Key) {
    e.key == k && e.val != Hole
  }

  /** Position of the newest entry for k below p, or -1. */
  function Pos(log: seq<Entry>, p: nat, k: Key): (i: int)
    requires p <= |log|
    ensures -1 <= i < p
    ensures 0 <= i ==> Holds(log[i], k)
    ensures forall j :: 0 <= j && i < j < p ==> !Holds(log[j], k)
  {
    if p == 0 then -1
    else if Holds(log[p - 1], k) then p - 1
    else Pos(log, p - 1, k)
  }

  /** What the base DB returns for k at sequence p; a missing key reads as a tombstone. */
  function Look(log: seq<Entry>, p: nat, k: Key): Val
    requires p <= |log|
  {
    var i := Pos(log, p, k);
    if i < 0 then Tomb else log[i].val
  }

  /** The newest entry is determined by what it holds, not by how it was found. */
  lemma PosUnique(log: seq<Entry>, p: nat, k: Key, i: int)
    requires p <= |log| && -1 <= i < p
    requires 0 <= i ==> Holds(log[i], k)
    requires forall j :: 0 <= j && i < j < p ==> !Holds(log[j], k)
    ensures Pos(log, p, k) == i
  {
  }

  lemma LookAppend(log: seq<Entry>, e: Entry, p: nat, k: Key)
    requires p <= |log| + 1 && e.val != Hole
    ensures p <= |log| ==> Look(log + [e], p, k) == Look(log, p, k)
    ensures p == |log| + 1 ==> Look(log + [e], p, k) == if e.key == k then e.val else Look(log, |log|, k)
  {
    var l' := log + [e];
    if p <= |log| {
      var i := Pos(log, p, k);
      PosUnique(l', p, k, i);
    } else if e.key == k {
      PosUnique(l', p, k, |log|);
    } else {
      var i := Pos(log, |log|, k);
      PosUnique(l', p, k, i);
    }
  }

  lemma LookPrefix(log: seq<Entry>, n: nat, p: nat, k: Key)
    requires p <= n <= |log|
    ensures Look(log[..n], p, k) == Look(log, p, k)
  {
    PosUnique(log[..n], p, k, Pos(log, p, k));
  }

  /** Flush and compaction rewrite entries in place, at the same key and sequence. */
  function Replace(log: seq<Entry>, plan: map<nat, Val>): (r: seq<Entry>)
    ensures |r| == |log|
    ensures forall i :: 0 <= i < |log| ==> r[i] == if i in plan then Entry(log[i].key, plan[i]) else log[i]
  {
    seq(|log|, i requires 0 <= i < |log| => if i in plan then Entry(log[i].key, plan[i]) else log[i])
  }

  lemma PosReplace(log: seq<Entry>, plan: map<nat, Val>, p: nat, k: Key)
    requires p <= |log|
    requires forall i :: i in plan && i < |log| ==> plan[i] != Hole && log[i].val != Hole
    ensures Pos(Replace(log, plan), p, k) == Pos(log, p, k)
  {
    var i, l' := Pos(log, p, k), Replace(log, plan);
    forall j | 0 <= j < p
      ensures Holds(l'[j], k) == Holds(log[j], k)
    {
    }
    PosUnique(l', p, k, i);
  }

  /** Compaction drops entries. */
  function Drop(log: seq<Entry>, dropped: set<nat>): (r: seq<Entry>)
    ensures |r| == |log|
    ensures forall i :: 0 <= i < |log| ==> r[i] == if i in dropped then Entry(log[i].key, Hole) else log[i]
  {
    seq(|log|, i requires 0 <= i < |log| => if i in dropped then Entry(log[i].key, Hole) else log[i])
  }

  /** Some entry of the log points at ix. */
  predicate Refers(log: seq<Entry>, ix: Ix) {
    exists i :: 0 <= i < |log| && log[i].val == Blob(ix)
  }

  lemma LookRefers(log: seq<Entry>, p: nat, k: Key, ix: Ix)
    requires p <= |log| && Look(log, p, k) == Blob(ix)
    ensures Refers(log, ix)
  {
    var i := Pos(log, p, k);
    assert log[i].val == Blob(ix);
  }

  /**
   The specification: a plain versioned map with no blobs.  `Nop` holds the sequence
   number that a background write took.
   */
  datatype SpecOp = Put(key: Key, v: Value) | Del(key: Key) | Nop

  datatype Reply = NotFound | Found(v: Value) | Corruption

  predicate Writes(op: SpecOp, k: Key) {
    !op.Nop? && op.key == k
  }

  function SpecRead(ops: seq<SpecOp>, p: nat, k: Key): (r: Reply)
    requires p <= |ops|
    ensures r != Corruption
  {
    if p == 0 then NotFound
    else if Writes(ops[p - 1], k) then
      if ops[p - 1].Put? then Found(ops[p - 1].v) else NotFound
    else SpecRead(ops, p - 1, k)
  }

  lemma {:induction false} SpecReadPrefix(a: seq<SpecOp>, b: seq<SpecOp>, p: nat, k: Key)
    requires p <= |a| && p <= |b| && a[..p] == b[..p]
    ensures SpecRead(a, p, k) == SpecRead(b, p, k)
  {
    if p > 0 {
      assert a[..p][p - 1] == b[..p][p - 1];
      assert a[..p - 1] == a[..p][..p - 1] == b[..p][..p - 1] == b[..p - 1];
      SpecReadPrefix(a, b, p - 1, k);
    }
  }

  /** The user's own operations, with the background sequence numbers taken out. */
  function UserOps(ops: seq<SpecOp>): (r: seq<SpecOp>)
    ensures |r| <= |ops|
  {
    if ops == [] then []
    else UserOps(ops[..|ops| - 1]) + if ops[|ops| - 1].Nop? then [] else [ops[|ops| - 1]]
  }

  /** Reading the log at p is reading the map that ran only the user operations before p. */
  lemma {:induction false} SpecReadUserOps(ops: seq<SpecOp>, p: nat, k: Key)
    requires p <= |ops|
    ensures SpecRead(ops, p, k) == SpecRead(UserOps(ops[..p]), |UserOps(ops[..p])|, k)
  {
    if p > 0 {
      SpecReadUserOps(ops, p - 1, k);
      assert ops[..p][..p - 1] == ops[..p - 1];
      var u := UserOps(ops[..p - 1]);
      if !ops[p - 1].Nop? {
        assert UserOps(ops[..p]) == u + [ops[p - 1]];
        SpecReadPrefix(u, u + [ops[p - 1]], |u|, k);
      } else {
        assert UserOps(ops[..p]) == u;
      }
    }
  }
}
