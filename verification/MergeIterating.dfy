/** Merging the sorted records of several blob files. */
module MergeIterating {
  import opened Types
  import opened Ordering

  /** Record p of input file i. */
  datatype Spot = Spot(file: nat, pos: nat)

  predicate SortedRun(le: Le, run: seq<Rec>) {
    forall i, j :: 0 <= i < j < |run| ==> le(run[i].key, run[j].key)
  }

  predicate AllSorted(le: Le, runs: seq<seq<Rec>>) {
    forall i :: 0 <= i < |runs| ==> SortedRun(le, runs[i])
  }

  predicate InRange(runs: seq<seq<Rec>>, pos: seq<nat>) {
    |pos| == |runs| && forall i :: 0 <= i < |runs| ==> pos[i] <= |runs[i]|
  }

  /** An iterator that still has a record. */
  predicate Live(runs: seq<seq<Rec>>, pos: seq<nat>, i: nat)
    requires InRange(runs, pos)
  {
    i < |runs| && pos[i] < |runs[i]|
  }

  function KeyAt(runs: seq<seq<Rec>>, pos: seq<nat>, i: nat): Key
    requires InRange(runs, pos) && Live(runs, pos, i)
  {
    runs[i][pos[i]].key
  }

  predicate IsMin(le: Le, runs: seq<seq<Rec>>, pos: seq<nat>, among: set<nat>, top: nat)
    requires InRange(runs, pos) && forall i :: i in among ==> Live(runs, pos, i)
  {
    top in among && forall i :: i in among ==> le(KeyAt(runs, pos, top), KeyAt(runs, pos, i))
  }

  lemma {:induction false} MinExists(le: Le, runs: seq<seq<Rec>>, pos: seq<nat>, among: set<nat>)
    requires Total(le) && InRange(runs, pos) && among != {} && forall i :: i in among ==> Live(runs, pos, i)
    ensures exists top :: IsMin(le, runs, pos, among, top)
    decreases |among|
  {
    var x :| x in among;
    if among == {x} {
      assert IsMin(le, runs, pos, among, x);
    } else {
      var rest := among - {x};
      assert rest != {};
      MinExists(le, runs, pos, rest);
      var m :| IsMin(le, runs, pos, rest, m);
      var top := if le(KeyAt(runs, pos, m), KeyAt(runs, pos, x)) then m else x;
      forall i | i in among
        ensures le(KeyAt(runs, pos, top), KeyAt(runs, pos, i))
      {
        assert i == x || i in rest;
      }
      assert IsMin(le, runs, pos, among, top);
    }
  }

  /** Records not yet passed by the first n iterators. */
  function Left(runs: seq<seq<Rec>>, pos: seq<nat>, n: nat): nat
    requires InRange(runs, pos) && n <= |runs|
  {
    if n == 0 then 0 else Left(runs, pos, n - 1) + |runs[n - 1]| - pos[n - 1]
  }

  lemma {:induction false} LeftStep(runs: seq<seq<Rec>>, pos: seq<nat>, c: nat, n: nat)
    requires InRange(runs, pos) && Live(runs, pos, c) && n <= |runs|
    ensures Left(runs, pos[c := pos[c] + 1], n) == Left(runs, pos, n) - if c < n then 1 else 0
  {
    if n > 0 {
      LeftStep(runs, pos, c, n - 1);
    }
  }

  /** The heap holds every live iterator but the current one, which has a smallest key. */
  ghost predicate Ready(le: Le, runs: seq<seq<Rec>>, pos: seq<nat>, heap: set<nat>, current: Option<nat>) {
    && Total(le) && AllSorted(le, runs) && InRange(runs, pos)
    && (forall i :: i in heap <==> Live(runs, pos, i) && current != Some(i))
    && match current
       case None => heap == {}
       case Some(c) => Live(runs, pos, c) && IsMin(le, runs, pos, heap + {c}, c)
  }

  class BlobFileMergeIterator {
    const le: Le
    const runs: seq<seq<Rec>>
    var pos: seq<nat>
    var heap: set<nat>
    var current: Option<nat>
    var ok: bool

    ghost predicate Inv()
      reads this
    {
      Ready(le, runs, pos, heap, current)
    }

    constructor (le: Le, runs: seq<seq<Rec>>)
      requires Total(le) && AllSorted(le, runs)
      ensures this.le == le && this.runs == runs && current == None && heap == {}
      ensures pos == seq(|runs|, _ => 0)
    {
      this.le, this.runs := le, runs;
      pos := seq(|runs|, _ => 0);
      heap, current, ok := {}, None, true;
    }

    /** Takes a smallest iterator off the heap; any of several equal ones. */
    method PopTop()
      requires Total(le) && AllSorted(le, runs) && InRange(runs, pos) && heap != {}
      requires forall i :: i in heap <==> Live(runs, pos, i)
      modifies this`heap, this`current
      ensures Inv() && current.Some?
    {
      MinExists(le, runs, pos, heap);
      var top :| IsMin(le, runs, pos, heap, top);
      assert heap - {top} + {top} == heap;
      current, heap := Some(top), heap - {top};
    }

    method SeekToFirst()
      requires Total(le) && AllSorted(le, runs) && pos == seq(|runs|, _ => 0) && heap == {} && current == None
      modifies this
      ensures Inv() && pos == old(pos)
      ensures current.Some? <==> exists i :: 0 <= i < |runs| && runs[i] != []
    {
      for i := 0 to |runs|
        invariant pos == old(pos) && current == None
        invariant forall k: nat :: k in heap <==> k < i && Live(runs, pos, k)
      {
        if pos[i] < |runs[i]| {
          heap := heap + {i};
        }
      }
      if heap != {} {
        ghost var any :| any in heap;
        assert runs[any] != [];
        PopTop();
      } else {
        ok := false;
        forall i | 0 <= i < |runs|
          ensures runs[i] == []
        {
          assert i !in heap;
        }
      }
    }

    method Next()
      requires Inv() && current.Some?
      modifies this
      ensures Inv() && pos == old(pos)[old(current).value := old(pos)[old(current).value] + 1]
    {
      var c := current.value;
      pos := pos[c := pos[c] + 1];
      if pos[c] < |runs[c]| {
        heap := heap + {c};
      }
      if heap != {} {
        PopTop();
      } else {
        current := None;
      }
    }
  }

  /** What has been yielded: every record that the iterators have passed, each once, in key order. */
  ghost predicate Yielded(le: Le, runs: seq<seq<Rec>>, pos: seq<nat>, out: seq<Spot>)
    requires InRange(runs, pos)
  {
    && (forall n :: 0 <= n < |out| ==> out[n].file < |runs| && out[n].pos < pos[out[n].file])
    && (forall i, p :: 0 <= i < |runs| && 0 <= p < pos[i] ==> Spot(i, p) in out)
    && (forall m, n :: 0 <= m < n < |out| ==> out[m] != out[n])
    && (forall m, n :: 0 <= m < n < |out| ==>
          le(runs[out[m].file][out[m].pos].key, runs[out[n].file][out[n].pos].key))
    && (forall m, i :: 0 <= m < |out| && Live(runs, pos, i) ==> le(runs[out[m].file][out[m].pos].key, KeyAt(runs, pos, i)))
  }

  lemma YieldOne(le: Le, runs: seq<seq<Rec>>, pos: seq<nat>, out: seq<Spot>, c: nat)
    requires Total(le) && AllSorted(le, runs) && InRange(runs, pos) && Yielded(le, runs, pos, out)
    requires Live(runs, pos, c) && forall i :: Live(runs, pos, i) ==> le(KeyAt(runs, pos, c), KeyAt(runs, pos, i))
    ensures Yielded(le, runs, pos[c := pos[c] + 1], out + [Spot(c, pos[c])])
  {
    var out', pos' := out + [Spot(c, pos[c])], pos[c := pos[c] + 1];
    forall i, p | 0 <= i < |runs| && 0 <= p < pos'[i]
      ensures Spot(i, p) in out'
    {
      if i == c && p == pos[c] {
        assert out'[|out|] == Spot(i, p);
      } else {
        assert Spot(i, p) in out;
      }
    }
    forall m, i | 0 <= m < |out'| && Live(runs, pos', i)
      ensures le(runs[out'[m].file][out'[m].pos].key, KeyAt(runs, pos', i))
    {
      assert Live(runs, pos, i);
      assert le(KeyAt(runs, pos, i), KeyAt(runs, pos', i));
    }
  }

  /** All records, each once, sorted by key. */
  predicate ExactMerge(le: Le, runs: seq<seq<Rec>>, out: seq<Spot>) {
    && (forall i, p :: 0 <= i < |runs| && 0 <= p < |runs[i]| ==> Spot(i, p) in out)
    && (forall n :: 0 <= n < |out| ==> out[n].file < |runs| && out[n].pos < |runs[out[n].file]|)
    && (forall m, n :: 0 <= m < n < |out| ==> out[m] != out[n])
    && (forall m, n :: 0 <= m < n < |out| ==>
          le(runs[out[m].file][out[m].pos].key, runs[out[n].file][out[n].pos].key))
  }

  lemma YieldCurrent(le: Le, runs: seq<seq<Rec>>, pos: seq<nat>, heap: set<nat>, c: nat, out: seq<Spot>)
    requires Ready(le, runs, pos, heap, Some(c)) && Yielded(le, runs, pos, out)
    ensures InRange(runs, pos[c := pos[c] + 1])
    ensures Yielded(le, runs, pos[c := pos[c] + 1], out + [Spot(c, pos[c])])
    ensures Left(runs, pos[c := pos[c] + 1], |runs|) < Left(runs, pos, |runs|)
  {
    forall i | Live(runs, pos, i)
      ensures le(KeyAt(runs, pos, c), KeyAt(runs, pos, i))
    {
      assert i in heap + {c};
    }
    YieldOne(le, runs, pos, out, c);
    LeftStep(runs, pos, c, |runs|);
  }

  lemma NothingLeft(le: Le, runs: seq<seq<Rec>>, pos: seq<nat>, heap: set<nat>, out: seq<Spot>)
    requires Ready(le, runs, pos, heap, None) && Yielded(le, runs, pos, out)
    ensures ExactMerge(le, runs, out)
  {
    forall i | 0 <= i < |runs|
      ensures pos[i] == |runs[i]|
    {
      assert i !in heap;
    }
    YieldedAll(le, runs, pos, out);
  }

  lemma YieldedAll(le: Le, runs: seq<seq<Rec>>, pos: seq<nat>, out: seq<Spot>)
    requires InRange(runs, pos) && Yielded(le, runs, pos, out) && forall i :: 0 <= i < |runs| ==> pos[i] == |runs[i]|
    ensures ExactMerge(le, runs, out)
  {
  }

  /**
   The whole merge: every record of every file exactly once, in non-decreasing key order, each
   named by its own file and ordinal.
   */
  method MergeAll(le: Le, runs: seq<seq<Rec>>) returns (out: seq<Spot>)
    requires Total(le) && AllSorted(le, runs)
    ensures ExactMerge(le, runs, out)
  {
    var it := new BlobFileMergeIterator(le, runs);
    it.SeekToFirst();
    out := [];
    while it.current.Some?
      invariant it.le == le && it.runs == runs && it.Inv() && fresh(it)
      invariant Yielded(le, runs, it.pos, out)
      decreases Left(runs, it.pos, |runs|)
    {
      var c := it.current.value;
      YieldCurrent(le, runs, it.pos, it.heap, c, out);
      out := out + [Spot(c, it.pos[c])];
      it.Next();
    }
    NothingLeft(le, runs, it.pos, it.heap, out);
  }
}
