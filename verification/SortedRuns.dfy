/** The sweep that marks blob files when too many of them overlap. */
module SortedRuns {
  import opened Types
  import opened Ordering

  datatype KeyRange = KeyRange(smallest: Key, largest: Key)

  /** One end of a file's key range. */
  datatype End = End(file: nat, isSmallest: bool)

  function KeyOf(files: seq<KeyRange>, e: End): Key
    requires e.file < |files|
  {
    if e.isSmallest then files[e.file].smallest else files[e.file].largest
  }

  /** The sort order: by key, and for equal keys the largest ends first. */
  predicate Before(le: Le, files: seq<KeyRange>, a: End, b: End)
    requires a.file < |files| && b.file < |files|
  {
    Less(le, KeyOf(files, a), KeyOf(files, b)) ||
    (KeyOf(files, a) == KeyOf(files, b) && !a.isSmallest && b.isSmallest)
  }

  /** Both ends of every file, each once, in an order that the sort may produce. */
  predicate SortedEnds(le: Le, files: seq<KeyRange>, ends: seq<End>) {
    && (forall i :: 0 <= i < |ends| ==> ends[i].file < |files|)
    && (forall f, b :: 0 <= f < |files| ==> End(f, b) in ends)
    && Unique(ends)
    && (forall i, j :: 0 <= i < j < |ends| ==> !Before(le, files, ends[j], ends[i]))
  }

  // ---- what the sweep has in its set

  predicate Started(ends: seq<End>, n: nat, f: nat)
    requires n <= |ends|
  {
    exists i :: 0 <= i < n && ends[i] == End(f, true)
  }

  predicate Stopped(ends: seq<End>, n: nat, f: nat)
    requires n <= |ends|
  {
    exists i, j :: 0 <= i < j < n && ends[i] == End(f, true) && ends[j] == End(f, false)
  }

  /** The files in the set after the first n ends. */
  function Active(ends: seq<End>, n: nat): set<nat>
    requires n <= |ends|
  {
    if n == 0 then {}
    else if ends[n - 1].isSmallest then Active(ends, n - 1) + {ends[n - 1].file}
    else Active(ends, n - 1) - {ends[n - 1].file}
  }

  predicate Unique(ends: seq<End>) {
    forall i, j :: 0 <= i < j < |ends| ==> ends[i] != ends[j]
  }

  /** A file is in the set when it has started and has not stopped after that. */
  lemma {:induction false} ActiveIs(ends: seq<End>, n: nat, f: nat)
    requires Unique(ends) && n <= |ends|
    ensures f in Active(ends, n) <==> Started(ends, n, f) && !Stopped(ends, n, f)
  {
    if n > 0 {
      ActiveIs(ends, n - 1, f);
      var e := ends[n - 1];
      if e == End(f, true) {
        assert 0 <= n - 1 < n && ends[n - 1] == End(f, true);
      } else if Started(ends, n - 1, f) {
        var i :| 0 <= i < n - 1 && ends[i] == End(f, true);
        assert 0 <= i < n && ends[i] == End(f, true);
        if e == End(f, false) {
          assert 0 <= i < n - 1 < n && ends[i] == End(f, true) && ends[n - 1] == End(f, false);
        } else {
          StoppedEarlier(ends, n, f);
        }
      }
    }
  }

  lemma StoppedEarlier(ends: seq<End>, n: nat, f: nat)
    requires 0 < n <= |ends| && ends[n - 1].file != f
    ensures Stopped(ends, n, f) <==> Stopped(ends, n - 1, f)
  {
    if Stopped(ends, n, f) {
      var i, j :| 0 <= i < j < n && ends[i] == End(f, true) && ends[j] == End(f, false);
      assert 0 <= i < j < n - 1 && ends[i] == End(f, true) && ends[j] == End(f, false);
    }
    if Stopped(ends, n - 1, f) {
      var i, j :| 0 <= i < j < n - 1 && ends[i] == End(f, true) && ends[j] == End(f, false);
      assert 0 <= i < j < n && ends[i] == End(f, true) && ends[j] == End(f, false);
    }
  }

  predicate MarkedAt(ends: seq<End>, maxRuns: nat, i: nat, f: nat)
    requires i < |ends|
  {
    ends[i].isSmallest && f in Active(ends, i + 1) && |Active(ends, i + 1)| > maxRuns
  }

  /** The files marked by the first n ends. */
  function Marks(ends: seq<End>, maxRuns: nat, n: nat): set<nat>
    requires n <= |ends|
  {
    if n == 0 then {}
    else if ends[n - 1].isSmallest && |Active(ends, n)| > maxRuns then Marks(ends, maxRuns, n - 1) + Active(ends, n)
    else Marks(ends, maxRuns, n - 1)
  }

  lemma {:induction false} MarksIs(ends: seq<End>, maxRuns: nat, n: nat, f: nat)
    requires n <= |ends|
    ensures f in Marks(ends, maxRuns, n) <==> exists i :: 0 <= i < n && MarkedAt(ends, maxRuns, i, f)
  {
    if n > 0 {
      MarksIs(ends, maxRuns, n - 1, f);
      if f in Marks(ends, maxRuns, n) && f !in Marks(ends, maxRuns, n - 1) {
        assert MarkedAt(ends, maxRuns, n - 1, f);
      }
    }
  }

  // ---- the definition

  /** The file's range contains k; a file whose ends are not apart never leaves the set again. */
  predicate Covers(le: Le, f: KeyRange, k: Key) {
    le(f.smallest, k) && (Less(le, k, f.largest) || !Less(le, f.smallest, f.largest))
  }

  function Cover(le: Le, files: seq<KeyRange>, k: Key): set<nat> {
    set f: nat | f < |files| && Covers(le, files[f], k)
  }

  /** Some file starts inside f where more than maxRuns ranges overlap. */
  predicate NeedsMerge(le: Le, files: seq<KeyRange>, maxRuns: nat, f: nat) {
    exists g :: 0 <= g < |files| && f in Cover(le, files, files[g].smallest)
                && |Cover(le, files, files[g].smallest)| > maxRuns
  }

  lemma ActiveCovers(le: Le, files: seq<KeyRange>, ends: seq<End>, i: nat)
    requires Total(le) && SortedEnds(le, files, ends) && i < |ends| && ends[i].isSmallest
    ensures Active(ends, i + 1) <= Cover(le, files, files[ends[i].file].smallest)
  {
    var k := files[ends[i].file].smallest;
    forall f | f in Active(ends, i + 1)
      ensures f in Cover(le, files, k)
    {
      ActiveCovered(le, files, ends, i, f);
    }
  }

  lemma EndIsLater(le: Le, files: seq<KeyRange>, ends: seq<End>, i: nat, s: nat, f: nat)
    requires Total(le) && SortedEnds(le, files, ends) && s <= i < |ends| && ends[i].isSmallest && ends[s] == End(f, true)
    requires f < |files| && Less(le, files[f].smallest, files[f].largest) && !Stopped(ends, i + 1, f)
    ensures Less(le, files[ends[i].file].smallest, files[f].largest)
  {
    assert End(f, false) in ends;
    var e :| 0 <= e < |ends| && ends[e] == End(f, false);
    assert Before(le, files, ends[s], ends[e]);
    assert i < e;
    assert !Before(le, files, ends[e], ends[i]);
  }

  lemma StartedCovered(le: Le, files: seq<KeyRange>, ends: seq<End>, i: nat, s: nat, f: nat)
    requires Total(le) && SortedEnds(le, files, ends) && s <= i < |ends| && ends[i].isSmallest
    requires ends[s] == End(f, true) && !Stopped(ends, i + 1, f)
    ensures f < |files| && Covers(le, files[f], files[ends[i].file].smallest)
  {
    assert f < |files|;
    assert s < i ==> !Before(le, files, ends[i], ends[s]);
    if Less(le, files[f].smallest, files[f].largest) {
      EndIsLater(le, files, ends, i, s, f);
    }
  }

  lemma ActiveCovered(le: Le, files: seq<KeyRange>, ends: seq<End>, i: nat, f: nat)
    requires Total(le) && SortedEnds(le, files, ends) && i < |ends| && ends[i].isSmallest
    requires f in Active(ends, i + 1)
    ensures f < |files| && Covers(le, files[f], files[ends[i].file].smallest)
  {
    ActiveIs(ends, i + 1, f);
    var s :| 0 <= s < i + 1 && ends[s] == End(f, true);
    StartedCovered(le, files, ends, i, s, f);
  }

  /** i is the last start at its key. */
  predicate LastStart(files: seq<KeyRange>, ends: seq<End>, i: nat) {
    && i < |ends| && ends[i].isSmallest
    && (forall j :: 0 <= j < |ends| ==> ends[j].file < |files|)
    && (forall j :: i < j < |ends| && ends[j].isSmallest ==> KeyOf(files, ends[j]) != KeyOf(files, ends[i]))
  }

  lemma {:induction false} FindLast(le: Le, files: seq<KeyRange>, ends: seq<End>, i: nat) returns (last: nat)
    requires SortedEnds(le, files, ends) && i < |ends| && ends[i].isSmallest
    ensures LastStart(files, ends, last) && KeyOf(files, ends[last]) == KeyOf(files, ends[i])
    decreases |ends| - i
  {
    if j :| i < j < |ends| && ends[j].isSmallest && KeyOf(files, ends[j]) == KeyOf(files, ends[i]) {
      last := FindLast(le, files, ends, j);
    } else {
      last := i;
    }
  }

  lemma CoverIsActive(le: Le, files: seq<KeyRange>, ends: seq<End>, i: nat)
    requires Total(le) && SortedEnds(le, files, ends) && LastStart(files, ends, i)
    ensures Cover(le, files, KeyOf(files, ends[i])) <= Active(ends, i + 1)
  {
    var k := KeyOf(files, ends[i]);
    forall f | f in Cover(le, files, k)
      ensures f in Active(ends, i + 1)
    {
      ActiveIs(ends, i + 1, f);
      assert End(f, true) in ends;
      var s :| 0 <= s < |ends| && ends[s] == End(f, true);
      assert i < s ==> !Before(le, files, ends[s], ends[i]);
      assert s < i + 1;
      NotStopped(le, files, ends, i, f);
    }
  }

  lemma NotStopped(le: Le, files: seq<KeyRange>, ends: seq<End>, i: nat, f: nat)
    requires Total(le) && SortedEnds(le, files, ends) && i < |ends| && ends[i].isSmallest
    requires f in Cover(le, files, KeyOf(files, ends[i]))
    ensures !Stopped(ends, i + 1, f)
  {
  }

  lemma SubsetSize(a: set<nat>, b: set<nat>)
    requires a <= b
    ensures |a| <= |b|
  {
    assert b == a + (b - a);
  }

  /** The sweep marks a file exactly when it needs merging, whatever order the sort gave to equal ends. */
  lemma SweepIsExact(le: Le, files: seq<KeyRange>, ends: seq<End>, maxRuns: nat, f: nat)
    requires Total(le) && SortedEnds(le, files, ends)
    ensures f in Marks(ends, maxRuns, |ends|) <==> NeedsMerge(le, files, maxRuns, f)
  {
    MarksIs(ends, maxRuns, |ends|, f);
    if i :| 0 <= i < |ends| && MarkedAt(ends, maxRuns, i, f) {
      ActiveCovers(le, files, ends, i);
      SubsetSize(Active(ends, i + 1), Cover(le, files, files[ends[i].file].smallest));
    }
    if NeedsMerge(le, files, maxRuns, f) {
      var g :| 0 <= g < |files| && f in Cover(le, files, files[g].smallest) && |Cover(le, files, files[g].smallest)| > maxRuns;
      assert End(g, true) in ends;
      var i :| 0 <= i < |ends| && ends[i] == End(g, true);
      var last := FindLast(le, files, ends, i);
      CoverIsActive(le, files, ends, last);
      SubsetSize(Cover(le, files, files[g].smallest), Active(ends, last + 1));
      assert MarkedAt(ends, maxRuns, last, f);
    }
  }

  /** The ranges as designed: closed at the smallest key, open at the largest. */
  function HalfOpenCover(le: Le, files: seq<KeyRange>, k: Key): set<nat> {
    set f: nat | f < |files| && le(files[f].smallest, k) && Less(le, k, files[f].largest)
  }

  predicate NeedsMergeAsDesigned(le: Le, files: seq<KeyRange>, maxRuns: nat, f: nat) {
    exists g :: 0 <= g < |files| && f in HalfOpenCover(le, files, files[g].smallest)
                && |HalfOpenCover(le, files, files[g].smallest)| > maxRuns
  }

  /** With two different ends in every file the sweep does what it was designed for. */
  lemma AsDesigned(le: Le, files: seq<KeyRange>, ends: seq<End>, maxRuns: nat, f: nat)
    requires Total(le) && SortedEnds(le, files, ends)
    requires forall i :: 0 <= i < |files| ==> Less(le, files[i].smallest, files[i].largest)
    ensures f in Marks(ends, maxRuns, |ends|) <==> NeedsMergeAsDesigned(le, files, maxRuns, f)
  {
    SweepIsExact(le, files, ends, maxRuns, f);
    forall k
      ensures HalfOpenCover(le, files, k) == Cover(le, files, k)
    {
    }
  }

  lemma OwnStartMarks(le: Le, files: seq<KeyRange>, i: nat)
    requires Total(le) && i < |files| && !Less(le, files[i].smallest, files[i].largest)
    ensures NeedsMerge(le, files, 0, i) && !NeedsMergeAsDesigned(le, files, 0, i)
  {
    var cover := Cover(le, files, files[i].smallest);
    assert Covers(le, files[i], files[i].smallest);
    SubsetSize({i}, cover);
    assert i in cover && |cover| > 0;
  }

  /** The sweep follows the design under every limit exactly when no file has its ends together. */
  lemma AsDesignedIff(le: Le, files: seq<KeyRange>, ends: seq<End>)
    requires Total(le) && SortedEnds(le, files, ends)
    ensures (forall maxRuns, f :: f in Marks(ends, maxRuns, |ends|) <==> NeedsMergeAsDesigned(le, files, maxRuns, f))
            <==> forall i :: 0 <= i < |files| ==> Less(le, files[i].smallest, files[i].largest)
  {
    if forall i :: 0 <= i < |files| ==> Less(le, files[i].smallest, files[i].largest) {
      forall maxRuns, f
        ensures f in Marks(ends, maxRuns, |ends|) <==> NeedsMergeAsDesigned(le, files, maxRuns, f)
      {
        AsDesigned(le, files, ends, maxRuns, f);
      }
    } else {
      var i :| 0 <= i < |files| && !Less(le, files[i].smallest, files[i].largest);
      OwnStartMarks(le, files, i);
      SweepIsExact(le, files, ends, 0, i);
    }
  }

  /** A file with a single key is never taken out of the set, and is marked far behind its end. */
  lemma SingleKeyIsMarked(le: Le, a: Key, b: Key, c: Key)
    requires Total(le) && Less(le, a, b) && Less(le, b, c)
    ensures var files := [KeyRange(a, a), KeyRange(b, c)];
            NeedsMerge(le, files, 1, 0) && !NeedsMergeAsDesigned(le, files, 1, 0)
  {
    var files := [KeyRange(a, a), KeyRange(b, c)];
    var cover := Cover(le, files, files[1].smallest);
    assert Covers(le, files[0], b) && Covers(le, files[1], b);
    SubsetSize({0, 1}, cover);
    assert 0 in cover && |cover| > 1;
  }

  /** MarkFileIfNeedMerge after its sort: whatever order equal ends came in, exactly the files that need it. */
  method Sweep(le: Le, files: seq<KeyRange>, ends: seq<End>, maxRuns: nat) returns (marked: set<nat>)
    requires Total(le) && SortedEnds(le, files, ends)
    ensures forall f :: f in marked <==> NeedsMerge(le, files, maxRuns, f)
  {
    var active: set<nat> := {};
    marked := {};
    for n := 0 to |ends|
      invariant active == Active(ends, n) && marked == Marks(ends, maxRuns, n)
    {
      if ends[n].isSmallest {
        active := active + {ends[n].file};
        if |active| > maxRuns {
          marked := marked + active;
        }
      } else {
        active := active - {ends[n].file};
      }
    }
    forall f: nat
      ensures f in marked <==> NeedsMerge(le, files, maxRuns, f)
    {
      SweepIsExact(le, files, ends, maxRuns, f);
    }
  }
}
