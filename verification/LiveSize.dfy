/** The live data size of a blob file, kept up by events that may arrive in any order. */
module LiveSize {
  import opened Coding

  const TWO_63: int := 0x8000_0000_0000_0000

  /** A number as a signed 64-bit word. */
  function Signed(x: int): int {
    if -TWO_63 <= x < TWO_63 then x else (x + TWO_63) % TWO_64 - TWO_63
  }

  function Unsigned(x: int): nat {
    if 0 <= x < TWO_64 then x else x % TWO_64
  }

  /** Whether the creating event is still to come, and the number kept for the file. */
  datatype Size = Size(pending: bool, live: nat)

  /** A completion event with the change it saw in the referenced size of the file. */
  datatype Event = Flush(delta: int) | Compaction(delta: int)

  predicate Creates(e: Event) {
    if e.Flush? then e.delta >= 0 else e.delta > 0
  }

  predicate Shrinks(e: Event) {
    e.Compaction? && e.delta <= 0
  }

  function Updated(live: nat, delta: int): nat {
    var result := Signed(Signed(live) + delta);
    if result < 0 then 0 else result
  }

  /** While the creating event is missing, what later ones took away is kept as a positive number. */
  function Step(m: Size, e: Event): Size {
    if m.pending && Creates(e) then Size(false, Unsigned(e.delta - m.live))
    else if m.pending && e.Flush? then Size(false, Unsigned(0 - m.live))
    else if m.pending then m.(live := Updated(m.live, -e.delta))
    else if e.Flush? then m
    else m.(live := Updated(m.live, e.delta))
  }

  function Run(m: Size, es: seq<Event>): Size {
    if es == [] then m else Step(Run(m, es[..|es| - 1]), es[|es| - 1])
  }

  function Sum(es: seq<Event>): int {
    if es == [] then 0 else Sum(es[..|es| - 1]) + es[|es| - 1].delta
  }

  predicate AllShrink(es: seq<Event>) {
    forall i :: 0 <= i < |es| ==> Shrinks(es[i])
  }

  // ---- the handlers

  class BlobFileMeta {
    var pending: bool
    var live: nat

    ghost function Value(): Size
      reads this
    {
      Size(pending, live)
    }

    constructor ()
      ensures Value() == Size(true, 0)
    {
      pending, live := true, 0;
    }

    /** False, and zero, when the size would go below zero. */
    method UpdateLiveDataSize(delta: int) returns (ok: bool)
      modifies this`live
      ensures live == Updated(old(live), delta)
      ensures ok <==> Signed(Signed(old(live)) + delta) >= 0
      ensures old(live) < TWO_63 && -TWO_63 <= old(live) + delta < TWO_63 ==>
                (ok <==> old(live) + delta >= 0) && live == if ok then old(live) + delta else 0
    {
      var result := Signed(Signed(live) + delta);
      if result < 0 {
        live := 0;
        return false;
      }
      live := result;
      return true;
    }

    /** OnFlushCompleted for this file. */
    method OnFlush(total: int)
      modifies this
      ensures Value() == Step(old(Value()), Flush(total))
      ensures !pending && (!old(pending) ==> live == old(live))
    {
      if !pending {
        return;
      }
      var delta := if total < 0 then 0 else total;
      if live != 0 {
        delta := delta - live;
      }
      live := Unsigned(delta);
      pending := false;
    }

    /** OnCompactionCompleted for this file. */
    method OnCompaction(delta0: int)
      modifies this
      ensures Value() == Step(old(Value()), Compaction(delta0))
      ensures pending <==> old(pending) && delta0 <= 0
    {
      if pending {
        if delta0 <= 0 {
          var _ := UpdateLiveDataSize(-delta0);
          return;
        }
        var delta := delta0;
        if live != 0 {
          delta := delta - live;
        }
        live := Unsigned(delta);
        pending := false;
      } else {
        var _ := UpdateLiveDataSize(delta0);
      }
    }
  }

  // ---- any order

  lemma {:induction false} ShrinkSum(es: seq<Event>)
    requires AllShrink(es)
    ensures Sum(es) <= 0
  {
    if es != [] {
      ShrinkSum(es[..|es| - 1]);
    }
  }

  lemma UpdatedSmall(live: nat, delta: int)
    requires live < TWO_63 && 0 <= live + delta < TWO_63
    ensures Updated(live, delta) == live + delta
  {
  }

  /** Events before the creating one are only written down. */
  lemma {:induction false} Early(es: seq<Event>)
    requires AllShrink(es) && -Sum(es) < TWO_63
    ensures Sum(es) <= 0 && Run(Size(true, 0), es) == Size(true, -Sum(es))
  {
    if es != [] {
      ShrinkSum(es);
      ShrinkSum(es[..|es| - 1]);
      Early(es[..|es| - 1]);
      UpdatedSmall(-Sum(es[..|es| - 1]), -es[|es| - 1].delta);
    }
  }

  /** Events after it are subtracted at once. */
  lemma {:induction false} Late(live: nat, es: seq<Event>)
    requires AllShrink(es) && live < TWO_63 && live + Sum(es) >= 0
    ensures Run(Size(false, live), es) == Size(false, live + Sum(es))
  {
    if es != [] {
      ShrinkSum(es);
      ShrinkSum(es[..|es| - 1]);
      Late(live, es[..|es| - 1]);
      UpdatedSmall(live + Sum(es[..|es| - 1]), es[|es| - 1].delta);
    }
  }

  lemma {:induction false} RunSplit(m: Size, a: seq<Event>, b: seq<Event>)
    ensures Run(m, a + b) == Run(Run(m, a), b)
    ensures Sum(a + b) == Sum(a) + Sum(b)
  {
    if b == [] {
      assert a + b == a;
    } else {
      RunSplit(m, a, b[..|b| - 1]);
      assert (a + b)[..|a + b| - 1] == a + b[..|b| - 1];
    }
  }

  /** One creating event among shrinking ones. */
  predicate OneCreation(es: seq<Event>, c: nat) {
    c < |es| && Creates(es[c]) && AllShrink(es[..c]) && AllShrink(es[c + 1..])
  }

  lemma Created(early: seq<Event>, e: Event)
    requires AllShrink(early) && Creates(e) && e.delta < TWO_63 && e.delta + Sum(early) >= 0
    ensures Run(Size(true, 0), early + [e]) == Size(false, e.delta + Sum(early))
    ensures Sum(early + [e]) == Sum(early) + e.delta <= e.delta
  {
    Early(early);
    assert (early + [e])[..|early|] == early;
  }

  lemma SumSplit(early: seq<Event>, e: Event, late: seq<Event>)
    ensures Sum(early + [e] + late) == Sum(early) + e.delta + Sum(late)
  {
    RunSplit(Size(true, 0), early + [e], late);
    assert (early + [e])[..|early|] == early;
  }

  lemma Continue(m: Size, a: seq<Event>, m': Size, b: seq<Event>)
    requires Run(m, a) == m'
    ensures Run(m, a + b) == Run(m', b)
  {
    RunSplit(m, a, b);
  }

  lemma SplitSum(es: seq<Event>, c: nat)
    requires OneCreation(es, c)
    ensures Sum(es) == Sum(es[..c]) + es[c].delta + Sum(es[c + 1..])
    ensures Sum(es[..c]) <= 0 && Sum(es[c + 1..]) <= 0
  {
    assert es == es[..c] + [es[c]] + es[c + 1..];
    SumSplit(es[..c], es[c], es[c + 1..]);
    ShrinkSum(es[..c]);
    ShrinkSum(es[c + 1..]);
  }

  /** Whatever the place of the creating event among the others, the live size ends as the sum of all changes. */
  lemma SumInAnyOrder(es: seq<Event>, c: nat)
    requires OneCreation(es, c) && es[c].delta < TWO_63 && Sum(es) >= 0
    ensures Run(Size(true, 0), es) == Size(false, Sum(es))
  {
    var early, late := es[..c], es[c + 1..];
    SplitSum(es, c);
    Created(early, es[c]);
    Late(es[c].delta + Sum(early), late);
    Continue(Size(true, 0), early + [es[c]], Size(false, es[c].delta + Sum(early)), late);
    assert es == early + [es[c]] + late;
  }

  /** It does so exactly when that sum is a size at all. */
  lemma AnyOrder(es: seq<Event>, c: nat)
    requires OneCreation(es, c) && es[c].delta < TWO_63
    ensures !Run(Size(true, 0), es).pending
    ensures (Run(Size(true, 0), es).live as int == Sum(es)) <==> Sum(es) >= 0
  {
    SettledAfter(Size(true, 0), es, c);
    if Sum(es) >= 0 {
      SumInAnyOrder(es, c);
    }
  }

  /** A creating event ends the pending state for good. */
  lemma {:induction false} SettledAfter(m: Size, es: seq<Event>, c: nat)
    requires c < |es| && Creates(es[c])
    ensures !Run(m, es).pending
  {
    if c < |es| - 1 {
      SettledAfter(m, es[..|es| - 1], c);
    }
  }

  /** Below zero the order does show: early losses wrap around, late ones stop at zero. */
  lemma OrderShowsBelowZero()
    ensures Run(Size(true, 0), [Compaction(-2), Flush(1)]) == Size(false, TWO_64 - 1)
    ensures Run(Size(true, 0), [Flush(1), Compaction(-2)]) == Size(false, 0)
  {
    var a, b := [Compaction(-2), Flush(1)], [Flush(1), Compaction(-2)];
    assert a[..1] == [Compaction(-2)] && a[..1][..0] == [];
    assert b[..1] == [Flush(1)] && b[..1][..0] == [];
    assert Run(Size(true, 0), a[..1]) == Size(true, 2);
    assert Run(Size(true, 0), b[..1]) == Size(false, 1);
  }

  // ---- the size it stands for

  /**
   sizes[k] is how much of the file the tables refer to after k changes: nothing before the
   creating flush or compaction, then never more than before.
   */
  predicate History(sizes: seq<nat>) {
    && |sizes| >= 2 && sizes[0] == 0 && sizes[1] < TWO_63
    && forall k :: 1 <= k < |sizes| - 1 ==> sizes[k + 1] <= sizes[k]
  }

  function Change(before: int, after: int): int {
    after - before
  }

  /** The completion events of that history, in the order in which the changes happened. */
  function Events(sizes: seq<nat>, byFlush: bool, n: nat): (es: seq<Event>)
    requires n < |sizes|
    ensures |es| == n
  {
    if n == 0 then []
    else
      var delta := Change(sizes[n - 1], sizes[n]);
      Events(sizes, byFlush, n - 1) + [if n == 1 && byFlush then Flush(delta) else Compaction(delta)]
  }

  lemma {:induction false} EventsSum(sizes: seq<nat>, byFlush: bool, n: nat)
    requires History(sizes) && n < |sizes|
    ensures Sum(Events(sizes, byFlush, n)) == sizes[n]
  {
    if n > 0 {
      EventsSum(sizes, byFlush, n - 1);
      assert Events(sizes, byFlush, n)[..n - 1] == Events(sizes, byFlush, n - 1);
    }
  }

  lemma {:induction false} EventsShrink(sizes: seq<nat>, byFlush: bool, n: nat, k: nat)
    requires History(sizes) && k < n < |sizes|
    ensures k > 0 ==> Shrinks(Events(sizes, byFlush, n)[k])
    ensures k == 0 ==> Events(sizes, byFlush, n)[0] == if byFlush then Flush(sizes[1]) else Compaction(sizes[1])
  {
    if k < n - 1 {
      EventsShrink(sizes, byFlush, n - 1, k);
    }
  }

  // ---- permutations

  lemma {:induction false} SumPermutes(a: seq<Event>, b: seq<Event>)
    requires multiset(a) == multiset(b)
    ensures Sum(a) == Sum(b)
    decreases |a|
  {
    if a == [] {
      assert |b| == |multiset(b)| == 0;
    } else {
      var e := a[|a| - 1];
      assert e in multiset(b);
      var i :| 0 <= i < |b| && b[i] == e;
      var a', b' := a[..|a| - 1], b[..i] + b[i + 1..];
      assert a == a' + [e];
      assert b == b[..i] + [e] + b[i + 1..];
      assert multiset(a') == multiset(a) - multiset{e};
      assert multiset(b') == multiset(b) - multiset{e};
      SumPermutes(a', b');
      RunSplit(Size(true, 0), b[..i] + [e], b[i + 1..]);
      RunSplit(Size(true, 0), b[..i], [e]);
      RunSplit(Size(true, 0), b[..i], b[i + 1..]);
      assert [e][..0] == [];
      assert Sum([e]) == e.delta;
    }
  }

  lemma WithoutOne(s: seq<Event>, i: nat)
    requires i < |s|
    ensures multiset(s[..i] + s[i + 1..]) == multiset(s) - multiset{s[i]}
  {
    assert s == s[..i] + [s[i]] + s[i + 1..];
  }

  lemma WithoutFirst(s: seq<Event>)
    requires s != []
    ensures multiset(s[1..]) == multiset(s) - multiset{s[0]}
  {
    assert s == [s[0]] + s[1..];
  }

  lemma ShrinkPermutes(a: seq<Event>, b: seq<Event>)
    requires AllShrink(a) && multiset(a) == multiset(b)
    ensures AllShrink(b)
  {
    forall i | 0 <= i < |b|
      ensures Shrinks(b[i])
    {
      assert b[i] in multiset(a);
    }
  }

  lemma ShrinkAround(s: seq<Event>, i: nat)
    requires i < |s| && AllShrink(s[..i] + s[i + 1..])
    ensures AllShrink(s[..i]) && AllShrink(s[i + 1..])
  {
    var rest := s[..i] + s[i + 1..];
    assert rest[..i] == s[..i] && rest[i..] == s[i + 1..];
  }

  lemma PermutedRest(es: seq<Event>, ps: seq<Event>, c: nat)
    requires es != [] && c < |ps| && ps[c] == es[0] && multiset(ps) == multiset(es) && AllShrink(es[1..])
    ensures AllShrink(ps[..c] + ps[c + 1..])
  {
    WithoutOne(ps, c);
    WithoutFirst(es);
    ShrinkPermutes(es[1..], ps[..c] + ps[c + 1..]);
  }

  /** A permutation of one creation and shrinking events has the same form. */
  lemma PermutedCreation(es: seq<Event>, ps: seq<Event>) returns (c: nat)
    requires es != [] && multiset(ps) == multiset(es) && Creates(es[0]) && AllShrink(es[1..])
    ensures OneCreation(ps, c) && ps[c] == es[0]
  {
    assert es[0] in multiset(ps);
    c :| 0 <= c < |ps| && ps[c] == es[0];
    PermutedRest(es, ps, c);
    ShrinkAround(ps, c);
  }

  lemma DeliveredSum(sizes: seq<nat>, byFlush: bool, delivered: seq<Event>)
    requires History(sizes) && multiset(delivered) == multiset(Events(sizes, byFlush, |sizes| - 1))
    ensures Sum(delivered) == sizes[|sizes| - 1]
  {
    EventsSum(sizes, byFlush, |sizes| - 1);
    SumPermutes(delivered, Events(sizes, byFlush, |sizes| - 1));
  }

  lemma LaterShrink(sizes: seq<nat>, byFlush: bool)
    requires History(sizes)
    ensures var es := Events(sizes, byFlush, |sizes| - 1);
            && es[0] == (if byFlush then Flush(sizes[1]) else Compaction(sizes[1]))
            && AllShrink(es[1..])
  {
    var n := |sizes| - 1;
    var es := Events(sizes, byFlush, n);
    EventsShrink(sizes, byFlush, n, 0);
    forall k | 0 <= k < |es[1..]|
      ensures Shrinks(es[1..][k])
    {
      EventsShrink(sizes, byFlush, n, k + 1);
    }
  }

  /**
   Conservation: once the events of a file's history have all arrived, in whatever order, its
   live size is what the current tables refer to.
   */
  lemma LiveSizeIsReferenced(sizes: seq<nat>, byFlush: bool, delivered: seq<Event>)
    requires History(sizes) && (byFlush || sizes[1] > 0)
    requires multiset(delivered) == multiset(Events(sizes, byFlush, |sizes| - 1))
    ensures Run(Size(true, 0), delivered) == Size(false, sizes[|sizes| - 1])
  {
    DeliveredSum(sizes, byFlush, delivered);
    LaterShrink(sizes, byFlush);
    var c := PermutedCreation(Events(sizes, byFlush, |sizes| - 1), delivered);
    SumInAnyOrder(delivered, c);
  }

  /** A compaction that created the file with nothing live leaves it pending for ever. */
  lemma EmptyCreationIsLost(es: seq<Event>)
    requires AllShrink(es) && -Sum(es) < TWO_63
    ensures Run(Size(true, 0), es).pending
  {
    Early(es);
  }

  /**
   A file whose events have all arrived has left the pending state exactly when a flush created it
   or the creating compaction left something live; the event of an empty compaction cannot be told
   from a later change.  The size is right in both cases.
   */
  lemma SettlesIff(sizes: seq<nat>, byFlush: bool, delivered: seq<Event>)
    requires History(sizes) && multiset(delivered) == multiset(Events(sizes, byFlush, |sizes| - 1))
    ensures Run(Size(true, 0), delivered) == Size(!(byFlush || sizes[1] > 0), sizes[|sizes| - 1])
  {
    if byFlush || sizes[1] > 0 {
      LiveSizeIsReferenced(sizes, byFlush, delivered);
    } else {
      var es := Events(sizes, byFlush, |sizes| - 1);
      DeliveredSum(sizes, byFlush, delivered);
      LaterShrink(sizes, byFlush);
      assert AllShrink(es);
      ShrinkPermutes(es, delivered);
      Early(delivered);
    }
  }
}
