/** Choosing the input files of a GC job. */
module Picker {
  import opened Types

  /** What the picker looks at; scores and ratios are numbers in some fixed scale. */
  datatype Candidate = Candidate(number: nat, score: int, size: nat, state: FileState, ratio: int)

  datatype Limits = Limits(ratio: int, maxBatch: nat, minBatch: nat, smallFile: nat)

  predicate CheckBlobFile(c: Candidate) {
    c.state == Normal
  }

  /** The candidates down to the first score below the threshold that are not taken already. */
  function Eligible(scores: seq<Candidate>, limits: Limits): seq<Candidate> {
    if scores == [] || scores[0].score < limits.ratio then []
    else (if CheckBlobFile(scores[0]) then [scores[0]] else []) + Eligible(scores[1..], limits)
  }

  function Total(cs: seq<Candidate>): nat {
    if cs == [] then 0 else Total(cs[..|cs| - 1]) + cs[|cs| - 1].size
  }

  /** The batch is the shortest start of the eligible files that reaches the limit, or all of them. */
  predicate IsBatch(eligible: seq<Candidate>, limits: Limits, batch: seq<Candidate>) {
    && batch <= eligible
    && (batch != [] ==> Total(batch[..|batch| - 1]) < limits.maxBatch || |batch| == 1)
    && (batch == eligible || (batch != [] && Total(batch) >= limits.maxBatch))
  }

  predicate WorthIt(limits: Limits, batch: seq<Candidate>) {
    && batch != [] && Total(batch) >= limits.minBatch
    && !(|batch| == 1 && batch[0].size <= limits.smallFile && batch[0].ratio < limits.ratio)
  }

  /** Eligible files come from the list, reach the threshold and are in no other job. */
  lemma {:induction false} EligibleAre(scores: seq<Candidate>, limits: Limits, i: nat)
    requires i < |Eligible(scores, limits)|
    ensures var c := Eligible(scores, limits)[i]; c in scores && c.state == Normal && c.score >= limits.ratio
    decreases |scores|
  {
    var first := if CheckBlobFile(scores[0]) then 1 else 0;
    if i >= first {
      EligibleAre(scores[1..], limits, i - first);
    }
  }

  /** No such file is passed over, as long as no low score comes before it. */
  lemma {:induction false} EligibleAll(scores: seq<Candidate>, limits: Limits, j: nat)
    requires j < |scores| && scores[j].state == Normal && forall k :: 0 <= k <= j ==> scores[k].score >= limits.ratio
    ensures scores[j] in Eligible(scores, limits)
    decreases |scores|
  {
    if j > 0 {
      EligibleAll(scores[1..], limits, j - 1);
    }
  }

  /** On scores in descending order the eligible files are exactly the free ones that reach the threshold. */
  lemma EligibleIff(scores: seq<Candidate>, limits: Limits, c: Candidate)
    requires forall i, j :: 0 <= i < j < |scores| ==> scores[i].score >= scores[j].score
    ensures c in Eligible(scores, limits) <==> c in scores && c.state == Normal && c.score >= limits.ratio
  {
    if c in Eligible(scores, limits) {
      var i :| 0 <= i < |Eligible(scores, limits)| && Eligible(scores, limits)[i] == c;
      EligibleAre(scores, limits, i);
    } else if c in scores && c.state == Normal && c.score >= limits.ratio {
      var j :| 0 <= j < |scores| && scores[j] == c;
      EligibleAll(scores, limits, j);
    }
  }

  // ---- the loop

  lemma Join(a: seq<Candidate>, b: seq<Candidate>, c: seq<Candidate>)
    ensures a + (b + c) == (a + b) + c
  {
  }

  lemma {:induction false} EligibleMore(scores: seq<Candidate>, limits: Limits, n: nat)
    requires n < |scores| && forall k :: 0 <= k <= n ==> scores[k].score >= limits.ratio
    ensures Eligible(scores[..n + 1], limits) ==
              Eligible(scores[..n], limits) + if CheckBlobFile(scores[n]) then [scores[n]] else []
    decreases n
  {
    if n > 0 {
      var rest := scores[1..];
      assert rest[..n - 1] == scores[..n][1..] && rest[..n] == scores[..n + 1][1..] && rest[n - 1] == scores[n];
      EligibleMore(rest, limits, n - 1);
      Join(if CheckBlobFile(scores[0]) then [scores[0]] else [], Eligible(rest[..n - 1], limits),
           if CheckBlobFile(scores[n]) then [scores[n]] else []);
    }
  }

  /** Nothing after a low score is eligible. */
  lemma {:induction false} EligibleStops(scores: seq<Candidate>, limits: Limits, n: nat)
    requires n <= |scores| && forall k :: 0 <= k < n ==> scores[k].score >= limits.ratio
    requires n < |scores| ==> scores[n].score < limits.ratio
    ensures Eligible(scores, limits) == Eligible(scores[..n], limits)
    decreases n
  {
    if n > 0 {
      assert scores[1..][..n - 1] == scores[..n][1..];
      EligibleStops(scores[1..], limits, n - 1);
    }
  }

  lemma {:induction false} EligiblePrefix(scores: seq<Candidate>, limits: Limits, n: nat)
    requires n <= |scores| && forall k :: 0 <= k < n ==> scores[k].score >= limits.ratio
    ensures Eligible(scores[..n], limits) <= Eligible(scores, limits)
    decreases n
  {
    if n > 0 {
      assert scores[1..][..n - 1] == scores[..n][1..];
      EligiblePrefix(scores[1..], limits, n - 1);
    }
  }

  lemma {:induction false} TotalSplit(a: seq<Candidate>, b: seq<Candidate>)
    ensures Total(a + b) == Total(a) + Total(b)
  {
    if b == [] {
      assert a + b == a;
    } else {
      TotalSplit(a, b[..|b| - 1]);
      assert (a + b)[..|a + b| - 1] == a + b[..|b| - 1];
    }
  }

  /** The variables of the loop; `rest` are the files whose sizes went into nextSize. */
  datatype Progress = Progress(batch: seq<Candidate>, size: nat, stop: bool, rest: seq<Candidate>, nextSize: nat, again: bool)

  /** What one file that passes CheckBlobFile does to them. */
  function Advanced(limits: Limits, p: Progress, c: Candidate): Progress {
    if !p.stop then
      p.(batch := p.batch + [c], size := p.size + c.size, stop := p.size + c.size >= limits.maxBatch)
    else
      p.(rest := p.rest + [c], nextSize := p.nextSize + c.size, again := p.nextSize + c.size > limits.minBatch)
  }

  /** They describe these files, put end to end. */
  predicate Describes(limits: Limits, seen: seq<Candidate>, p: Progress) {
    && seen == p.batch + p.rest && p.size == Total(p.batch) && p.nextSize == Total(p.rest)
    && (p.stop ==> p.batch != [] && p.size >= limits.maxBatch)
    && (!p.stop ==> p.rest == [] && (p.batch != [] ==> p.size < limits.maxBatch))
    && (p.batch != [] ==> Total(p.batch[..|p.batch| - 1]) < limits.maxBatch || |p.batch| == 1)
    && (p.again <==> p.stop && p.nextSize > limits.minBatch)
  }

  /** The first n scores all reach the threshold, and these are the eligible files among them. */
  predicate SeenIs(scores: seq<Candidate>, limits: Limits, n: nat, seen: seq<Candidate>) {
    && n <= |scores| && (forall k :: 0 <= k < n ==> scores[k].score >= limits.ratio)
    && Eligible(scores[..n], limits) == seen
  }

  lemma SeenMore(scores: seq<Candidate>, limits: Limits, n: nat, seen: seq<Candidate>)
    requires SeenIs(scores, limits, n, seen) && n < |scores| && scores[n].score >= limits.ratio
    ensures SeenIs(scores, limits, n + 1, if CheckBlobFile(scores[n]) then seen + [scores[n]] else seen)
  {
    EligibleMore(scores, limits, n);
    assert seen + [] == seen;
  }

  lemma Takes(limits: Limits, seen: seq<Candidate>, p: Progress, c: Candidate)
    requires Describes(limits, seen, p) && !p.stop
    ensures Describes(limits, seen + [c], Advanced(limits, p, c))
  {
    TotalOne(p.batch, c);
    assert p.batch + [] == p.batch && (p.batch + [c]) + [] == p.batch + [c];
    assert (p.batch + [c])[..|p.batch|] == p.batch;
  }

  lemma Leaves(limits: Limits, seen: seq<Candidate>, p: Progress, c: Candidate)
    requires Describes(limits, seen, p) && p.stop && !p.again
    ensures Describes(limits, seen + [c], Advanced(limits, p, c))
  {
    TotalOne(p.rest, c);
    assert p.batch + p.rest + [c] == p.batch + (p.rest + [c]);
  }

  lemma TotalOne(a: seq<Candidate>, c: Candidate)
    ensures Total(a + [c]) == Total(a) + c.size
  {
    assert (a + [c])[..|a|] == a;
  }

  /** Files behind the batch: enough of them asks for another round. */
  predicate Remains(eligible: seq<Candidate>, limits: Limits, batch: seq<Candidate>) {
    batch <= eligible && Total(eligible[|batch|..]) > limits.minBatch
  }

  /** The loop of PickBlobGC. */
  method PickFiles(scores: seq<Candidate>, limits: Limits) returns (p: Progress)
    ensures p.size == Total(p.batch)
    ensures IsBatch(Eligible(scores, limits), limits, p.batch)
    ensures p.again == Remains(Eligible(scores, limits), limits, p.batch)
  {
    p := Progress([], 0, false, [], 0, false);
    ghost var seen: seq<Candidate> := [];
    var n := 0;
    while n < |scores| && !p.again && scores[n].score >= limits.ratio
      invariant SeenIs(scores, limits, n, seen) && Describes(limits, seen, p)
    {
      SeenMore(scores, limits, n, seen);
      if CheckBlobFile(scores[n]) {
        p := PickOne(limits, p, scores[n], seen);
        seen := seen + [scores[n]];
      }
      n := n + 1;
    }
    Settled(scores, limits, n, seen, p);
  }

  /** Into the batch until the limit is reached; afterwards only the sizes are added up. */
  method PickOne(limits: Limits, p: Progress, file: Candidate, ghost seen: seq<Candidate>) returns (p': Progress)
    requires Describes(limits, seen, p) && !p.again
    ensures Describes(limits, seen + [file], p')
  {
    p' := p;
    if !p.stop {
      Takes(limits, seen, p, file);
      p' := p'.(batch := p.batch + [file], size := p.size + file.size);
      if p'.size >= limits.maxBatch {
        p' := p'.(stop := true);
      }
    } else {
      Leaves(limits, seen, p, file);
      p' := p'.(rest := p.rest + [file], nextSize := p.nextSize + file.size);
      if p'.nextSize > limits.minBatch {
        p' := p'.(again := true);
      }
    }
  }

  /** PickBlobGC: a batch of the best eligible files, and whether what is left deserves a further job. */
  method PickBlobGC(scores: seq<Candidate>, limits: Limits) returns (picked: Option<(seq<Candidate>, bool)>)
    ensures var eligible := Eligible(scores, limits);
            match picked
            case Some(p) => IsBatch(eligible, limits, p.0) && WorthIt(limits, p.0) && p.1 == Remains(eligible, limits, p.0)
            case None => forall b :: IsBatch(eligible, limits, b) ==> !WorthIt(limits, b)
  {
    var p := PickFiles(scores, limits);
    OnlyBatch(Eligible(scores, limits), limits, p.batch);
    if p.batch == [] || p.size < limits.minBatch {
      return None;
    }
    if |p.batch| == 1 && p.batch[0].size <= limits.smallFile && p.batch[0].ratio < limits.ratio {
      return None;
    }
    return Some((p.batch, p.again));
  }

  /** Where the loop stops, the batch and the answer about the rest are final. */
  lemma Settled(scores: seq<Candidate>, limits: Limits, n: nat, seen: seq<Candidate>, p: Progress)
    requires SeenIs(scores, limits, n, seen) && Describes(limits, seen, p)
    requires !p.again && n < |scores| ==> scores[n].score < limits.ratio
    ensures IsBatch(Eligible(scores, limits), limits, p.batch)
    ensures p.again == Remains(Eligible(scores, limits), limits, p.batch)
  {
    EligiblePrefix(scores, limits, n);
    if !p.again {
      EligibleStops(scores, limits, n);
    }
    Final(Eligible(scores, limits), limits, seen, p);
  }

  lemma Final(eligible: seq<Candidate>, limits: Limits, seen: seq<Candidate>, p: Progress)
    requires Describes(limits, seen, p) && seen <= eligible && (!p.again ==> seen == eligible)
    ensures IsBatch(eligible, limits, p.batch) && p.again == Remains(eligible, limits, p.batch)
  {
    TotalRest(eligible, p.batch, p.rest);
    assert !p.stop ==> p.batch + [] == p.batch;
  }

  lemma OnlyBatch(eligible: seq<Candidate>, limits: Limits, batch: seq<Candidate>)
    requires IsBatch(eligible, limits, batch)
    ensures forall b :: IsBatch(eligible, limits, b) ==> b == batch
  {
    forall b | IsBatch(eligible, limits, b)
      ensures b == batch
    {
      OneBatch(eligible, limits, b, batch);
    }
  }

  lemma TotalRest(eligible: seq<Candidate>, batch: seq<Candidate>, rest: seq<Candidate>)
    requires batch + rest <= eligible
    ensures batch <= eligible && Total(rest) <= Total(eligible[|batch|..])
    ensures batch + rest == eligible ==> rest == eligible[|batch|..]
  {
    var more := eligible[|batch| + |rest|..];
    assert eligible == batch + rest + more;
    assert eligible[|batch|..] == rest + more;
    TotalSplit(rest, more);
  }

  lemma {:induction false} TotalGrows(a: seq<Candidate>, b: seq<Candidate>)
    requires a <= b
    ensures Total(a) <= Total(b)
  {
    assert b == a + b[|a|..];
    TotalSplit(a, b[|a|..]);
  }

  /** There is only one such batch. */
  lemma OneBatch(eligible: seq<Candidate>, limits: Limits, a: seq<Candidate>, b: seq<Candidate>)
    requires IsBatch(eligible, limits, a) && IsBatch(eligible, limits, b)
    ensures a == b
  {
    if |a| < |b| {
      ShorterIsNot(eligible, limits, a, b);
    } else if |b| < |a| {
      ShorterIsNot(eligible, limits, b, a);
    }
  }

  lemma ShorterIsNot(eligible: seq<Candidate>, limits: Limits, a: seq<Candidate>, b: seq<Candidate>)
    requires IsBatch(eligible, limits, a) && IsBatch(eligible, limits, b)
    ensures |a| >= |b|
  {
    if |a| < |b| {
      assert a <= b[..|b| - 1];
      TotalGrows(a, b[..|b| - 1]);
    }
  }
}
