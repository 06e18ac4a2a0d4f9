/** The loop of a GC job over the records of its input files. */
module GcScan {
  import opened Types
  import opened Lsm
  import opened GcProtocol

  /** A job that has not read any record. */
  function StartJob(inputs: set<nat>, useBitmap: bool, fallback: bool, bits: set<Ix>, stream: seq<Ix>): Job {
    Job(inputs, useBitmap, fallback, bits, stream, 0, [], false, None, [], [], 0, Scanning)
  }

  /**
   The job after its first n records.  Record i is judged against logs[i], the base DB as
   it was when the loop reached it; users may write in between.
   */
  function ScanTo(start: Job, recs: seq<Rec>, logs: seq<seq<Entry>>, number: nat, n: nat): (job: Job)
    requires n <= |recs| == |logs| == |start.stream|
    ensures job.inputs == start.inputs && job.useBitmap == start.useBitmap && job.fallback == start.fallback
    ensures job.bits == start.bits && job.stream == start.stream
    ensures job.written == start.written && job.phase == start.phase
    ensures job.scanned == start.scanned + n
  {
    if n == 0 then start
    else ScanJob(logs[n - 1], ScanTo(start, recs, logs, number, n - 1), recs[n - 1], start.stream[n - 1], number)
  }

  // ---- which records a job copies

  predicate IsLive(log: seq<Entry>, rec: Rec, ix: Ix) {
    Look(log, |log|, rec.key) == Blob(ix)
  }

  /** Without a bitmap: the record is live when the loop reaches it, and no earlier one of its key was taken. */
  predicate Chosen(stream: seq<Ix>, recs: seq<Rec>, logs: seq<seq<Entry>>, i: nat)
    requires i < |stream| == |recs| == |logs|
    decreases i, 1
  {
    IsLive(logs[i], recs[i], stream[i]) && !Shadowed(stream, recs, logs, i)
  }

  /** Of neighbours with the same key, not empty, one that comes before has been taken. */
  predicate Shadowed(stream: seq<Ix>, recs: seq<Rec>, logs: seq<seq<Entry>>, i: nat)
    requires i < |stream| == |recs| == |logs|
    decreases i, 0
  {
    && i > 0 && recs[i].key != [] && recs[i - 1].key == recs[i].key
    && (Chosen(stream, recs, logs, i - 1) || Shadowed(stream, recs, logs, i - 1))
  }

  /** With a bitmap: every record whose bit is clear. */
  predicate Wanted(useBitmap: bool, bits: set<Ix>, stream: seq<Ix>, recs: seq<Rec>, logs: seq<seq<Entry>>, i: nat)
    requires i < |stream| == |recs| == |logs|
  {
    if useBitmap then stream[i] !in bits else Chosen(stream, recs, logs, i)
  }

  /** The places of the wanted records among the first n, in order. */
  function Picks(useBitmap: bool, bits: set<Ix>, stream: seq<Ix>, recs: seq<Rec>, logs: seq<seq<Entry>>, n: nat): (ks: seq<nat>)
    requires n <= |stream| == |recs| == |logs|
    ensures forall r :: 0 <= r < |ks| ==> ks[r] < n
  {
    if n == 0 then []
    else
      Picks(useBitmap, bits, stream, recs, logs, n - 1) +
      if Wanted(useBitmap, bits, stream, recs, logs, n - 1) then [n - 1] else []
  }

  /**
   What a job makes of the records at these places: one rewrite for each, in order, back to the
   inline value or to the next place of one new file that holds exactly these records.
   */
  predicate Copies(stream: seq<Ix>, recs: seq<Rec>, ks: seq<nat>, fallback: bool, number: nat,
                   out: Option<nat>, outRecs: seq<Rec>, rewrites: seq<Rewrite>)
    requires |stream| == |recs| && forall r :: 0 <= r < |ks| ==> ks[r] < |stream|
  {
    && |rewrites| == |ks|
    && (forall r :: 0 <= r < |ks| ==> rewrites[r] == RewriteOf(stream, recs, ks[r], fallback, number, r))
    && out == (if fallback || ks == [] then None else Some(number))
    && |outRecs| == (if fallback then 0 else |ks|)
    && (forall r :: 0 <= r < |outRecs| ==> outRecs[r] == recs[ks[r]])
  }

  function RewriteOf(stream: seq<Ix>, recs: seq<Rec>, k: nat, fallback: bool, number: nat, r: nat): Rewrite
    requires k < |stream| == |recs|
  {
    Rewrite(recs[k].key, stream[k], if fallback then Inline(recs[k].value) else Blob(Ix(number, r)))
  }

  /** The freshness flag of the loop says that a record of the last key was taken. */
  predicate FlagIs(stream: seq<Ix>, recs: seq<Rec>, logs: seq<seq<Entry>>, n: nat, job: Job)
    requires n <= |stream| == |recs| == |logs|
  {
    if n == 0 then job.lastKey == [] && !job.isFresh
    else
      && (job.useBitmap ==> !job.isFresh)
      && job.lastKey == recs[n - 1].key
      && (!job.useBitmap ==> (job.isFresh <==> Chosen(stream, recs, logs, n - 1) || Shadowed(stream, recs, logs, n - 1)))
  }

  lemma KeepsIsWanted(stream: seq<Ix>, recs: seq<Rec>, logs: seq<seq<Entry>>, n: nat, job: Job)
    requires n < |stream| == |recs| == |logs| && FlagIs(stream, recs, logs, n, job)
    ensures Keeps(logs[n], job, recs[n].key, stream[n]) <==> Wanted(job.useBitmap, job.bits, stream, recs, logs, n)
    ensures FlagIs(stream, recs, logs, n + 1, Advance(logs[n], job, recs[n].key, stream[n]))
  {
    if !job.useBitmap {
      assert Shadowed(stream, recs, logs, n) <==> job.lastKey != [] && recs[n].key == job.lastKey && job.isFresh;
      assert Chosen(stream, recs, logs, n) <==>
               IsLive(logs[n], recs[n], stream[n]) && !Shadowed(stream, recs, logs, n);
    }
  }

  lemma CopiesMore(stream: seq<Ix>, recs: seq<Rec>, ks: seq<nat>, k: nat, fallback: bool, number: nat,
                   out: Option<nat>, outRecs: seq<Rec>, rewrites: seq<Rewrite>)
    requires |stream| == |recs| && k < |stream| && forall r :: 0 <= r < |ks| ==> ks[r] < |stream|
    requires Copies(stream, recs, ks, fallback, number, out, outRecs, rewrites)
    ensures Copies(stream, recs, ks + [k], fallback, number, if fallback then None else Some(number),
                   if fallback then outRecs else outRecs + [recs[k]],
                   rewrites + [RewriteOf(stream, recs, k, fallback, number, |ks|)])
  {
    var more := rewrites + [RewriteOf(stream, recs, k, fallback, number, |ks|)];
    forall r | 0 <= r < |ks + [k]|
      ensures more[r] == RewriteOf(stream, recs, (ks + [k])[r], fallback, number, r)
    {
      if r < |ks| {
        assert (ks + [k])[r] == ks[r] && more[r] == rewrites[r];
      }
    }
  }

  lemma ScanStepCopies(stream: seq<Ix>, recs: seq<Rec>, log: seq<Entry>, n: nat, prev: Job, number: nat, ks: seq<nat>)
    requires n < |stream| == |recs| && forall r :: 0 <= r < |ks| ==> ks[r] < n
    requires Copies(stream, recs, ks, prev.fallback, number, prev.out, prev.outRecs, prev.rewrites)
    ensures var job := ScanJob(log, prev, recs[n], stream[n], number);
            Copies(stream, recs, ks + if Keeps(log, prev, recs[n].key, stream[n]) then [n] else [],
                   prev.fallback, number, job.out, job.outRecs, job.rewrites)
  {
    if Keeps(log, prev, recs[n].key, stream[n]) {
      CopiesMore(stream, recs, ks, n, prev.fallback, number, prev.out, prev.outRecs, prev.rewrites);
    } else {
      assert ks + [] == ks;
    }
  }

  /** One more record, for the flag and for what is copied. */
  lemma ScanStepFollows(stream: seq<Ix>, recs: seq<Rec>, logs: seq<seq<Entry>>, n: nat, prev: Job, number: nat, ks: seq<nat>)
    requires n < |stream| == |recs| == |logs| && FlagIs(stream, recs, logs, n, prev)
    requires forall r :: 0 <= r < |ks| ==> ks[r] < n
    requires Copies(stream, recs, ks, prev.fallback, number, prev.out, prev.outRecs, prev.rewrites)
    ensures var job := ScanJob(logs[n], prev, recs[n], stream[n], number);
            && FlagIs(stream, recs, logs, n + 1, job)
            && Copies(stream, recs, ks + if Wanted(prev.useBitmap, prev.bits, stream, recs, logs, n) then [n] else [],
                      prev.fallback, number, job.out, job.outRecs, job.rewrites)
  {
    KeepsIsWanted(stream, recs, logs, n, prev);
    ScanStepCopies(stream, recs, logs[n], n, prev, number, ks);
  }

  /** The job after n records has copied exactly the wanted ones. */
  ghost predicate Follows(start: Job, recs: seq<Rec>, logs: seq<seq<Entry>>, number: nat, n: nat)
    requires n <= |recs| == |logs| == |start.stream|
  {
    var job := ScanTo(start, recs, logs, number, n);
    && FlagIs(start.stream, recs, logs, n, job)
    && Copies(start.stream, recs, Picks(start.useBitmap, start.bits, start.stream, recs, logs, n), start.fallback, number,
              job.out, job.outRecs, job.rewrites)
  }

  /** Whatever users write in between. */
  lemma {:induction false} ScanCopies(start: Job, recs: seq<Rec>, logs: seq<seq<Entry>>, number: nat, n: nat)
    requires n <= |recs| == |logs| == |start.stream|
    requires start == StartJob(start.inputs, start.useBitmap, start.fallback, start.bits, start.stream)
    ensures Follows(start, recs, logs, number, n)
  {
    if n > 0 {
      ScanCopies(start, recs, logs, number, n - 1);
      var prev := ScanTo(start, recs, logs, number, n - 1);
      ScanStepFollows(start.stream, recs, logs, n - 1, prev, number,
                      Picks(start.useBitmap, start.bits, start.stream, recs, logs, n - 1));
    }
  }

  /** When nobody writes, the chosen records are the live ones: skipping the rest of a key loses nothing. */
  lemma {:induction false} ChosenIsLive(stream: seq<Ix>, recs: seq<Rec>, logs: seq<seq<Entry>>, log: seq<Entry>, i: nat)
    requires i < |stream| == |recs| == |logs| && forall j :: 0 <= j < |logs| ==> logs[j] == log
    requires forall a, b :: 0 <= a < b < |stream| ==> stream[a] != stream[b]
    ensures Chosen(stream, recs, logs, i) <==> IsLive(log, recs[i], stream[i])
    ensures Shadowed(stream, recs, logs, i) ==> exists j :: 0 <= j < i && recs[j].key == recs[i].key && IsLive(log, recs[j], stream[j])
  {
    if i > 0 {
      ChosenIsLive(stream, recs, logs, log, i - 1);
    }
  }

  /** The indexes at these places. */
  function IxsAt(stream: seq<Ix>, ks: seq<nat>): (r: seq<Ix>)
    requires forall i :: 0 <= i < |ks| ==> ks[i] < |stream|
    ensures |r| == |ks| && forall i :: 0 <= i < |ks| ==> r[i] == stream[ks[i]]
  {
    seq(|ks|, i requires 0 <= i < |ks| => stream[ks[i]])
  }

  /** The indexes of the stream whose bit is clear, in order. */
  function Unset(stream: seq<Ix>, bits: set<Ix>): seq<Ix> {
    if stream == [] then []
    else Unset(stream[..|stream| - 1], bits) + if stream[|stream| - 1] in bits then [] else [stream[|stream| - 1]]
  }

  lemma IxsMore(stream: seq<Ix>, ks: seq<nat>, k: nat)
    requires k < |stream| && forall i :: 0 <= i < |ks| ==> ks[i] < |stream|
    ensures IxsAt(stream, ks + [k]) == IxsAt(stream, ks) + [stream[k]]
  {
  }

  lemma {:induction false} PicksAreUnset(bits: set<Ix>, stream: seq<Ix>, recs: seq<Rec>, logs: seq<seq<Entry>>, n: nat)
    requires n <= |stream| == |recs| == |logs|
    ensures IxsAt(stream, Picks(true, bits, stream, recs, logs, n)) == Unset(stream[..n], bits)
  {
    if n > 0 {
      PicksAreUnset(bits, stream, recs, logs, n - 1);
      IxsMore(stream, Picks(true, bits, stream, recs, logs, n - 1), n - 1);
      assert stream[..n][..n - 1] == stream[..n - 1];
    }
  }

  function Froms(rws: seq<Rewrite>): (r: seq<Ix>)
    ensures |r| == |rws|
    ensures forall i :: 0 <= i < |rws| ==> r[i] == rws[i].from
  {
    seq(|rws|, i requires 0 <= i < |rws| => rws[i].from)
  }

  lemma CopiesFrom(stream: seq<Ix>, recs: seq<Rec>, ks: seq<nat>, fallback: bool, number: nat,
                   out: Option<nat>, outRecs: seq<Rec>, rewrites: seq<Rewrite>)
    requires |stream| == |recs| && forall r :: 0 <= r < |ks| ==> ks[r] < |stream|
    requires Copies(stream, recs, ks, fallback, number, out, outRecs, rewrites)
    ensures Froms(rewrites) == IxsAt(stream, ks)
  {
  }

  /** DoRunGC: its local variables and early `continue`s copy the wanted records, as the steps of the protocol do. */
  method DoRunGC(inputs: set<nat>, useBitmap: bool, fallback: bool, bits: set<Ix>, stream: seq<Ix>,
                 recs: seq<Rec>, logs: seq<seq<Entry>>, number: nat)
    returns (out: Option<nat>, outRecs: seq<Rec>, rewrites: seq<Rewrite>)
    requires |recs| == |logs| == |stream|
    ensures Copies(stream, recs, Picks(useBitmap, bits, stream, recs, logs, |stream|), fallback, number, out, outRecs, rewrites)
    ensures useBitmap ==> Froms(rewrites) == Unset(stream, bits)
    ensures var job := ScanTo(StartJob(inputs, useBitmap, fallback, bits, stream), recs, logs, number, |stream|);
            out == job.out && outRecs == job.outRecs && rewrites == job.rewrites
  {
    ghost var start := StartJob(inputs, useBitmap, fallback, bits, stream);
    var lastKey: Key, lastKeyIsFresh := [], false;
    out, outRecs, rewrites := None, [], [];
    for i := 0 to |stream|
      invariant var job := ScanTo(start, recs, logs, number, i);
                && lastKey == job.lastKey && lastKeyIsFresh == job.isFresh
                && out == job.out && outRecs == job.outRecs && rewrites == job.rewrites
    {
      var rec, ix := recs[i], stream[i];
      if lastKey != [] && rec.key == lastKey {
        if lastKeyIsFresh {
          continue;
        }
      } else {
        lastKey := rec.key;
        lastKeyIsFresh := false;
      }
      var discardable;
      if useBitmap {
        discardable := ix in bits;
      } else {
        discardable := Look(logs[i], |logs[i]|, rec.key) != Blob(ix);
      }
      if discardable {
        continue;
      }
      if !useBitmap {
        lastKeyIsFresh := true;
      }
      if fallback {
        rewrites := rewrites + [Rewrite(rec.key, ix, Inline(rec.value))];
        continue;
      }
      if out.None? {
        out := Some(number);
      }
      rewrites := rewrites + [Rewrite(rec.key, ix, Blob(Ix(out.value, |outRecs|)))];
      outRecs := outRecs + [rec];
    }
    ScanCopies(start, recs, logs, number, |stream|);
    CopiesFrom(stream, recs, Picks(useBitmap, bits, stream, recs, logs, |stream|), fallback, number, out, outRecs, rewrites);
    if useBitmap {
      PicksAreUnset(bits, stream, recs, logs, |stream|);
      assert stream[..|stream|] == stream;
    }
  }

  // ---- a scan without writers

  /** The records among the first n that their key still points at. */
  function LiveOnes(log: seq<Entry>, stream: seq<Ix>, recs: seq<Rec>, n: nat): seq<Ix>
    requires n <= |stream| == |recs|
  {
    if n == 0 then []
    else LiveOnes(log, stream, recs, n - 1) + if IsLive(log, recs[n - 1], stream[n - 1]) then [stream[n - 1]] else []
  }

  lemma {:induction false} PicksAreLive(stream: seq<Ix>, recs: seq<Rec>, logs: seq<seq<Entry>>, log: seq<Entry>, n: nat)
    requires n <= |stream| == |recs| == |logs| && forall j :: 0 <= j < |logs| ==> logs[j] == log
    requires forall a, b :: 0 <= a < b < |stream| ==> stream[a] != stream[b]
    ensures IxsAt(stream, Picks(false, {}, stream, recs, logs, n)) == LiveOnes(log, stream, recs, n)
  {
    if n > 0 {
      PicksAreLive(stream, recs, logs, log, n - 1);
      ChosenIsLive(stream, recs, logs, log, n - 1);
      IxsMore(stream, Picks(false, {}, stream, recs, logs, n - 1), n - 1);
    }
  }

  /**
   When nobody writes during the scan and no bitmap is used, the job rewrites exactly the live
   records, in order: skipping the other records of a key once a fresh one is found loses nothing.
   */
  lemma ScanIsExact(start: Job, recs: seq<Rec>, log: seq<Entry>, number: nat)
    requires |recs| == |start.stream| && start == StartJob(start.inputs, false, start.fallback, {}, start.stream)
    requires forall i, j :: 0 <= i < j < |start.stream| ==> start.stream[i] != start.stream[j]
    ensures var job := ScanTo(start, recs, seq(|recs|, _ => log), number, |recs|);
            Froms(job.rewrites) == LiveOnes(log, start.stream, recs, |recs|)
  {
    var logs := seq(|recs|, _ => log);
    var job := ScanTo(start, recs, logs, number, |recs|);
    ScanCopies(start, recs, logs, number, |recs|);
    CopiesFrom(start.stream, recs, Picks(false, {}, start.stream, recs, logs, |recs|), start.fallback, number,
               job.out, job.outRecs, job.rewrites);
    PicksAreLive(start.stream, recs, logs, log, |recs|);
  }
}
