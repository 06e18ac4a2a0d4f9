/** Scheduling of background GC, and its exclusion with dropping column families. */
module Scheduler {
  import opened Types

  datatype Config = Config(maxBackgroundGc: nat, enabled: bool)

  /**
   The counters and the queue under the database mutex.  `tests` counts the calls of TEST_StartGC
   that run; drops are counted by stage: waiting for running GC to end, past that wait, and failed
   in the base DB.
   */
  datatype State = State(
    queue: seq<nat>, unscheduled: nat, scheduled: nat, running: nat, tests: nat,
    dropRequests: nat, waiting: nat, passed: nat, failed: nat)

  datatype Event =
    | Enqueue(cf: nat)
    | Schedule
    | WorkerStart
    | WorkerEnd(next: Option<nat>)
    | TestStart
    | TestEnd(next: Option<nat>)
    | DropBegin
    | DropPassWait
    | DropDone(ok: bool)

  const IDLE := State([], 0, 0, 0, 0, 0, 0, 0, 0)

  function Min(a: nat, b: nat): nat {
    if a < b then a else b
  }

  function Added(s: State, cf: nat): State {
    s.(queue := s.queue + [cf], unscheduled := s.unscheduled + 1)
  }

  /** As many workers as are asked for and allowed. */
  function Scheduled(cfg: Config, s: State): State {
    if !cfg.enabled || s.scheduled >= cfg.maxBackgroundGc then s
    else
      var k := Min(s.unscheduled, cfg.maxBackgroundGc - s.scheduled);
      s.(unscheduled := s.unscheduled - k, scheduled := s.scheduled + k)
  }

  /** A column family with data left goes back to the queue unless the queue is long. */
  function Requeued(cfg: Config, s: State, next: Option<nat>): State {
    if next.Some? && s.scheduled - 1 + |s.queue| < 2 * cfg.maxBackgroundGc then Added(s, next.value) else s
  }

  predicate Enabled(s: State, e: Event) {
    match e
    case Enqueue(_) => true
    case Schedule => true
    case WorkerStart => s.running < s.scheduled && s.dropRequests == 0
    case WorkerEnd(_) => s.tests < s.running && 0 < s.scheduled
    case TestStart => s.dropRequests == 0
    case TestEnd(_) => 0 < s.tests && 0 < s.running && 0 < s.scheduled
    case DropBegin => true
    case DropPassWait => 0 < s.waiting && s.running == 0
    case DropDone(_) => 0 < s.passed && 0 < s.dropRequests
  }

  function Apply(cfg: Config, s: State, e: Event): State
    requires Enabled(s, e)
  {
    match e
    case Enqueue(cf) => Added(s, cf)
    case Schedule => Scheduled(cfg, s)
    case WorkerStart => s.(running := s.running + 1, queue := if s.queue == [] then [] else s.queue[1..])
    case WorkerEnd(next) =>
      var r := Requeued(cfg, s, next);
      Scheduled(cfg, r.(running := r.running - 1, scheduled := r.scheduled - 1))
    case TestStart => s.(running := s.running + 1, scheduled := s.scheduled + 1, tests := s.tests + 1)
    case TestEnd(next) =>
      var r := Requeued(cfg, s, next);
      r.(running := r.running - 1, scheduled := r.scheduled - 1, tests := r.tests - 1)
    case DropBegin => s.(dropRequests := s.dropRequests + 1, waiting := s.waiting + 1)
    case DropPassWait => s.(waiting := s.waiting - 1, passed := s.passed + 1)
    case DropDone(ok) =>
      if ok then s.(passed := s.passed - 1, dropRequests := s.dropRequests - 1)
      else s.(passed := s.passed - 1, failed := s.failed + 1)
  }

  /** Every queue entry is owed to a request not yet scheduled or to a worker not yet started. */
  predicate Inv(cfg: Config, s: State) {
    && |s.queue| == s.unscheduled + s.scheduled - s.running
    && s.tests <= s.running <= s.scheduled <= cfg.maxBackgroundGc + s.tests
    && s.dropRequests == s.waiting + s.passed + s.failed
    && (s.passed + s.failed > 0 ==> s.running == 0)
  }

  lemma StepKeepsInv(cfg: Config, s: State, e: Event)
    requires Inv(cfg, s) && Enabled(s, e)
    ensures Inv(cfg, Apply(cfg, s, e))
    ensures e.WorkerStart? ==> s.queue != []
  {
  }

  predicate ValidRun(cfg: Config, s: State, es: seq<Event>)
    decreases |es|
  {
    es == [] || (Enabled(s, es[0]) && ValidRun(cfg, Apply(cfg, s, es[0]), es[1..]))
  }

  function Run(cfg: Config, s: State, es: seq<Event>): State
    requires ValidRun(cfg, s, es)
    decreases |es|
  {
    if es == [] then s else Run(cfg, Apply(cfg, s, es[0]), es[1..])
  }

  lemma {:induction false} RunKeepsInv(cfg: Config, s: State, es: seq<Event>)
    requires Inv(cfg, s) && ValidRun(cfg, s, es)
    ensures Inv(cfg, Run(cfg, s, es))
    decreases |es|
  {
    if es != [] {
      StepKeepsInv(cfg, s, es[0]);
      RunKeepsInv(cfg, Apply(cfg, s, es[0]), es[1..]);
    }
  }

  lemma {:induction false} NoTests(cfg: Config, s: State, es: seq<Event>)
    requires ValidRun(cfg, s, es) && s.tests == 0 && forall i :: 0 <= i < |es| ==> !es[i].TestStart?
    ensures Run(cfg, s, es).tests == 0
    decreases |es|
  {
    if es != [] {
      assert !es[0].TestStart?;
      NoTests(cfg, Apply(cfg, s, es[0]), es[1..]);
    }
  }

  /**
   After any run: the queue length is accounted for, a worker that can start finds an entry, and
   no GC runs while a drop is past its wait.  Without TEST_StartGC no more workers are scheduled
   than the option allows.
   */
  lemma SchedulerSafe(cfg: Config, es: seq<Event>)
    requires ValidRun(cfg, IDLE, es)
    ensures var s := Run(cfg, IDLE, es);
            && |s.queue| == s.unscheduled + s.scheduled - s.running
            && (Enabled(s, WorkerStart) ==> s.queue != [])
            && (s.passed > 0 ==> s.running == 0)
            && ((forall i :: 0 <= i < |es| ==> !es[i].TestStart?) ==> s.running <= s.scheduled <= cfg.maxBackgroundGc)
  {
    RunKeepsInv(cfg, IDLE, es);
    if forall i :: 0 <= i < |es| ==> !es[i].TestStart? {
      NoTests(cfg, IDLE, es);
    }
  }

  /** Scheduling loses no request, and stops only when none is left or the limit is reached. */
  lemma SchedulesAll(cfg: Config, s: State, e: Event)
    requires Enabled(s, e) && (e == Schedule || e.WorkerEnd?)
    ensures var s' := Apply(cfg, s, e);
            && (e == Schedule ==> s' == s.(unscheduled := s'.unscheduled, scheduled := s'.scheduled))
            && (e == Schedule ==> s'.unscheduled + s'.scheduled == s.unscheduled + s.scheduled)
            && (cfg.enabled ==> s'.unscheduled == 0 || s'.scheduled >= cfg.maxBackgroundGc)
            && (!cfg.enabled && e == Schedule ==> s' == s)
  {
  }

  /** The column families an event puts into the queue: a job with data left counts while the queue is short. */
  function Asked(cfg: Config, s: State, e: Event): seq<nat> {
    match e
    case Enqueue(cf) => [cf]
    case WorkerEnd(Some(cf)) => if |s.queue| + s.scheduled <= 2 * cfg.maxBackgroundGc then [cf] else []
    case TestEnd(Some(cf)) => if |s.queue| + s.scheduled <= 2 * cfg.maxBackgroundGc then [cf] else []
    case _ => []
  }

  /** The column family a starting worker takes. */
  function Served(s: State, e: Event): seq<nat> {
    if e == WorkerStart && s.queue != [] then [s.queue[0]] else []
  }

  function AskedIn(cfg: Config, s: State, es: seq<Event>): seq<nat>
    requires ValidRun(cfg, s, es)
    decreases |es|
  {
    if es == [] then [] else Asked(cfg, s, es[0]) + AskedIn(cfg, Apply(cfg, s, es[0]), es[1..])
  }

  function ServedIn(cfg: Config, s: State, es: seq<Event>): seq<nat>
    requires ValidRun(cfg, s, es)
    decreases |es|
  {
    if es == [] then [] else Served(s, es[0]) + ServedIn(cfg, Apply(cfg, s, es[0]), es[1..])
  }

  lemma StepServes(cfg: Config, s: State, e: Event)
    requires Inv(cfg, s) && Enabled(s, e)
    ensures s.queue + Asked(cfg, s, e) == Served(s, e) + Apply(cfg, s, e).queue
  {
  }

  lemma Joined(q: seq<nat>, a: seq<nat>, b: seq<nat>, q1: seq<nat>, a1: seq<nat>, b1: seq<nat>, q2: seq<nat>)
    requires q + a == b + q1 && q1 + a1 == b1 + q2
    ensures q + (a + a1) == (b + b1) + q2
  {
    calc {
      q + (a + a1);
      (q + a) + a1;
      b + (q1 + a1);
      (b + b1) + q2;
    }
  }

  /** Over every run the queue is first in, first out, and nothing is lost: what was asked is served or still queued. */
  lemma {:induction false} ServedInOrder(cfg: Config, s: State, es: seq<Event>)
    requires Inv(cfg, s) && ValidRun(cfg, s, es)
    ensures s.queue + AskedIn(cfg, s, es) == ServedIn(cfg, s, es) + Run(cfg, s, es).queue
    decreases |es|
  {
    if es != [] {
      StepKeepsInv(cfg, s, es[0]);
      StepServes(cfg, s, es[0]);
      var s' := Apply(cfg, s, es[0]);
      ServedInOrder(cfg, s', es[1..]);
      Joined(s.queue, Asked(cfg, s, es[0]), Served(s, es[0]), s'.queue,
             AskedIn(cfg, s', es[1..]), ServedIn(cfg, s', es[1..]), Run(cfg, s', es[1..]).queue);
    }
  }

  /** A drop that fails in the base DB never takes its request back: no GC starts in any later state. */
  lemma {:induction false} FailedDropBlocksGc(cfg: Config, s: State, es: seq<Event>)
    requires Inv(cfg, s) && s.failed > 0 && ValidRun(cfg, s, es)
    ensures var s' := Run(cfg, s, es);
            s'.failed > 0 && s'.running == 0 && !Enabled(s', WorkerStart) && !Enabled(s', TestStart)
    decreases |es|
  {
    if es != [] {
      StepKeepsInv(cfg, s, es[0]);
      FailedDropBlocksGc(cfg, Apply(cfg, s, es[0]), es[1..]);
    }
  }

  /** Without a failed drop, GC starts again: let the running jobs and the drops end, then ask for a worker. */
  lemma {:induction false} GcStartsAgain(cfg: Config, s: State) returns (es: seq<Event>)
    requires Inv(cfg, s) && s.failed == 0 && cfg.enabled && cfg.maxBackgroundGc > 0
    ensures ValidRun(cfg, s, es) && Enabled(Run(cfg, s, es), WorkerStart)
    decreases s.running, s.waiting, s.passed
  {
    if s.running == 0 && s.dropRequests == 0 {
      var queued := Apply(cfg, s, Enqueue(0));
      es := [Schedule];
      assert es[1..] == [] && Scheduled(cfg, queued).scheduled > 0;
      assert ValidRun(cfg, queued, es) && Enabled(Run(cfg, queued, es), WorkerStart);
      es := Before(cfg, s, Enqueue(0), es);
    } else {
      var e := if s.tests < s.running then WorkerEnd(None) else if s.running > 0 then TestEnd(None)
               else if s.waiting > 0 then DropPassWait else DropDone(true);
      StepKeepsInv(cfg, s, e);
      es := GcStartsAgain(cfg, Apply(cfg, s, e));
      es := Before(cfg, s, e, es);
    }
  }

  lemma Before(cfg: Config, s: State, e: Event, rest: seq<Event>) returns (es: seq<Event>)
    requires Enabled(s, e) && ValidRun(cfg, Apply(cfg, s, e), rest)
    ensures ValidRun(cfg, s, es) && Run(cfg, s, es) == Run(cfg, Apply(cfg, s, e), rest)
  {
    es := [e] + rest;
    assert es[1..] == rest;
  }

  ghost predicate GcCanStart(cfg: Config, s: State) {
    exists es :: ValidRun(cfg, s, es) && Enabled(Run(cfg, s, es), WorkerStart)
  }

  /** Some continuation starts a GC job exactly when no drop has failed in the base DB. */
  lemma GcCanStartIff(cfg: Config, s: State)
    requires Inv(cfg, s) && cfg.enabled && cfg.maxBackgroundGc > 0
    ensures GcCanStart(cfg, s) <==> s.failed == 0
  {
    if s.failed == 0 {
      var es := GcStartsAgain(cfg, s);
    } else {
      forall es | ValidRun(cfg, s, es)
        ensures !Enabled(Run(cfg, s, es), WorkerStart)
      {
        FailedDropBlocksGc(cfg, s, es);
      }
    }
  }

  /** Such a state is reached from the idle one in three steps. */
  lemma DropCanFail(cfg: Config)
    ensures var es := [DropBegin, DropPassWait, DropDone(false)];
            ValidRun(cfg, IDLE, es) && Inv(cfg, Run(cfg, IDLE, es)) && Run(cfg, IDLE, es).failed == 1
  {
    var s1 := Apply(cfg, IDLE, DropBegin);
    var s2 := Apply(cfg, s1, DropPassWait);
    var es := [DropBegin, DropPassWait, DropDone(false)];
    assert es[1..] == [DropPassWait, DropDone(false)] && es[1..][1..] == [DropDone(false)] && es[1..][1..][1..] == [];
    assert ValidRun(cfg, s2, [DropDone(false)]);
    assert ValidRun(cfg, s1, es[1..]);
    RunKeepsInv(cfg, IDLE, es);
  }

  // ---- the code

  class TitanScheduler {
    const cfg: Config
    var queue: seq<nat>
    var unscheduled: nat
    var scheduled: nat
    var running: nat
    var dropRequests: nat
    ghost var tests: nat
    ghost var waiting: nat
    ghost var passed: nat
    ghost var failed: nat

    ghost function Value(): State
      reads this
    {
      State(queue, unscheduled, scheduled, running, tests, dropRequests, waiting, passed, failed)
    }

    ghost predicate Valid()
      reads this
    {
      Inv(cfg, Value())
    }

    constructor (cfg: Config)
      ensures Valid() && Value() == IDLE && this.cfg == cfg
    {
      this.cfg := cfg;
      queue, unscheduled, scheduled, running, dropRequests := [], 0, 0, 0, 0;
      tests, waiting, passed, failed := 0, 0, 0, 0;
    }

    method AddToGCQueue(cf: nat)
      modifies this`queue, this`unscheduled
      ensures Value() == Added(old(Value()), cf)
    {
      unscheduled := unscheduled + 1;
      queue := queue + [cf];
    }

    method PopFirstFromGCQueue() returns (cf: nat)
      requires queue != []
      modifies this`queue
      ensures old(queue) == [cf] + queue
    {
      cf := queue[0];
      queue := queue[1..];
    }

    method MaybeScheduleGC()
      modifies this`unscheduled, this`scheduled
      ensures Value() == Scheduled(cfg, old(Value()))
      ensures unscheduled + scheduled == old(unscheduled + scheduled)
      ensures cfg.enabled ==> unscheduled == 0 || scheduled >= cfg.maxBackgroundGc
    {
      if !cfg.enabled {
        return;
      }
      ghost var before := Value();
      while unscheduled > 0 && scheduled < cfg.maxBackgroundGc
        invariant Scheduled(cfg, Value()) == Scheduled(cfg, before)
        decreases unscheduled
      {
        unscheduled := unscheduled - 1;
        scheduled := scheduled + 1;
      }
    }

    /** BackgroundCallGC up to the job: drops come first, and there is always an entry to take. */
    method StartWorker() returns (cf: nat)
      requires Valid() && Enabled(Value(), WorkerStart)
      modifies this`queue, this`running
      ensures Valid() && Value() == Apply(cfg, old(Value()), WorkerStart) && old(queue) == [cf] + queue
    {
      StepKeepsInv(cfg, Value(), WorkerStart);
      running := running + 1;
      cf := PopFirstFromGCQueue();
    }

    /** The end of BackgroundGC: a column family with data left goes back if the queue is short. */
    method RequeueGC(next: Option<nat>)
      modifies this`queue, this`unscheduled
      ensures Value() == Requeued(cfg, old(Value()), next)
      ensures queue == if next.Some? && old(scheduled) + |old(queue)| <= 2 * cfg.maxBackgroundGc
                       then old(queue) + [next.value] else old(queue)
      ensures unscheduled - old(unscheduled) == |queue| - |old(queue)|
    {
      if next.Some? && scheduled - 1 + |queue| < 2 * cfg.maxBackgroundGc {
        AddToGCQueue(next.value);
      }
    }

    /** BackgroundCallGC after the job. */
    method EndWorker(next: Option<nat>)
      requires Valid() && Enabled(Value(), WorkerEnd(next))
      modifies this
      ensures Valid() && Value() == Apply(cfg, old(Value()), WorkerEnd(next))
    {
      StepKeepsInv(cfg, Value(), WorkerEnd(next));
      RequeueGC(next);
      running, scheduled := running - 1, scheduled - 1;
      MaybeScheduleGC();
    }

    /** DropColumnFamilies raises its request before it waits. */
    method BeginDrop()
      requires Valid()
      modifies this`dropRequests, this`waiting
      ensures Valid() && Value() == Apply(cfg, old(Value()), DropBegin)
    {
      dropRequests := dropRequests + 1;
      waiting := waiting + 1;
    }

    /** The end of the wait: no GC runs, and none can start before the drop is done. */
    method PassDropWait()
      requires Valid() && Enabled(Value(), DropPassWait)
      modifies this`waiting, this`passed
      ensures Valid() && Value() == Apply(cfg, old(Value()), DropPassWait)
    {
      waiting, passed := waiting - 1, passed + 1;
    }

    /** The request is taken back only after a successful drop. */
    method EndDrop(ok: bool)
      requires Valid() && Enabled(Value(), DropDone(ok))
      modifies this`dropRequests, this`passed, this`failed
      ensures Valid() && Value() == Apply(cfg, old(Value()), DropDone(ok))
    {
      passed := passed - 1;
      if ok {
        dropRequests := dropRequests - 1;
      } else {
        failed := failed + 1;
      }
    }
  }
}
