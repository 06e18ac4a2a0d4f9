/** The states of blob files under flushes, compactions, GC jobs, range deletions and restarts. */
module FileStates {
  import opened Types

  datatype FileEvent =
    | FlushCompleted | GCCompleted | CompactionCompleted | GCBegin | GCOutput
    | FlushOrCompactionOutput | DbRestart | Delete | NeedMerge | Reset

  /** FileStateTransit; None where its assertion fails. */
  function Transit(s: FileState, e: FileEvent): Option<FileState> {
    match e
    case FlushCompleted => if s == InitState || s == ToMerge then None else Some(if s == PendingLSM then Normal else s)
    case GCCompleted => if s == Obsolete then Some(s) else if s == PendingGC || s == BeingGC then Some(Normal) else None
    case CompactionCompleted => if s == PendingLSM then Some(Normal) else None
    case GCBegin => if s == Normal then Some(BeingGC) else None
    case GCOutput => if s == InitState then Some(PendingGC) else None
    case FlushOrCompactionOutput => if s == InitState then Some(PendingLSM) else None
    case DbRestart => if s == InitState then Some(Normal) else None
    case Delete => if s == Obsolete then None else Some(Obsolete)
    case NeedMerge => if s == ToMerge then Some(s) else if s == Normal then Some(ToMerge) else None
    case Reset => Some(Normal)
  }

  type Metas = map<nat, FileState>

  predicate CanAll(metas: Metas, files: set<nat>, e: FileEvent) {
    forall f :: f in files ==> f in metas && Transit(metas[f], e).Some?
  }

  /** Every file of a set goes through the same event; None if one of them cannot. */
  function TransitAll(metas: Metas, files: set<nat>, e: FileEvent): Option<Metas> {
    if CanAll(metas, files, e)
    then Some(map f | f in metas :: if f in files then Transit(metas[f], e).value else metas[f])
    else None
  }

  function ToSet(files: seq<nat>): set<nat> {
    set f | f in files
  }

  lemma TransitMore(metas0: Metas, done: set<nat>, f: nat, e: FileEvent, metas: Metas)
    requires CanAll(metas0, done, e) && metas == TransitAll(metas0, done, e).value && f in metas0 && f !in done
    ensures metas[f] == metas0[f]
    ensures Transit(metas0[f], e).Some? ==>
              && CanAll(metas0, done + {f}, e)
              && metas[f := Transit(metas0[f], e).value] == TransitAll(metas0, done + {f}, e).value
  {
  }

  /** The loops of BlobGC over its inputs and outputs. */
  method TransitFiles(metas0: Metas, files: seq<nat>, e: FileEvent) returns (r: Option<Metas>)
    requires forall i :: 0 <= i < |files| ==> files[i] in metas0
    requires forall i, j :: 0 <= i < j < |files| ==> files[i] != files[j]
    ensures r == TransitAll(metas0, ToSet(files), e)
  {
    var metas := metas0;
    for i := 0 to |files|
      invariant CanAll(metas0, ToSet(files[..i]), e) && metas == TransitAll(metas0, ToSet(files[..i]), e).value
    {
      var f := files[i];
      assert ToSet(files[..i + 1]) == ToSet(files[..i]) + {f};
      TransitMore(metas0, ToSet(files[..i]), f, e, metas);
      var next := Transit(metas[f], e);
      if next.None? {
        assert f in ToSet(files);
        return None;
      }
      metas := metas[f := next.value];
    }
    assert files[..|files|] == files;
    return Some(metas);
  }

  // ---- the system

  /** A GC job between its pick and its release. */
  datatype Job = Job(inputs: set<nat>, outputs: set<nat>)

  /** `metas` are all file metas of this process; `stored` are the numbers the storage still holds. */
  datatype State = State(metas: Metas, stored: set<nat>, jobs: map<nat, Job>, next: nat)

  datatype Event =
    | TableOutput
    | FlushDone(file: nat)
    | CompactionDone(file: nat, grows: bool)
    | Pick(id: nat, inputs: set<nat>)
    | JobOutput(id: nat)
    | DeleteInputs(id: nat)
    | RangeDelete(files: set<nat>)
    | Release(id: nat)
    | Purge(file: nat)
    | Restart

  const FRESH := State(map[], {}, map[], 1)

  /** A file the picker accepts. */
  predicate Pickable(s: State, f: nat) {
    f in s.stored && f in s.metas && s.metas[f] == Normal
  }

  predicate Enabled(s: State, e: Event) {
    match e
    case TableOutput => true
    case FlushDone(_) => true
    case CompactionDone(_, _) => true
    case Pick(id, inputs) => id !in s.jobs && forall f :: f in inputs ==> Pickable(s, f)
    case JobOutput(id) => id in s.jobs
    case DeleteInputs(id) => id in s.jobs
    case RangeDelete(files) => forall f :: f in files ==> f in s.stored && f in s.metas && s.metas[f] != Obsolete
    case Release(id) => id in s.jobs
    case Purge(f) => f in s.stored && f in s.metas && s.metas[f] == Obsolete
    case Restart => true
  }

  /** The outcome of a set of transitions, or None when an assertion fails. */
  function WithMetas(s: State, metas: Option<Metas>): Option<State> {
    if metas.None? then None else Some(s.(metas := metas.value))
  }

  function NewFile(s: State, e: FileEvent): Option<State> {
    match Transit(InitState, e)
    case None => None
    case Some(st) => Some(s.(metas := s.metas[s.next := st], stored := s.stored + {s.next}, next := s.next + 1))
  }

  function NotObsolete(s: State, files: set<nat>): set<nat> {
    set f | f in files && f in s.metas && s.metas[f] != Obsolete
  }

  function Apply(s: State, e: Event): Option<State>
    requires Enabled(s, e)
  {
    match e
    case TableOutput => NewFile(s, FlushOrCompactionOutput)
    case FlushDone(f) =>
      if f in s.stored && f in s.metas && s.metas[f] == PendingLSM
      then WithMetas(s, TransitAll(s.metas, {f}, FlushCompleted)) else Some(s)
    case CompactionDone(f, grows) =>
      if f in s.stored && f in s.metas && s.metas[f] == PendingLSM && grows
      then WithMetas(s, TransitAll(s.metas, {f}, CompactionCompleted)) else Some(s)
    case Pick(id, inputs) =>
      (match TransitAll(s.metas, inputs, GCBegin)
       case None => None
       case Some(metas) => Some(s.(metas := metas, jobs := s.jobs[id := Job(inputs, {})])))
    case JobOutput(id) =>
      (match NewFile(s, GCOutput)
       case None => None
       case Some(r) => Some(r.(jobs := s.jobs[id := s.jobs[id].(outputs := s.jobs[id].outputs + {s.next})])))
    case DeleteInputs(id) => WithMetas(s, TransitAll(s.metas, NotObsolete(s, s.jobs[id].inputs), Delete))
    case RangeDelete(files) => WithMetas(s, TransitAll(s.metas, files, Delete))
    case Release(id) =>
      (match TransitAll(s.metas, s.jobs[id].inputs + s.jobs[id].outputs, GCCompleted)
       case None => None
       case Some(metas) => Some(s.(metas := metas, jobs := s.jobs - {id})))
    case Purge(f) => Some(s.(stored := s.stored - {f}))
    case Restart =>
      if Transit(InitState, DbRestart).None? then None
      else
        var alive := NotObsolete(s, s.stored);
        Some(State(map f | f in alive :: Transit(InitState, DbRestart).value, alive, map[], s.next))
  }

  // ---- what every step keeps

  predicate InputState(s: FileState) {
    s == BeingGC || s == Obsolete
  }

  predicate OutputState(s: FileState) {
    s == PendingGC || s == Obsolete
  }

  predicate JobOk(metas: Metas, job: Job) {
    && job.inputs !! job.outputs
    && (forall f :: f in job.inputs ==> f in metas && InputState(metas[f]))
    && (forall f :: f in job.outputs ==> f in metas && OutputState(metas[f]))
  }

  function FilesOf(job: Job): set<nat> {
    job.inputs + job.outputs
  }

  predicate Inv(s: State) {
    && s.stored <= s.metas.Keys
    && (forall f :: f in s.metas ==> f < s.next && s.metas[f] != InitState && s.metas[f] != ToMerge)
    && (forall id :: id in s.jobs ==> JobOk(s.metas, s.jobs[id]))
    && (forall a, b :: a in s.jobs && b in s.jobs && a != b ==> FilesOf(s.jobs[a]) !! FilesOf(s.jobs[b]))
  }

  /** New files and single transitions that leave the files of jobs alone. */
  lemma NewFileInv(s: State, e: FileEvent)
    requires Inv(s) && (e == FlushOrCompactionOutput || e == GCOutput)
    ensures NewFile(s, e).Some? && Inv(NewFile(s, e).value)
  {
    var s' := NewFile(s, e).value;
    forall id | id in s.jobs
      ensures JobOk(s'.metas, s.jobs[id])
    {
      assert JobOk(s.metas, s.jobs[id]);
    }
  }

  lemma SettleInv(s: State, f: nat, e: FileEvent)
    requires Inv(s) && f in s.metas && s.metas[f] == PendingLSM && (e == FlushCompleted || e == CompactionCompleted)
    ensures WithMetas(s, TransitAll(s.metas, {f}, e)).Some?
    ensures Inv(WithMetas(s, TransitAll(s.metas, {f}, e)).value)
  {
    var metas := TransitAll(s.metas, {f}, e).value;
    forall id | id in s.jobs
      ensures JobOk(metas, s.jobs[id])
    {
      assert JobOk(s.metas, s.jobs[id]);
    }
  }

  /** Deleting live files, whoever asks for it. */
  lemma DeleteInv(s: State, files: set<nat>)
    requires Inv(s) && forall f :: f in files ==> f in s.metas && s.metas[f] != Obsolete
    ensures WithMetas(s, TransitAll(s.metas, files, Delete)).Some?
    ensures Inv(WithMetas(s, TransitAll(s.metas, files, Delete)).value)
  {
    var metas := TransitAll(s.metas, files, Delete).value;
    forall id | id in s.jobs
      ensures JobOk(metas, s.jobs[id])
    {
      assert JobOk(s.metas, s.jobs[id]);
    }
  }

  /** A file in normal state belongs to no unfinished job. */
  lemma NormalIsFree(s: State, f: nat, id: nat)
    requires Inv(s) && id in s.jobs && f in s.metas && s.metas[f] == Normal
    ensures f !in FilesOf(s.jobs[id])
  {
    assert JobOk(s.metas, s.jobs[id]);
  }

  lemma PickInv(s: State, id: nat, inputs: set<nat>)
    requires Inv(s) && Enabled(s, Pick(id, inputs))
    ensures Apply(s, Pick(id, inputs)).Some? && Inv(Apply(s, Pick(id, inputs)).value)
  {
    var metas := TransitAll(s.metas, inputs, GCBegin).value;
    forall a | a in s.jobs
      ensures JobOk(metas, s.jobs[a]) && inputs !! FilesOf(s.jobs[a])
    {
      assert JobOk(s.metas, s.jobs[a]);
      forall f | f in inputs
        ensures f !in FilesOf(s.jobs[a])
      {
        NormalIsFree(s, f, a);
      }
    }
  }

  lemma NextIsFree(s: State)
    requires Inv(s)
    ensures forall a :: a in s.jobs ==> s.next !in FilesOf(s.jobs[a])
  {
    forall a | a in s.jobs
      ensures s.next !in FilesOf(s.jobs[a])
    {
      assert JobOk(s.metas, s.jobs[a]);
    }
  }

  lemma JobOutputApart(jobs: map<nat, Job>, id: nat, f: nat)
    requires id in jobs && forall a :: a in jobs ==> f !in FilesOf(jobs[a])
    requires forall a, b :: a in jobs && b in jobs && a != b ==> FilesOf(jobs[a]) !! FilesOf(jobs[b])
    ensures var jobs' := jobs[id := jobs[id].(outputs := jobs[id].outputs + {f})];
            forall a, b :: a in jobs' && b in jobs' && a != b ==> FilesOf(jobs'[a]) !! FilesOf(jobs'[b])
  {
    var jobs' := jobs[id := jobs[id].(outputs := jobs[id].outputs + {f})];
    assert FilesOf(jobs'[id]) == FilesOf(jobs[id]) + {f};
    forall a, b | a in jobs' && b in jobs' && a != b
      ensures FilesOf(jobs'[a]) !! FilesOf(jobs'[b])
    {
      assert FilesOf(jobs[a]) !! FilesOf(jobs[b]);
    }
  }

  lemma JobOutputJobs(metas: Metas, jobs: map<nat, Job>, id: nat, f: nat)
    requires id in jobs && f in metas && OutputState(metas[f])
    requires forall a :: a in jobs ==> JobOk(metas, jobs[a]) && f !in FilesOf(jobs[a])
    ensures var jobs' := jobs[id := jobs[id].(outputs := jobs[id].outputs + {f})];
            forall a :: a in jobs' ==> JobOk(metas, jobs'[a])
  {
    assert JobOk(metas, jobs[id]);
  }

  lemma JobOutputIs(s: State, id: nat)
    requires Enabled(s, JobOutput(id))
    ensures NewFile(s, GCOutput).Some?
    ensures Apply(s, JobOutput(id)) ==
              Some(NewFile(s, GCOutput).value.(jobs := s.jobs[id := s.jobs[id].(outputs := s.jobs[id].outputs + {s.next})]))
  {
  }

  lemma JobOutputInv(s: State, id: nat)
    requires Inv(s) && Enabled(s, JobOutput(id))
    ensures Apply(s, JobOutput(id)).Some? && Inv(Apply(s, JobOutput(id)).value)
  {
    NewFileInv(s, GCOutput);
    NextIsFree(s);
    JobOutputIs(s, id);
    JobOutputJobs(NewFile(s, GCOutput).value.metas, s.jobs, id, s.next);
    JobOutputApart(s.jobs, id, s.next);
  }

  lemma ReleaseInv(s: State, id: nat)
    requires Inv(s) && Enabled(s, Release(id))
    ensures Apply(s, Release(id)).Some? && Inv(Apply(s, Release(id)).value)
  {
    assert JobOk(s.metas, s.jobs[id]);
    var files := FilesOf(s.jobs[id]);
    var metas := TransitAll(s.metas, files, GCCompleted).value;
    forall a | a in s.jobs && a != id
      ensures JobOk(metas, s.jobs[a])
    {
      assert JobOk(s.metas, s.jobs[a]);
      assert FilesOf(s.jobs[a]) !! files;
      forall f | f in FilesOf(s.jobs[a])
        ensures f in metas && metas[f] == s.metas[f]
      {
      }
    }
  }

  /** No assertion of FileStateTransit fails, and the jobs stay apart. */
  lemma StepKeepsInv(s: State, e: Event)
    requires Inv(s) && Enabled(s, e)
    ensures Apply(s, e).Some? && Inv(Apply(s, e).value)
  {
    match e
    case TableOutput => NewFileInv(s, FlushOrCompactionOutput);
    case FlushDone(f) =>
      if f in s.stored && s.metas[f] == PendingLSM {
        SettleInv(s, f, FlushCompleted);
      }
    case CompactionDone(f, grows) =>
      if f in s.stored && s.metas[f] == PendingLSM && grows {
        SettleInv(s, f, CompactionCompleted);
      }
    case Pick(id, inputs) => PickInv(s, id, inputs);
    case JobOutput(id) => JobOutputInv(s, id);
    case DeleteInputs(id) => DeleteInv(s, NotObsolete(s, s.jobs[id].inputs));
    case RangeDelete(files) => DeleteInv(s, files);
    case Release(id) => ReleaseInv(s, id);
    case Purge(_) =>
    case Restart =>
  }

  // ---- runs

  /** Every event is possible when it comes, and no transition fails on the way. */
  predicate ValidRun(s: State, es: seq<Event>)
    decreases |es|
  {
    es == [] ||
    (Enabled(s, es[0]) && (Apply(s, es[0]).Some? ==> ValidRun(Apply(s, es[0]).value, es[1..])))
  }

  /** The state after a run, or None as soon as an assertion fails. */
  function Run(s: State, es: seq<Event>): Option<State>
    requires ValidRun(s, es)
    decreases |es|
  {
    if es == [] then Some(s)
    else if Apply(s, es[0]).None? then None
    else Run(Apply(s, es[0]).value, es[1..])
  }

  lemma {:induction false} RunKeepsInv(s: State, es: seq<Event>)
    requires Inv(s) && ValidRun(s, es)
    ensures Run(s, es).Some? && Inv(Run(s, es).value)
    decreases |es|
  {
    if es != [] {
      StepKeepsInv(s, es[0]);
      RunKeepsInv(Apply(s, es[0]).value, es[1..]);
    }
  }

  /**
   Over every run no assertion of the state machine fails, no file is an input of two unfinished
   jobs, and no output of an unfinished job can be picked.
   */
  lemma FileStatesSafe(es: seq<Event>)
    requires ValidRun(FRESH, es)
    ensures Run(FRESH, es).Some?
    ensures var s := Run(FRESH, es).value;
            && (forall a, b :: a in s.jobs && b in s.jobs && a != b ==> s.jobs[a].inputs !! s.jobs[b].inputs)
            && (forall a, f :: a in s.jobs && f in s.jobs[a].outputs ==> !Pickable(s, f))
  {
    RunKeepsInv(FRESH, es);
    var s := Run(FRESH, es).value;
    forall a, b | a in s.jobs && b in s.jobs && a != b
      ensures s.jobs[a].inputs !! s.jobs[b].inputs
    {
      assert FilesOf(s.jobs[a]) !! FilesOf(s.jobs[b]);
    }
    forall a, f | a in s.jobs && f in s.jobs[a].outputs
      ensures !Pickable(s, f)
    {
      assert JobOk(s.metas, s.jobs[a]);
    }
  }

  // ---- what an event does

  predicate IsInput(jobs: map<nat, Job>, f: nat) {
    exists id :: id in jobs && f in jobs[id].inputs
  }

  predicate IsOutput(jobs: map<nat, Job>, f: nat) {
    exists id :: id in jobs && f in jobs[id].outputs
  }

  /** The files an event makes obsolete. */
  function DeletedBy(s: State, e: Event): set<nat> {
    match e
    case DeleteInputs(id) => if id in s.jobs then s.jobs[id].inputs else {}
    case RangeDelete(files) => files
    case _ => {}
  }

  /** The only way to become obsolete is a deletion, and no deletion fails. */
  lemma ObsoleteByDeletion(s: State, e: Event, f: nat)
    requires Inv(s) && Enabled(s, e) && Apply(s, e).Some? && f in Apply(s, e).value.metas
    ensures Apply(s, e).value.metas[f] == Obsolete <==> (f in s.metas && s.metas[f] == Obsolete) || f in DeletedBy(s, e)
  {
    if e.DeleteInputs? || e.Release? {
      assert JobOk(s.metas, s.jobs[e.id]);
    }
  }

  /** Completion: a stored file that waits for its table becomes pickable, and nothing else changes. */
  lemma SettledIs(s: State, f: nat, e: Event)
    requires Inv(s) && (e == FlushDone(f) || e == CompactionDone(f, true)) && Apply(s, e).Some?
    ensures var s' := Apply(s, e).value;
            && s' == s.(metas := s'.metas) && s'.metas.Keys == s.metas.Keys
            && (forall g :: g in s.metas ==>
                  s'.metas[g] == if g == f && f in s.stored && s.metas[f] == PendingLSM then Normal else s.metas[g])
  {
  }

  /** A released job gives back what is not obsolete, and touches no other file. */
  lemma ReleasedIs(s: State, id: nat)
    requires Inv(s) && id in s.jobs && Apply(s, Release(id)).Some?
    ensures var s' := Apply(s, Release(id)).value;
            && s'.jobs == s.jobs - {id} && s'.stored == s.stored && s'.next == s.next && s'.metas.Keys == s.metas.Keys
            && (forall f :: f in s.metas ==>
                  s'.metas[f] == if f in FilesOf(s.jobs[id]) && s.metas[f] != Obsolete then Normal else s.metas[f])
  {
    assert JobOk(s.metas, s.jobs[id]);
  }

  lemma PickedIs(s: State, id: nat, inputs: set<nat>)
    requires Inv(s) && Enabled(s, Pick(id, inputs)) && Apply(s, Pick(id, inputs)).Some?
    ensures var s' := Apply(s, Pick(id, inputs)).value;
            && s'.jobs == s.jobs[id := Job(inputs, {})] && s'.stored == s.stored && s'.next == s.next
            && s'.metas.Keys == s.metas.Keys
            && (forall f :: f in s.metas ==> s'.metas[f] == if f in inputs then BeingGC else s.metas[f])
  {
  }

  lemma DeletedIs(s: State, e: Event)
    requires Inv(s) && Enabled(s, e) && (e.DeleteInputs? || e.RangeDelete?) && Apply(s, e).Some?
    ensures var s' := Apply(s, e).value;
            && s' == s.(metas := s'.metas) && s'.metas.Keys == s.metas.Keys
            && (forall f :: f in s.metas ==> s'.metas[f] == if f in DeletedBy(s, e) then Obsolete else s.metas[f])
  {
  }

  /** A restart brings back exactly the stored files that are not obsolete, all of them pickable. */
  lemma RestartedIs(s: State)
    requires Inv(s)
    ensures Apply(s, Restart).Some?
    ensures var s' := Apply(s, Restart).value;
            && s'.jobs == map[] && s'.next == s.next
            && (forall f :: f in s'.stored <==> f in s.stored && s.metas[f] != Obsolete)
            && (forall f :: f in s'.stored ==> Pickable(s', f))
  {
  }

  /** After any run, the next event leaves the files in the states they should have. */
  lemma StatesAfter(es: seq<Event>, e: Event)
    requires ValidRun(FRESH, es) && Run(FRESH, es).Some? && Enabled(Run(FRESH, es).value, e)
    ensures var s := Run(FRESH, es).value;
            && Apply(s, e).Some?
            && var s' := Apply(s, e).value;
            && s'.stored <= s'.metas.Keys
            && (e == Restart ==> forall f :: f in s'.stored ==> Pickable(s', f))
            && (e.Release? ==> forall f :: f in FilesOf(s.jobs[e.id]) && f in s'.stored && s'.metas[f] != Obsolete ==> Pickable(s', f))
            && (e.FlushDone? && e.file in s.stored && s.metas[e.file] == PendingLSM ==> Pickable(s', e.file))
            && (e.CompactionDone? && e.grows && e.file in s.stored && s.metas[e.file] == PendingLSM ==> Pickable(s', e.file))
            && (forall f :: f in s'.metas ==>
                  (s'.metas[f] == Obsolete <==> (f in s.metas && s.metas[f] == Obsolete) || f in DeletedBy(s, e)))
  {
    RunKeepsInv(FRESH, es);
    var s := Run(FRESH, es).value;
    StepKeepsInv(s, e);
    forall f | f in Apply(s, e).value.metas
      ensures Apply(s, e).value.metas[f] == Obsolete <==> (f in s.metas && s.metas[f] == Obsolete) || f in DeletedBy(s, e)
    {
      ObsoleteByDeletion(s, e, f);
    }
    if e.FlushDone? || (e.CompactionDone? && e.grows) {
      SettledIs(s, e.file, e);
    } else if e.Release? {
      ReleasedIs(s, e.id);
    } else if e == Restart {
      RestartedIs(s);
    }
  }

  // ---- the state of a file by its history

  /** What a run has done so far: files there are, files deleted, and tables whose completion is still to come. */
  datatype History = History(there: set<nat>, deleted: set<nat>, pending: set<nat>)

  const NO_HISTORY := History({}, {}, {})

  function Recorded(h: History, s: State, e: Event): History {
    match e
    case TableOutput => History(h.there + {s.next}, h.deleted, h.pending + {s.next})
    case FlushDone(f) => h.(pending := h.pending - {f})
    case CompactionDone(f, grows) => if grows then h.(pending := h.pending - {f}) else h
    case Pick(_, _) => h
    case JobOutput(_) => h.(there := h.there + {s.next})
    case DeleteInputs(_) => h.(deleted := h.deleted + DeletedBy(s, e))
    case RangeDelete(_) => h.(deleted := h.deleted + DeletedBy(s, e))
    case Release(_) => h
    case Purge(f) => h.(there := h.there - {f})
    case Restart => History(h.there - h.deleted, h.deleted, {})
  }

  function HistoryOf(h: History, s: State, es: seq<Event>): History
    requires ValidRun(s, es)
    decreases |es|
  {
    if es == [] || Apply(s, es[0]).None? then h
    else HistoryOf(Recorded(h, s, es[0]), Apply(s, es[0]).value, es[1..])
  }

  function StateBy(h: History, jobs: map<nat, Job>, f: nat): FileState {
    if f in h.deleted then Obsolete
    else if IsInput(jobs, f) then BeingGC
    else if IsOutput(jobs, f) then PendingGC
    else if f in h.pending then PendingLSM
    else Normal
  }

  predicate Told(h: History, s: State) {
    && s.stored == h.there
    && (forall f :: f in s.stored ==> f in s.metas && s.metas[f] == StateBy(h, s.jobs, f))
    && (forall f :: f in h.deleted ==> f < s.next)
    && (forall f :: f in h.pending ==> f < s.next)
    && (forall id :: id in s.jobs ==> FilesOf(s.jobs[id]) !! h.pending)
  }

  lemma WrittenTold(h: History, s: State)
    requires Inv(s) && Told(h, s) && Apply(s, TableOutput).Some?
    ensures Told(Recorded(h, s, TableOutput), Apply(s, TableOutput).value)
  {
    NextIsFree(s);
  }

  lemma OneMoreOutput(jobs: map<nat, Job>, id: nat, n: nat, f: nat)
    requires id in jobs
    ensures var jobs' := jobs[id := jobs[id].(outputs := jobs[id].outputs + {n})];
            IsInput(jobs', f) == IsInput(jobs, f) && IsOutput(jobs', f) == (IsOutput(jobs, f) || f == n)
  {
    var jobs' := jobs[id := jobs[id].(outputs := jobs[id].outputs + {n})];
    assert n in jobs'[id].outputs;
    assert forall a :: a in jobs ==> jobs'[a].inputs == jobs[a].inputs && jobs[a].outputs <= jobs'[a].outputs;
    assert forall a :: a in jobs && f != n ==> (f in jobs'[a].outputs <==> f in jobs[a].outputs);
  }

  lemma OutputTold(h: History, s: State, id: nat)
    requires Inv(s) && Told(h, s) && Enabled(s, JobOutput(id)) && Apply(s, JobOutput(id)).Some?
    ensures Told(Recorded(h, s, JobOutput(id)), Apply(s, JobOutput(id)).value)
  {
    NextIsFree(s);
    JobOutputIs(s, id);
    var s' := Apply(s, JobOutput(id)).value;
    assert FilesOf(s'.jobs[id]) == FilesOf(s.jobs[id]) + {s.next};
    assert !IsInput(s.jobs, s.next) by {
      assert forall a :: a in s.jobs ==> s.jobs[a].inputs <= FilesOf(s.jobs[a]);
    }
    forall f | f in s'.stored
      ensures s'.metas[f] == StateBy(h, s'.jobs, f)
    {
      OneMoreOutput(s.jobs, id, s.next, f);
    }
  }

  lemma SettledTold(h: History, s: State, f: nat, e: Event)
    requires Inv(s) && Told(h, s) && (e == FlushDone(f) || e == CompactionDone(f, true)) && Apply(s, e).Some?
    ensures Told(Recorded(h, s, e), Apply(s, e).value)
  {
    SettledIs(s, f, e);
  }

  lemma PickedTold(h: History, s: State, id: nat, inputs: set<nat>)
    requires Inv(s) && Told(h, s) && Enabled(s, Pick(id, inputs)) && Apply(s, Pick(id, inputs)).Some?
    ensures Told(h, Apply(s, Pick(id, inputs)).value)
  {
    PickedIs(s, id, inputs);
    var jobs := s.jobs[id := Job(inputs, {})];
    assert jobs[id].inputs == inputs;
    forall f | f in s.stored
      ensures IsInput(jobs, f) == (IsInput(s.jobs, f) || f in inputs) && IsOutput(jobs, f) == IsOutput(s.jobs, f)
    {
      assert forall a :: a in s.jobs ==> jobs[a] == s.jobs[a];
    }
  }

  lemma OneJobLess(jobs: map<nat, Job>, id: nat, f: nat)
    requires id in jobs && forall a :: a in jobs && a != id ==> FilesOf(jobs[a]) !! FilesOf(jobs[id])
    ensures var jobs' := jobs - {id};
            if f in FilesOf(jobs[id]) then !IsInput(jobs', f) && !IsOutput(jobs', f)
            else IsInput(jobs', f) == IsInput(jobs, f) && IsOutput(jobs', f) == IsOutput(jobs, f)
  {
    var jobs' := jobs - {id};
    if f in FilesOf(jobs[id]) {
      forall a | a in jobs'
        ensures f !in FilesOf(jobs'[a])
      {
        assert FilesOf(jobs[a]) !! FilesOf(jobs[id]);
      }
    } else {
      assert forall a :: a in jobs && a != id ==> a in jobs' && jobs'[a] == jobs[a];
    }
  }

  lemma ReleasedTold(h: History, s: State, id: nat)
    requires Inv(s) && Told(h, s) && id in s.jobs && Apply(s, Release(id)).Some?
    ensures Told(h, Apply(s, Release(id)).value)
  {
    ReleasedIs(s, id);
    forall f {
      OneJobLess(s.jobs, id, f);
    }
  }

  lemma DeletedTold(h: History, s: State, e: Event)
    requires Inv(s) && Told(h, s) && Enabled(s, e) && (e.DeleteInputs? || e.RangeDelete?) && Apply(s, e).Some?
    ensures Told(Recorded(h, s, e), Apply(s, e).value)
  {
    DeletedIs(s, e);
    if e.DeleteInputs? {
      assert JobOk(s.metas, s.jobs[e.id]);
    }
  }

  lemma PurgedTold(h: History, s: State, f: nat)
    requires Told(h, s) && Enabled(s, Purge(f))
    ensures Told(Recorded(h, s, Purge(f)), Apply(s, Purge(f)).value)
  {
  }

  lemma RestartedTold(h: History, s: State)
    requires Inv(s) && Told(h, s)
    ensures Apply(s, Restart).Some? && Told(Recorded(h, s, Restart), Apply(s, Restart).value)
  {
    RestartedIs(s);
  }

  lemma StepTold(h: History, s: State, e: Event)
    requires Inv(s) && Told(h, s) && Enabled(s, e) && Apply(s, e).Some?
    ensures Told(Recorded(h, s, e), Apply(s, e).value)
  {
    match e
    case TableOutput => WrittenTold(h, s);
    case FlushDone(f) => SettledTold(h, s, f, e);
    case CompactionDone(f, grows) =>
      if grows {
        SettledTold(h, s, f, e);
      }
    case Pick(id, inputs) => PickedTold(h, s, id, inputs);
    case JobOutput(id) => OutputTold(h, s, id);
    case DeleteInputs(id) => DeletedTold(h, s, e);
    case RangeDelete(files) => DeletedTold(h, s, e);
    case Release(id) => ReleasedTold(h, s, id);
    case Purge(f) => PurgedTold(h, s, f);
    case Restart => RestartedTold(h, s);
  }

  lemma {:induction false} RunTold(h: History, s: State, es: seq<Event>)
    requires Inv(s) && Told(h, s) && ValidRun(s, es)
    ensures Run(s, es).Some? && Told(HistoryOf(h, s, es), Run(s, es).value)
    decreases |es|
  {
    if es != [] {
      StepKeepsInv(s, es[0]);
      StepTold(h, s, es[0]);
      RunTold(Recorded(h, s, es[0]), Apply(s, es[0]).value, es[1..]);
    }
  }

  /**
   After every run the files are those that were written and neither purged nor dropped by a
   restart.  Each is obsolete exactly if it was deleted.  Otherwise it is reserved exactly while
   an unfinished job holds it, and pending exactly while the completion of its table is to come.
   It can be picked exactly if none of this is so.
   */
  lemma StateIsHistory(es: seq<Event>)
    requires ValidRun(FRESH, es) && Run(FRESH, es).Some?
    ensures var s, h := Run(FRESH, es).value, HistoryOf(NO_HISTORY, FRESH, es);
            && s.stored == h.there && s.stored <= s.metas.Keys
            && (forall f :: f in s.stored ==> s.metas[f] == StateBy(h, s.jobs, f))
            && (forall f :: Pickable(s, f) <==>
                  f in h.there && f !in h.deleted && f !in h.pending && !IsInput(s.jobs, f) && !IsOutput(s.jobs, f))
  {
    RunTold(NO_HISTORY, FRESH, es);
  }
}
