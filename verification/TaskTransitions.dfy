/**
 How a record on disk may change, in every run of the shared directory: which status follows
 which, and that nothing is recorded as cancelled unless its cancellation was requested on
 disk before.
 */
module TaskTransitions {
  import opened Options
  import opened TaskClosing
  import opened TaskPhases
  import opened TaskRuntime
  import opened TaskSystem
  import opened TaskTheorems

  /** One durable change of a task. */
  ghost predicate Advances(r: Record, r': Record) {
    && !Terminal(r) && r'.createdAt == r.createdAt
    && match r'.status
       case Completed(_) => r'.note == NoNote
       case Failed(code) =>
         || (r'.note == ExecutionFailed && r.note != CancellationRequested)
         || (r'.note == InterruptedNote && code == -32603)
       case Cancelled => r.note == CancellationRequested && r'.note == CancelledNote
       case Working =>
         (r.status == Working && r'.note == CancellationRequested) || (r.status.InputRequired? && r'.note == r.note)
       case InputRequired(q) =>
         || (r.status == r'.status && r'.note == CancellationRequested)
         || (r.status == Working && r'.note == r.note && r.note != CancellationRequested && q.Keys != {})
         || (r.status.InputRequired? && r'.note == r.note && FewerAsked(r.status.requests, q))
  }

  /** Some requests were answered, and the others are asked as before. */
  ghost predicate FewerAsked(was: Requests, left: Requests) {
    left.Keys < was.Keys && left.Keys != {} && forall k :: k in left ==> left[k] == was[k]
  }

  /** A task started anew. */
  predicate Started(r: Record) {
    r.status == Working && r.note == NoNote
  }

  // ---------- one runtime ----------

  /** Before close, only a task whose record says so has been told to stop. */
  ghost predicate AbortedForAReason(active: map<TaskId, Active>, records: map<TaskId, Record>, closed: bool) {
    forall id :: id in active && active[id].aborted && !closed && id in records && !Terminal(records[id]) ==>
      records[id].note == CancellationRequested
  }

  /** A task whose record says so has been told to stop. */
  ghost predicate RequestsAreHeard(active: map<TaskId, Active>, records: map<TaskId, Record>, due: set<TaskId>) {
    forall id :: id in active && id in records && !Terminal(records[id]) && records[id].note == CancellationRequested ==>
      active[id].aborted || id in due
  }

  ghost predicate AbortInv(active: map<TaskId, Active>, records: map<TaskId, Record>, closed: bool) {
    AbortedForAReason(active, records, closed) && RequestsAreHeard(active, records, {})
  }

  /** A waiter is rejected exactly when its task was told to stop. */
  ghost predicate StopsInv(active: map<TaskId, Active>) {
    forall id :: id in active && active[id].input.Some? ==> (active[id].input.value.rejected <==> active[id].aborted)
  }

  /** What the end of a callback makes of a record: its result, its error, or the cancellation that was asked for. */
  ghost predicate SettlesAs(outcome: Outcome, aborted: bool, r: Record) {
    match outcome
    case Result(v) => r.status == Completed(v) && r.note == NoNote
    case Error(code) =>
      if aborted then r.status == Cancelled && r.note == CancelledNote
      else r.status == Failed(code) && r.note == ExecutionFailed
  }

  /** Which operation writes which record. */
  ghost predicate WritesInv(job: Job, id: TaskId, record: Record, runs: map<TaskId, Phase>, active: map<TaskId, Active>) {
    match job
    case SettleJob =>
      id in runs && runs[id].Settling? && id in active && SettlesAs(runs[id].outcome, active[id].aborted, record)
    case CloseJob(_) => record.status == Failed(-32603) && record.note == InterruptedNote
    case RequestJob(_) => !Terminal(record) && (id in active ==> !active[id].aborted)
    case _ => !Terminal(record)
  }

  /** What is queued to be written follows from what is recorded. */
  ghost predicate QueuedInv(job: Job, id: TaskId, record: Record, records: map<TaskId, Record>) {
    && (job.StartJob? ==> Started(record))
    && (!job.StartJob? ==> id in records && Advances(records[id], record))
    && (job.CancelJob? ==> record.note == CancellationRequested)
    && (job.RequestJob? || job.UpdateJob? ==> id in records && record.note == records[id].note)
  }

  ghost predicate PlanInv(st: Store) {
    && AbortInv(st.active, st.records, st.closed) && StopsInv(st.active)
    && (st.queue.Saving? || st.queue.Saved? ==>
          && QueuedInv(st.queue.job, st.queue.id, st.queue.record, st.records)
          && WritesInv(st.queue.job, st.queue.id, st.queue.record, st.runs, st.active))
  }

  lemma StartKeepsPlan(st: Store, id: TaskId, now: nat)
    requires PlanInv(st)
    ensures PlanInv(StartStep(st, id, now))
  {
  }

  lemma SettleKeepsPlan(st: Store, id: TaskId, now: nat)
    requires PlanInv(st) && Phases(st)
    ensures PlanInv(SettleStep(st, id, now))
  {
  }

  lemma RequestKeepsPlan(st: Store, id: TaskId, requests: Requests, now: nat)
    requires PlanInv(st) && InputInv(st.active, st.records)
    ensures PlanInv(RequestStep(st, id, requests, now))
  {
    if MayAsk(st, id, requests) {
      assert ExchangeInv(st.active[id], st.records[id]);
    }
  }

  lemma UpdateKeepsPlan(st: Store, id: TaskId, responses: map<Key, Response>, now: nat)
    requires PlanInv(st) && InputInv(st.active, st.records)
    ensures PlanInv(UpdateStep(st, id, responses, now))
  {
    var st' := UpdateStep(st, id, responses, now);
    if st' != st {
      assert ExchangeInv(st.active[id], st.records[id]);
      var outstanding := st.active[id].input.value.outstanding;
      var accepted := Accepted(outstanding, responses);
      var left := outstanding - accepted.Keys;
      assert accepted.Keys <= outstanding.Keys;
      var k :| k in accepted.Keys;
      assert k in outstanding && k !in left;
      assert left.Keys < outstanding.Keys;
      assert left.Keys != {} ==> FewerAsked(outstanding, left);
    }
  }

  lemma CancelKeepsPlan(st: Store, id: TaskId, now: nat)
    requires PlanInv(st)
    ensures PlanInv(CancelStep(st, id, now))
  {
  }

  lemma CloseKeepsPlan(st: Store, id: TaskId, now: nat, ok: bool)
    requires PlanInv(st) && QueueInv(st)
    ensures PlanInv(CloseStep(st)) && PlanInv(CloseNextStep(st, id, now)) && PlanInv(ReleaseStep(st, ok))
  {
  }

  lemma RunsKeepPlan(st: Store, id: TaskId, outcome: Outcome)
    requires PlanInv(st)
    ensures PlanInv(RunBeginsStep(st, id)) && PlanInv(ExecuteEndsStep(st, id, outcome))
  {
    hide AbortInv, StopsInv, QueuedInv, SettlesAs, Terminal;
  }

  lemma RunEndsKeepsPlan(st: Store, id: TaskId)
    requires PlanInv(st)
    ensures PlanInv(RunEndsStep(st, id))
  {
    hide QueuedInv, SettlesAs;
  }

  lemma SavesKeepPlan(w: World)
    requires PlanInv(w.store)
    ensures PlanInv(SaveFailsStep(w.store)) && PlanInv(SaveStep(w).store)
  {
    hide Advances;
  }

  /** The record that was saved leaves nobody told to stop without a reason, and only a cancelled task yet to be told. */
  lemma RecordKeepsAborts(active: map<TaskId, Active>, records: map<TaskId, Record>, closed: bool, job: Job, id: TaskId, r: Record)
    requires AbortInv(active, records, closed) && QueuedInv(job, id, r, records) && (id in active ==> id in records)
    requires (job.SettleJob? || job.CloseJob? ==> Terminal(r)) && (job.StartJob? ==> id !in records)
    ensures AbortedForAReason(active, records[id := r], closed)
    ensures RequestsAreHeard(active, records[id := r], if job.CancelJob? then {id} else {})
  {
  }

  lemma ContinueKeepsPlan(st: Store)
    requires PlanInv(st) && MemInv(st)
    ensures PlanInv(ContinueStep(st))
  {
    if st.queue.Saved? {
      var q := st.queue;
      assert JobInv(q.job, q.id, q.record, st.records, st.runs, st.active);
      hide Advances, InputInv, AskedInv, ResolvedInv, ExecutedInv, QueueInv, AbortInv, QueuedInv;
      RecordKeepsAborts(st.active, st.records, st.closed, q.job, q.id, q.record);
      AfterSaveKeepsPlan(st.(records := st.records[q.id := q.record], queue := Idle), q.job, q.id);
    }
  }

  lemma AfterSaveKeepsPlan(st: Store, job: Job, id: TaskId)
    requires AbortedForAReason(st.active, st.records, st.closed) && StopsInv(st.active) && st.queue == Idle && id in st.records
    requires RequestsAreHeard(st.active, st.records, if job.CancelJob? then {id} else {})
    requires job.CancelJob? ==> st.records[id].note == CancellationRequested
    requires job.StartJob? ==> st.records[id].note == NoNote
    requires job.RequestJob? && id in st.active ==> !st.active[id].aborted
    ensures PlanInv(AfterSave(st, job, id))
  {
    hide Advances;
    match job
    case RequestJob(requests) => AskKeepsPlan(st, requests, id);
    case UpdateJob(accepted, left) => AnswerKeepsPlan(st, accepted, left, id);
    case CancelJob => StopKeepsPlan(st, id);
    case _ =>
  }

  lemma AskKeepsPlan(st: Store, requests: Requests, id: TaskId)
    requires AbortInv(st.active, st.records, st.closed) && StopsInv(st.active) && st.queue == Idle
    requires id in st.active ==> !st.active[id].aborted
    ensures PlanInv(AfterSave(st, RequestJob(requests), id))
  {
    hide Advances;
  }

  lemma AnswerKeepsPlan(st: Store, accepted: map<Key, nat>, left: Requests, id: TaskId)
    requires AbortInv(st.active, st.records, st.closed) && StopsInv(st.active) && st.queue == Idle
    ensures PlanInv(AfterSave(st, UpdateJob(accepted, left), id))
  {
    hide Advances;
  }

  lemma StopKeepsPlan(st: Store, id: TaskId)
    requires AbortedForAReason(st.active, st.records, st.closed) && StopsInv(st.active) && st.queue == Idle && id in st.records
    requires RequestsAreHeard(st.active, st.records, {id}) && st.records[id].note == CancellationRequested
    ensures PlanInv(AfterSave(st, CancelJob, id))
  {
    hide Advances;
  }

  lemma {:induction false} ExecKeepsPlan(w: World, ev: Event)
    requires MemInv(w.store) && PlanInv(w.store) && Phases(w.store)
    ensures PlanInv(Exec(w, ev).store)
  {
    hide StartStep, SettleStep, RequestStep, UpdateStep, CancelStep, CloseStep, CloseNextStep, ReleaseStep;
    hide SaveStep, SaveFailsStep, ContinueStep, ExecuteEndsStep, RunEndsStep, RunBeginsStep;
    hide RunsInv, InputInv, AskedInv, ResolvedInv, ExecutedInv, QueueInv, Phases;
    var st := w.store;
    match ev
    case StartOp(id, now) => StartKeepsPlan(st, id, now);
    case SettleOp(id, now) => SettleKeepsPlan(st, id, now);
    case CancelOp(id, now) => CancelKeepsPlan(st, id, now);
    case RequestOp(id, requests, now) => RequestKeepsPlan(st, id, requests, now);
    case UpdateOp(id, responses, now) => UpdateKeepsPlan(st, id, responses, now);
    case RunBegins(id) => RunsKeepPlan(st, id, Result(0));
    case ExecuteEnds(id, outcome) => RunsKeepPlan(st, id, outcome);
    case RunEnds(id) => RunEndsKeepsPlan(st, id);
    case SaveOk => SavesKeepPlan(w);
    case SaveFails => SavesKeepPlan(w);
    case CloseRequested =>
    case CloseOp => CloseKeepsPlan(st, 0, 0, true);
    case CloseNext(id, now) => CloseKeepsPlan(st, id, now, true);
    case ReleaseOk => CloseKeepsPlan(st, 0, 0, true);
    case ReleaseFails => CloseKeepsPlan(st, 0, 0, false);
    case Continue => ContinueKeepsPlan(st);
  }

  // ---------- the shared directory ----------

  ghost predicate StoreInv(st: Store) {
    PlanInv(st) && Phases(st) && QueueFits(st) && Owes(st)
  }

  lemma ExecKeepsStore(w: World, ev: Event)
    requires MemInv(w.store) && StoreInv(w.store)
    ensures StoreInv(Exec(w, ev).store)
  {
    hide MemInv, PlanInv, Phases, QueueFits, Owes, Exec;
    ExecKeepsPlan(w, ev);
    ExecKeepsPhases(w, ev);
    ExecKeepsOwes(w, ev);
  }

  /** What one runtime is about to write follows from what the disk says. */
  ghost predicate WriterInv(rt: Runtime, disk: Disk) {
    && StoreInv(rt.store)
    && (Holds(rt) && rt.stage.Recovering? && rt.stage.rewrite.Some? ==>
          var (id, record) := rt.stage.rewrite.value;
          id in disk && Advances(disk[id], record) && record.status == Failed(-32603) && record.note == InterruptedNote)
  }

  ghost predicate WritersInv(s: System) {
    forall r :: r in s.runtimes ==> WriterInv(s.runtimes[r], s.disk)
  }

  /** What a step may do to the disk. */
  ghost predicate DiskAdvances(disk: Disk, disk': Disk) {
    && (forall id :: id in disk ==> id in disk' && (disk'[id] == disk[id] || Advances(disk[id], disk'[id])))
    && (forall id :: id in disk' && id !in disk ==> Started(disk'[id]))
  }

  lemma LocalAdvances(w: World, ev: Event)
    requires MemInv(w.store) && PlanInv(w.store)
    requires !w.store.leaseReleased ==> DiskAgrees(w.store, w.disk)
    ensures DiskAdvances(w.disk, Exec(w, ev).disk)
  {
    hide Exec, Advances;
    hide RunsInv, InputInv, AskedInv, ResolvedInv, ExecutedInv;
    if Exec(w, ev).disk != w.disk {
      WriteIsASave(w, ev);
    }
  }

  /** The step of `r` leaves the other runtimes' plans alone, as none of them holds the lease when it writes. */
  lemma OthersKeepPlans(s: System, s': System, r: Name, x: Name)
    requires Inv(s) && WritersInv(s) && r in s.runtimes && x in s.runtimes && x != r
    requires Holds(s.runtimes[r]) || s'.disk == s.disk
    ensures WriterInv(s.runtimes[x], s'.disk)
  {
    hide MemInv, StoreInv, Advances;
    assert WriterInv(s.runtimes[x], s.disk);
    if Holds(s.runtimes[r]) {
      hide LeaseInv;
      OneHolder(s, r, x);
    }
  }

  lemma CombineWriters(s: System, s': System, r: Name)
    requires Inv(s) && WritersInv(s) && r in s.runtimes && s'.runtimes.Keys == s.runtimes.Keys
    requires forall x :: x in s.runtimes && x != r ==> s'.runtimes[x] == s.runtimes[x]
    requires Holds(s.runtimes[r]) || s'.disk == s.disk
    requires WriterInv(s'.runtimes[r], s'.disk)
    ensures WritersInv(s')
  {
    hide Inv, WriterInv;
    forall x | x in s'.runtimes ensures WriterInv(s'.runtimes[x], s'.disk) {
      if x != r {
        OthersKeepPlans(s, s', r, x);
      }
    }
  }

  lemma LocalKeepsWriters(s: System, r: Name, ev: Event)
    requires Inv(s) && WritersInv(s) && r in s.runtimes && s.runtimes[r].alive
    ensures WritersInv(LocalStep(s, r, ev)) && DiskAdvances(s.disk, LocalStep(s, r, ev).disk)
  {
    hide Exec, MemInv, StoreInv, DiskAgrees, StartedIds, LeaseInv, Advances;
    var rt, s' := s.runtimes[r], LocalStep(s, r, ev);
    assert MemoryInv(s, rt) && WriterInv(rt, s.disk);
    if s' != s {
      var w := World(rt.store, s.disk);
      ExecKeepsStore(w, ev);
      assert PlanInv(rt.store) by { StorePlan(rt.store); }
      LocalAdvances(w, ev);
      if rt.store.leaseReleased {
        ReleasedNeverSaves(w, ev);
      }
      CombineWriters(s, s', r);
    }
  }

  lemma RecoverReadKeepsWriters(s: System, r: Name, id: TaskId, now: nat)
    requires Inv(s) && WritersInv(s) && r in s.runtimes && s.runtimes[r].alive
    ensures WritersInv(RecoverReadStep(s, r, id, now)) && DiskAdvances(s.disk, RecoverReadStep(s, r, id, now).disk)
  {
    hide Inv, StoreInv;
    var s' := RecoverReadStep(s, r, id, now);
    assert WriterInv(s.runtimes[r], s.disk);
    if s' != s {
      CombineWriters(s, s', r);
    }
  }

  lemma RecoverWriteKeepsWriters(s: System, r: Name)
    requires Inv(s) && WritersInv(s) && r in s.runtimes && s.runtimes[r].alive
    ensures WritersInv(RecoverWriteStep(s, r)) && DiskAdvances(s.disk, RecoverWriteStep(s, r).disk)
  {
    hide MemInv, DiskAgrees, StartedIds, LeaseInv, Advances, StoreInv;
    var rt, s' := s.runtimes[r], RecoverWriteStep(s, r);
    assert MemoryInv(s, rt) && WriterInv(rt, s.disk);
    if s' != s {
      assert Holds(rt) by { RecoveringHolds(s, r); }
      CombineWriters(s, s', r);
    }
  }

  /** A live runtime in recovery has its lease. */
  lemma RecoveringHolds(s: System, r: Name)
    requires Inv(s) && r in s.runtimes && s.runtimes[r].alive && s.runtimes[r].stage.Recovering?
    ensures Holds(s.runtimes[r])
  {
    hide MemInv, DiskAgrees, StartedIds;
    assert OwnInv(s, r, s.runtimes[r]);
  }

  /** Steps that touch neither disk nor store, and plan no rewrite. */
  lemma QuietKeepsWriters(s: System, s': System, r: Name)
    requires Inv(s) && WritersInv(s) && r in s.runtimes && s'.disk == s.disk && s'.runtimes.Keys == s.runtimes.Keys
    requires forall x :: x in s.runtimes && x != r ==> s'.runtimes[x] == s.runtimes[x]
    requires StoreInv(s'.runtimes[r].store)
    requires var rt := s'.runtimes[r]; Holds(rt) && rt.stage.Recovering? ==> rt.stage.rewrite.None?
    ensures WritersInv(s') && DiskAdvances(s.disk, s'.disk)
  {
    hide Inv, StoreInv, Advances;
    CombineWriters(s, s', r);
  }

  lemma StorePlan(st: Store)
    requires StoreInv(st)
    ensures PlanInv(st)
  {
  }

  lemma OpenedStore(limit: nat, records: map<TaskId, Record>)
    requires forall id :: id in records ==> Terminal(records[id])
    ensures StoreInv(Opened(limit, records))
  {
    OpenedPhases(limit, records);
    OpenedOwes(limit, records);
  }

  /** What a recovery has loaded is all terminal. */
  lemma LoadedIsTerminal(s: System, r: Name)
    requires Inv(s) && r in s.runtimes && s.runtimes[r].alive && s.runtimes[r].stage.Recovering?
    ensures forall id :: id in s.runtimes[r].stage.loaded ==> Terminal(s.runtimes[r].stage.loaded[id])
  {
    hide MemInv, DiskAgrees, StartedIds;
    RecoveringHolds(s, r);
    assert MemoryInv(s, s.runtimes[r]);
  }

  lemma SpawnKeepsWriters(s: System, a: Action)
    requires WritersInv(s) && a.Spawn?
    ensures WritersInv(Step(s, a)) && DiskAdvances(s.disk, Step(s, a).disk)
  {
    hide StoreInv, Advances;
    OpenedStore(0, map[]);
    forall x | x in Step(s, a).runtimes ensures WriterInv(Step(s, a).runtimes[x], s.disk) {
      assert x in s.runtimes ==> WriterInv(s.runtimes[x], s.disk);
    }
  }

  lemma OpeningKeepsWriters(s: System, a: Action)
    requires Inv(s) && WritersInv(s) && !a.Spawn? && !a.Local? && !a.RecoverRead? && !a.RecoverWrite? && !a.Crash?
    ensures WritersInv(Step(s, a)) && DiskAdvances(s.disk, Step(s, a).disk)
  {
    hide Inv, StoreInv, Advances, Exec, ProcessAlive;
    var s' := Step(s, a);
    if s' != s {
      assert WriterInv(s.runtimes[a.r], s.disk);
      if a.EndRecovery? {
        LoadedIsTerminal(s, a.r);
        OpenedStore(a.limit, s.runtimes[a.r].stage.loaded);
      }
      QuietKeepsWriters(s, s', a.r);
    }
  }

  lemma CrashKeepsWriters(s: System, r: Name)
    requires Inv(s) && WritersInv(s)
    ensures WritersInv(Step(s, Crash(r))) && DiskAdvances(s.disk, Step(s, Crash(r)).disk)
  {
    hide Inv, StoreInv, Advances, Exec, ProcessAlive;
    var s' := Step(s, Crash(r));
    if s' != s {
      assert WriterInv(s.runtimes[r], s.disk);
      QuietKeepsWriters(s, s', r);
    }
  }

  lemma {:induction false} StepKeepsWriters(s: System, a: Action)
    requires Inv(s) && WritersInv(s)
    ensures WritersInv(Step(s, a)) && DiskAdvances(s.disk, Step(s, a).disk)
  {
    hide Inv, WritersInv, DiskAdvances;
    if a.Spawn? {
      SpawnKeepsWriters(s, a);
    } else if a.r !in s.runtimes || !s.runtimes[a.r].alive {
      SameDisk(s);
    } else {
      match a
      case Local(r, ev) => LocalKeepsWriters(s, r, ev);
      case RecoverRead(r, id, now) => RecoverReadKeepsWriters(s, r, id, now);
      case RecoverWrite(r) => RecoverWriteKeepsWriters(s, r);
      case Crash(r) => CrashKeepsWriters(s, r);
      case _ => OpeningKeepsWriters(s, a);
    }
  }

  lemma SameDisk(s: System)
    ensures DiskAdvances(s.disk, s.disk)
  {
  }

  lemma {:induction false} RunKeepsWriters(s0: System, actions: seq<Action>)
    requires Init(s0)
    ensures WritersInv(Run(s0, actions))
  {
    if actions != [] {
      hide Inv, Step;
      var before := actions[..|actions| - 1];
      RunKeepsInv(s0, before);
      RunKeepsWriters(s0, before);
      StepKeepsWriters(Run(s0, before), actions[|actions| - 1]);
    }
  }

  /**
   In every run, every step leaves each record alone or advances it along the task states, and
   adds only newly started ones. No record ever disappears.
   */
  lemma RecordsAdvance(s0: System, actions: seq<Action>, act: Action)
    requires Init(s0)
    ensures DiskAdvances(Run(s0, actions).disk, Step(Run(s0, actions), act).disk)
  {
    hide Inv, WritersInv, Step, DiskAdvances;
    RunKeepsInv(s0, actions);
    RunKeepsWriters(s0, actions);
    StepKeepsWriters(Run(s0, actions), act);
  }

  /** A record that came to be cancelled had its cancellation requested on disk at an earlier point of the run. */
  lemma {:induction false} CancelledWasRequested(s0: System, actions: seq<Action>, id: TaskId)
    requires Init(s0) && id !in s0.disk
    requires id in Run(s0, actions).disk && Run(s0, actions).disk[id].status == Cancelled
    ensures exists k :: 0 <= k < |actions| && id in Run(s0, actions[..k]).disk
                        && Run(s0, actions[..k]).disk[id].note == CancellationRequested
  {
    hide Step, Inv;
    if actions == [] {
      return;
    }
    var n := |actions| - 1;
    var before := Run(s0, actions[..n]);
    RecordsAdvance(s0, actions[..n], actions[n]);
    if id in before.disk && before.disk[id].status == Cancelled {
      CancelledWasRequested(s0, actions[..n], id);
      var k :| 0 <= k < n && id in Run(s0, actions[..n][..k]).disk
               && Run(s0, actions[..n][..k]).disk[id].note == CancellationRequested;
      assert actions[..n][..k] == actions[..k];
    } else {
      assert id in before.disk && before.disk[id].note == CancellationRequested;
    }
  }

  // ---------- callbacks and input ----------

  /** The store once the continuation of a save that took effect has run. */
  function Due(st: Store): Store {
    if st.queue.Saved? then ContinueStep(st) else st
  }

  /** Then memory and disk are the same, whatever the store was suspended in. */
  lemma DueAgrees(st: Store, disk: Disk)
    requires MemInv(st) && DiskAgrees(st, disk) && StoreInv(st)
    ensures MemInv(Due(st)) && StoreInv(Due(st)) && disk == Due(st).records
  {
    hide MemInv, StoreInv;
    if st.queue.Saved? {
      assert Exec(World(st, disk), Continue).store == ContinueStep(st);
      hide Exec;
      ExecKeepsInv(World(st, disk), Continue);
      ExecKeepsStore(World(st, disk), Continue);
      ContinueKeepsDisk(World(st, disk));
      NeverSavedTwice(st);
    }
  }

  lemma NeverSavedTwice(st: Store)
    requires st.queue.Saved?
    ensures !ContinueStep(st).queue.Saved?
  {
    hide AfterSave;
    var q := st.queue;
    AfterSaveKeepsRecords(st.(records := st.records[q.id := q.record], queue := Idle), q.job, q.id);
  }

  lemma DueKeepsRegistered(st: Store, id: TaskId)
    requires QueueInv(st) && id in st.runs && st.runs[id] == Registered
    ensures id in Due(st).runs && Due(st).runs[id] == Registered && Due(st).closed == st.closed
  {
    if st.queue.Saved? {
      var q := st.queue;
      if !q.job.StartJob? && !q.job.SettleJob? {
        hide AfterSave;
        RestOfOperation(st.(records := st.records[q.id := q.record], queue := Idle), q.job, q.id);
      }
    }
  }

  /** A reachable holder of the lease that is open. */
  lemma HolderFacts(s: System, r: Name)
    requires Inv(s) && WritersInv(s) && r in s.runtimes && Holds(s.runtimes[r]) && s.runtimes[r].stage == Open
    ensures var st := s.runtimes[r].store; MemInv(st) && DiskAgrees(st, s.disk) && StoreInv(st) && QueueInv(st)
  {
    hide StoreInv, DiskAgrees, LeaseInv;
    assert MemoryInv(s, s.runtimes[r]) && WriterInv(s.runtimes[r], s.disk);
  }

  /**
   In every run a callback begins only for a task whose `working` record is on disk, started by
   this very runtime, which holds the lease and was not asked to close; never for a recovered
   task, and never for one that any runtime ran before.
   */
  lemma CallbackBeginsSafely(s0: System, actions: seq<Action>, act: Action, r: Name)
    requires Init(s0) && r in Run(s0, actions).runtimes
    ensures var s, s' := Run(s0, actions), Step(Run(s0, actions), act);
            && r in s'.runtimes
            && var st, st' := s.runtimes[r].store, s'.runtimes[r].store;
               st'.executed != st.executed ==>
                 && act.Local? && act.r == r && act.event.RunBegins?
                 && st'.executed == st.executed + [act.event.id]
                 && !st.closingRequested && Holds(s.runtimes[r])
                 && act.event.id in s.disk && s.disk[act.event.id].status == Working
                 && act.event.id !in st.recovered
                 && forall x :: x in s.runtimes ==> act.event.id !in s.runtimes[x].store.executed
  {
    hide Step, Inv, WritersInv;
    RunKeepsInv(s0, actions);
    RunKeepsWriters(s0, actions);
    var s := Run(s0, actions);
    StepKeepsRuntimes(s, act, r);
    if Step(s, act).runtimes[r].store.executed != s.runtimes[r].store.executed {
      CallbackBegins(s, act, r);
      RegisteredIsWorking(s, r, act.event.id);
    }
  }

  lemma RegisteredIsWorking(s: System, r: Name, id: TaskId)
    requires Inv(s) && WritersInv(s) && r in s.runtimes && Holds(s.runtimes[r]) && s.runtimes[r].stage == Open
    requires id in s.runtimes[r].store.runs && s.runtimes[r].store.runs[id] == Registered
    requires !s.runtimes[r].store.closingRequested
    ensures id in s.disk && s.disk[id].status == Working
  {
    hide Inv, WritersInv, QueueInv, RunsInv, InputInv, AskedInv, ResolvedInv, ExecutedInv, PlanInv, DiskAgrees, Due;
    var st := s.runtimes[r].store;
    HolderFacts(s, r);
    DueAgrees(st, s.disk);
    DueKeepsRegistered(st, id);
  }

  /** The exchange of one task as its record tells it. */
  ghost predicate Exchanging(a: Active, requests: Requests) {
    && a.input.Some? && a.input.value.outstanding == requests && requests.Keys != {}
    && a.input.value.requested == requests.Keys + a.input.value.responses.Keys
    && requests.Keys !! a.input.value.responses.Keys
  }

  /**
   In every run, while a record on disk asks for input and its runtime holds the lease: the
   persisted requests are exactly the outstanding ones, and outstanding and answered keys split
   the requested ones, as soon as the continuation of the last save has run. The task is in
   memory, until the runtime closes or a save has failed.
   */
  lemma InputExchange(s0: System, actions: seq<Action>, r: Name, id: TaskId)
    requires Init(s0) && r in Run(s0, actions).runtimes && id in Run(s0, actions).disk
    requires Holds(Run(s0, actions).runtimes[r]) && Run(s0, actions).runtimes[r].stage == Open
    requires Run(s0, actions).disk[id].status.InputRequired?
    ensures var s := Run(s0, actions);
            var st := Due(s.runtimes[r].store);
            && (id in st.active ==> Exchanging(st.active[id], s.disk[id].status.requests))
            && (!st.closed && !st.broken ==> id in st.active)
  {
    hide Inv, WritersInv, QueueInv, RunsInv, AskedInv, ResolvedInv, ExecutedInv, PlanInv, DiskAgrees, Due;
    RunKeepsInv(s0, actions);
    RunKeepsWriters(s0, actions);
    var s := Run(s0, actions);
    HolderFacts(s, r);
    DueAgrees(s.runtimes[r].store, s.disk);
    var st := Due(s.runtimes[r].store);
    assert id in st.active ==> ExchangeInv(st.active[id], st.records[id]);
  }
}
