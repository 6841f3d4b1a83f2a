/**
 Where each task of one runtime stands, and what its record then says: a task whose callback has
 not begun is recorded as working, one that has not settled is unfinished on disk until close, and
 until close or a failed save every unfinished record has its task alive in memory.
 */
module TaskPhases {
  import opened Options
  import opened TaskRuntime

  predicate Running(p: Phase) {
    !p.Settled? && !p.Ended?
  }

  ghost predicate PhaseInv(active: map<TaskId, Active>, runs: map<TaskId, Phase>, records: map<TaskId, Record>,
                           closed: bool, broken: bool)
  {
    && (!closed ==> forall id :: id in runs && runs[id] == Registered ==> id in records && records[id].status == Working)
    && (!closed ==> forall id :: id in runs && Running(runs[id]) ==> id in records && !Terminal(records[id]))
    && (!closed && !broken ==>
          forall id :: id in records && !Terminal(records[id]) ==> id in active && id in runs && Running(runs[id]))
  }

  ghost predicate Phases(st: Store) {
    PhaseInv(st.active, st.runs, st.records, st.closed, st.broken)
  }

  lemma OpenedPhases(limit: nat, records: map<TaskId, Record>)
    requires forall id :: id in records ==> Terminal(records[id])
    ensures Phases(Opened(limit, records))
  {
  }

  /** One task's run moves on, to its end only once its record is final. */
  lemma PhaseMoves(st: Store, id: TaskId, p: Phase)
    requires Phases(st) && id in st.runs && p != Registered && (Running(p) ==> Running(st.runs[id]))
    requires Running(p) || st.closed || st.broken || id !in st.records || Terminal(st.records[id])
    ensures Phases(st.(runs := st.runs[id := p]))
  {
  }

  lemma OpsKeepPhases(st: Store, id: TaskId, requests: Requests, responses: map<Key, Response>, now: nat)
    requires Phases(st)
    ensures Phases(StartStep(st, id, now)) && Phases(CancelStep(st, id, now)) && Phases(CloseNextStep(st, id, now))
    ensures Phases(RequestStep(st, id, requests, now)) && Phases(UpdateStep(st, id, responses, now))
  {
    hide PhaseInv;
  }

  lemma SettleKeepsPhases(st: Store, id: TaskId, now: nat)
    requires Phases(st)
    ensures Phases(SettleStep(st, id, now))
  {
    hide Phases;
    if st.queue == Idle && id in st.runs && st.runs[id].Settling?
       && (st.closed || st.broken || id !in st.records || Terminal(st.records[id])) {
      PhaseMoves(st, id, Settled);
    } else {
      SamePhases(st, SettleStep(st, id, now));
    }
  }

  lemma SamePhases(st: Store, st': Store)
    requires Phases(st) && st'.active == st.active && st'.runs == st.runs && st'.records == st.records
    requires st'.closed == st.closed && st'.broken == st.broken
    ensures Phases(st')
  {
  }

  lemma RunsKeepPhases(st: Store, id: TaskId, outcome: Outcome)
    requires Phases(st)
    ensures Phases(RunBeginsStep(st, id)) && Phases(ExecuteEndsStep(st, id, outcome))
  {
    hide Phases;
    if id in st.runs && st.runs[id] == Registered {
      var p := RunBeginsStep(st, id).runs[id];
      PhaseMoves(st, id, p);
      SamePhases(st.(runs := st.runs[id := p]), RunBeginsStep(st, id));
    }
    if id in st.runs && st.runs[id] == Executing {
      PhaseMoves(st, id, Settling(outcome));
    }
  }

  lemma RunEndsKeepsPhases(st: Store, id: TaskId)
    requires Phases(st)
    ensures Phases(RunEndsStep(st, id))
  {
  }

  lemma CloseKeepsPhases(st: Store, ok: bool)
    requires Phases(st) && QueueInv(st)
    ensures Phases(CloseStep(st)) && Phases(ReleaseStep(st, ok))
  {
  }

  lemma SavesKeepPhases(w: World)
    requires Phases(w.store) && QueueInv(w.store)
    ensures Phases(SaveStep(w).store) && Phases(SaveFailsStep(w.store))
  {
  }

  /** The record that was saved: its task has it from now on. */
  lemma RecordKeepsPhases(st: Store, id: TaskId, r: Record)
    requires Phases(st) && id in st.records && !Terminal(st.records[id])
    requires id in st.runs && st.runs[id] == Registered && !st.closed ==> r.status == Working
    requires Terminal(r) ==> st.closed
    ensures Phases(st.(records := st.records[id := r], queue := Idle))
  {
  }

  lemma SettledKeepsPhases(st: Store, id: TaskId, r: Record)
    requires Phases(st) && Terminal(r) && id in st.runs && st.runs[id].Settling?
    ensures Phases(st.(records := st.records[id := r], runs := st.runs[id := Settled], queue := Idle))
  {
  }

  lemma StartedKeepsPhases(st: Store, id: TaskId, r: Record, a: Active)
    requires Phases(st) && r.status == Working
    ensures Phases(st.(records := st.records[id := r], active := st.active[id := a], runs := st.runs[id := Registered], queue := Idle))
  {
  }

  lemma ActiveKeepsPhases(st: Store, st': Store)
    requires Phases(st) && SameTasks(st, st')
    ensures Phases(st')
  {
  }

  /** Only a task that has begun asks, and only one that waits for input is answered. */
  ghost predicate JobFits(job: Job, id: TaskId, runs: map<TaskId, Phase>, records: map<TaskId, Record>) {
    && (job.RequestJob? ==> id in runs && Ran(runs[id]))
    && (job.UpdateJob? ==> id in records && records[id].status.InputRequired?)
  }

  ghost predicate QueueFits(st: Store) {
    st.queue.Saving? || st.queue.Saved? ==> JobFits(st.queue.job, st.queue.id, st.runs, st.records)
  }

  lemma OpsKeepFit(st: Store, id: TaskId, requests: Requests, responses: map<Key, Response>, now: nat)
    requires QueueFits(st)
    ensures QueueFits(StartStep(st, id, now)) && QueueFits(CancelStep(st, id, now)) && QueueFits(CloseNextStep(st, id, now))
    ensures QueueFits(RequestStep(st, id, requests, now)) && QueueFits(UpdateStep(st, id, responses, now))
  {
    hide Accepted, AllFit, Terminal;
  }

  lemma RunsKeepFit(w: World, id: TaskId, outcome: Outcome)
    requires QueueFits(w.store)
    ensures QueueFits(RunBeginsStep(w.store, id)) && QueueFits(ExecuteEndsStep(w.store, id, outcome))
    ensures QueueFits(RunEndsStep(w.store, id)) && QueueFits(SaveStep(w).store) && QueueFits(SaveFailsStep(w.store))
  {
  }

  lemma CloseKeepsFit(st: Store, id: TaskId, now: nat, ok: bool)
    requires QueueFits(st)
    ensures QueueFits(SettleStep(st, id, now)) && QueueFits(CloseStep(st)) && QueueFits(ReleaseStep(st, ok))
  {
    hide SettleRecord, Rejected, Terminal;
  }

  lemma NothingToContinue(st: Store)
    ensures !st.queue.Saved? ==> ContinueStep(st) == st
  {
  }

  lemma ContinueKeepsFit(st: Store)
    ensures QueueFits(ContinueStep(st)) || !st.queue.Saved?
  {
    hide Rejected, JobFits;
  }

  /** Only the exchanges of active tasks may differ. */
  predicate SameTasks(st: Store, st': Store) {
    && st'.active.Keys == st.active.Keys && st'.runs == st.runs && st'.records == st.records
    && st'.closed == st.closed && st'.broken == st.broken
  }

  lemma AskingKeepsTasks(st: Store, id: TaskId, requests: Requests)
    ensures SameTasks(st, AskUser(st, id, requests)) && SameTasks(st, Abort(st, id))
  {
  }

  lemma AnsweringKeepsTasks(st: Store, id: TaskId, accepted: map<Key, nat>, left: Requests)
    ensures SameTasks(st, Answer(st, id, accepted, left))
  {
  }

  /** What is left of an operation that neither starts nor settles a task concerns its exchange alone. */
  lemma RestOfOperation(st: Store, job: Job, id: TaskId)
    requires !job.StartJob? && !job.SettleJob?
    ensures SameTasks(st, AfterSave(st, job, id))
  {
    hide AskUser, Answer, Abort;
    match job
    case RequestJob(requests) => AskingKeepsTasks(st, id, requests);
    case UpdateJob(accepted, left) => AnsweringKeepsTasks(st, id, accepted, left);
    case CancelJob => AskingKeepsTasks(st, id, map[]);
    case CloseJob(_) =>
  }

  lemma {:induction false} ContinueKeepsPhases(st: Store)
    requires Phases(st) && QueueFits(st) && QueueInv(st) && RunsInv(st.active, st.runs, st.records, st.recovered)
    ensures Phases(ContinueStep(st))
  {
    hide Phases, RunsInv;
    if st.queue.Saved? {
      var q := st.queue;
      var mid := st.(records := st.records[q.id := q.record], queue := Idle);
      if q.job.StartJob? {
        StartedKeepsPhases(st, q.id, q.record, Active(false, {}, None));
      } else if q.job.SettleJob? {
        SettledKeepsPhases(st, q.id, q.record);
      } else {
        hide AfterSave;
        RestOfOperation(mid, q.job, q.id);
        RegisteredWorks(st, q.id);
        RecordKeepsPhases(st, q.id, q.record);
        ActiveKeepsPhases(mid, ContinueStep(st));
      }
    }
  }

  lemma RegisteredWorks(st: Store, id: TaskId)
    requires Phases(st)
    ensures id in st.runs && st.runs[id] == Registered && !st.closed ==> id in st.records && st.records[id].status == Working
  {
  }

  lemma {:induction false} ExecKeepsPhases(w: World, ev: Event)
    requires MemInv(w.store) && Phases(w.store) && QueueFits(w.store)
    ensures Phases(Exec(w, ev).store) && QueueFits(Exec(w, ev).store)
  {
    hide StartStep, SettleStep, RequestStep, UpdateStep, CancelStep, CloseStep, CloseNextStep, ReleaseStep;
    hide SaveStep, SaveFailsStep, ContinueStep, ExecuteEndsStep, RunEndsStep, RunBeginsStep;
    hide RunsInv, InputInv, AskedInv, ResolvedInv, ExecutedInv, QueueInv, PhaseInv;
    var st := w.store;
    match ev
    case StartOp(id, now) =>
      OpsKeepPhases(st, id, map[], map[], now);
      OpsKeepFit(st, id, map[], map[], now);
    case CancelOp(id, now) =>
      OpsKeepPhases(st, id, map[], map[], now);
      OpsKeepFit(st, id, map[], map[], now);
    case CloseNext(id, now) =>
      OpsKeepPhases(st, id, map[], map[], now);
      OpsKeepFit(st, id, map[], map[], now);
    case RequestOp(id, requests, now) =>
      OpsKeepPhases(st, id, requests, map[], now);
      OpsKeepFit(st, id, requests, map[], now);
    case UpdateOp(id, responses, now) =>
      OpsKeepPhases(st, id, map[], responses, now);
      OpsKeepFit(st, id, map[], responses, now);
    case SettleOp(id, now) =>
      SettleKeepsPhases(st, id, now);
      CloseKeepsFit(st, id, now, true);
    case RunBegins(id) =>
      RunsKeepPhases(st, id, Result(0));
      RunsKeepFit(w, id, Result(0));
    case ExecuteEnds(id, outcome) =>
      RunsKeepPhases(st, id, outcome);
      RunsKeepFit(w, id, outcome);
    case RunEnds(id) =>
      RunEndsKeepsPhases(st, id);
      RunsKeepFit(w, id, Result(0));
    case SaveOk =>
      SavesKeepPhases(w);
      RunsKeepFit(w, 0, Result(0));
    case SaveFails =>
      SavesKeepPhases(w);
      RunsKeepFit(w, 0, Result(0));
    case CloseRequested =>
    case CloseOp =>
      CloseKeepsPhases(st, true);
      CloseKeepsFit(st, 0, 0, true);
    case ReleaseOk =>
      CloseKeepsPhases(st, true);
      CloseKeepsFit(st, 0, 0, true);
    case ReleaseFails =>
      CloseKeepsPhases(st, false);
      CloseKeepsFit(st, 0, 0, false);
    case Continue =>
      ContinueKeepsPhases(st);
      ContinueKeepsFit(st);
      assert !st.queue.Saved? ==> QueueFits(ContinueStep(st)) by { NothingToContinue(st); }
  }
}
