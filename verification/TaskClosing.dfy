/**
 What a runtime owes while it closes, and how many tasks it may hold: a close leaves no record
 unfinished unless a save failed, and no more tasks are registered than the limit allows.
 */
module TaskClosing {
  import opened Options
  import opened TaskPhases
  import opened TaskRuntime

  /** The tasks a close has yet to record as interrupted. */
  function Todo(q: Queue): set<TaskId> {
    match q
    case Idle => {}
    case CloseLoop(todo) => todo
    case Saving(job, id, _) => if job.CloseJob? then job.todo + {id} else {}
    case Saved(job, id, _) => if job.CloseJob? then job.todo + {id} else {}
  }

  /**
   A store that is closed or had a save fail writes for its close only, and one that is closed
   without a failure has every unfinished record before it.
   */
  ghost predicate Closing(st: Store) {
    && (st.closed || st.broken ==> (st.queue.Saving? || st.queue.Saved? ==> st.queue.job.CloseJob?))
    && (st.closed && !st.broken ==> forall id :: id in st.records && !Terminal(st.records[id]) ==> id in Todo(st.queue))
  }

  /** A start whose record is being saved has its place already. */
  predicate Starting(q: Queue) {
    (q.Saving? || q.Saved?) && q.job.StartJob?
  }

  ghost predicate Limited(st: Store) {
    |st.active| + (if Starting(st.queue) then 1 else 0) <= st.limit
  }

  ghost predicate Owes(st: Store) {
    Closing(st) && Limited(st)
  }

  // ---------- closing ----------

  lemma OpsKeepClosing(st: Store, id: TaskId, requests: Requests, responses: map<Key, Response>, now: nat)
    requires Closing(st)
    ensures Closing(StartStep(st, id, now)) && Closing(CancelStep(st, id, now)) && Closing(SettleStep(st, id, now))
    ensures Closing(RequestStep(st, id, requests, now)) && Closing(UpdateStep(st, id, responses, now))
  {
    hide SettleRecord, Accepted, AllFit, Terminal;
  }

  lemma RunsKeepClosing(w: World, id: TaskId, outcome: Outcome)
    requires Closing(w.store)
    ensures Closing(RunBeginsStep(w.store, id)) && Closing(ExecuteEndsStep(w.store, id, outcome))
    ensures Closing(RunEndsStep(w.store, id)) && Closing(SaveStep(w).store) && Closing(SaveFailsStep(w.store))
  {
    hide Terminal;
  }

  lemma CloseKeepsClosing(st: Store, id: TaskId, now: nat, ok: bool)
    requires Closing(st) && Phases(st)
    ensures Closing(CloseStep(st)) && Closing(CloseNextStep(st, id, now)) && Closing(ReleaseStep(st, ok))
  {
  }

  lemma ContinueKeepsClosing(st: Store)
    requires Closing(st) && QueueInv(st)
    ensures Closing(ContinueStep(st))
  {
    if st.queue.Saved? {
      hide AfterSave;
      var q := st.queue;
      AfterSaveShell(st.(records := st.records[q.id := q.record], queue := Idle), q.job, q.id);
    }
  }

  /** What a finished save leaves as it is. */
  predicate SameShell(st: Store, st': Store, queue: Queue) {
    && st'.closed == st.closed && st'.broken == st.broken && st'.records == st.records && st'.limit == st.limit
    && st'.leaseReleased == st.leaseReleased && st'.queue == queue
  }

  lemma AskKeepsShell(st: Store, id: TaskId, requests: Requests, accepted: map<Key, nat>, left: Requests)
    ensures SameShell(st, AskUser(st, id, requests), st.queue) && SameShell(st, Abort(st, id), st.queue)
    ensures SameShell(st, Answer(st, id, accepted, left), st.queue)
  {
    hide Rejected;
  }

  lemma AfterSaveShell(st: Store, job: Job, id: TaskId)
    ensures SameShell(st, AfterSave(st, job, id), if job.CloseJob? then CloseLoop(job.todo) else st.queue)
  {
    hide AskUser, Answer, Abort;
    match job
    case RequestJob(requests) => AskKeepsShell(st, id, requests, map[], map[]);
    case UpdateJob(accepted, left) => AskKeepsShell(st, id, map[], accepted, left);
    case CancelJob => AskKeepsShell(st, id, map[], map[], map[]);
    case _ =>
  }

  // ---------- the limit ----------

  lemma StartKeepsLimit(st: Store, id: TaskId, now: nat)
    requires Limited(st)
    ensures Limited(StartStep(st, id, now))
  {
  }

  lemma OpsKeepLimit(st: Store, id: TaskId, now: nat)
    requires Limited(st)
    ensures Limited(CancelStep(st, id, now)) && Limited(SettleStep(st, id, now)) && Limited(CloseNextStep(st, id, now))
  {
    hide SettleRecord, Terminal, Interrupted;
  }

  lemma InputKeepsLimit(st: Store, id: TaskId, requests: Requests, responses: map<Key, Response>, now: nat)
    requires Limited(st)
    ensures Limited(RequestStep(st, id, requests, now)) && Limited(UpdateStep(st, id, responses, now))
  {
    hide Accepted, AllFit, Terminal, MayAsk;
  }

  /** No more tasks than before. */
  lemma FewerTasks(st: Store, st': Store)
    requires Limited(st) && st'.active.Keys <= st.active.Keys && st'.limit == st.limit
    requires Starting(st'.queue) ==> Starting(st.queue)
    ensures Limited(st')
  {
    hide Starting;
    assert |st'.active| == |st'.active.Keys| && |st.active| == |st.active.Keys|;
    Subset(st'.active.Keys, st.active.Keys);
  }

  lemma {:induction false} Subset(a: set<TaskId>, b: set<TaskId>)
    requires a <= b
    ensures |a| <= |b|
  {
    if a != {} {
      var x :| x in a;
      Subset(a - {x}, b - {x});
    }
  }

  lemma RunsKeepLimit(st: Store, id: TaskId, outcome: Outcome)
    requires Limited(st)
    ensures Limited(RunBeginsStep(st, id)) && Limited(ExecuteEndsStep(st, id, outcome))
  {
    hide Starting;
  }

  lemma RunEndsKeepsLimit(st: Store, id: TaskId)
    requires Limited(st)
    ensures Limited(RunEndsStep(st, id))
  {
    hide Limited;
    FewerTasks(st, RunEndsStep(st, id));
  }

  lemma SavesKeepLimit(w: World)
    requires Limited(w.store)
    ensures Limited(SaveStep(w).store) && Limited(SaveFailsStep(w.store))
  {
  }

  lemma CloseKeepsLimit(st: Store, ok: bool)
    requires Limited(st)
    ensures Limited(CloseStep(st)) && Limited(ReleaseStep(st, ok))
  {
    hide Rejected;
    FewerTasks(st, CloseStep(st));
  }

  lemma ContinueKeepsLimit(st: Store)
    requires Limited(st)
    ensures Limited(ContinueStep(st))
  {
    if st.queue.Saved? && !st.queue.job.StartJob? {
      var q := st.queue;
      var mid := st.(records := st.records[q.id := q.record], queue := Idle);
      AfterSaveShell(mid, q.job, q.id);
      assert !Starting(AfterSave(mid, q.job, q.id).queue);
      if !q.job.SettleJob? {
        RestOfOperation(mid, q.job, q.id);
      }
      hide AfterSave;
      FewerTasks(st, ContinueStep(st));
    }
  }

  // ---------- both ----------

  lemma OpenedOwes(limit: nat, records: map<TaskId, Record>)
    ensures Owes(Opened(limit, records))
  {
  }

  lemma {:induction false} ExecKeepsOwes(w: World, ev: Event)
    requires MemInv(w.store) && Phases(w.store) && Owes(w.store)
    ensures Owes(Exec(w, ev).store)
  {
    hide StartStep, SettleStep, RequestStep, UpdateStep, CancelStep, CloseStep, CloseNextStep, ReleaseStep;
    hide SaveStep, SaveFailsStep, ContinueStep, ExecuteEndsStep, RunEndsStep, RunBeginsStep;
    hide RunsInv, InputInv, AskedInv, ResolvedInv, ExecutedInv, QueueInv, Phases, Closing, Limited;
    var st := w.store;
    match ev
    case StartOp(id, now) =>
      OpsKeepClosing(st, id, map[], map[], now);
      StartKeepsLimit(st, id, now);
    case SettleOp(id, now) =>
      OpsKeepClosing(st, id, map[], map[], now);
      OpsKeepLimit(st, id, now);
    case CancelOp(id, now) =>
      OpsKeepClosing(st, id, map[], map[], now);
      OpsKeepLimit(st, id, now);
    case RequestOp(id, requests, now) =>
      OpsKeepClosing(st, id, requests, map[], now);
      InputKeepsLimit(st, id, requests, map[], now);
    case UpdateOp(id, responses, now) =>
      OpsKeepClosing(st, id, map[], responses, now);
      InputKeepsLimit(st, id, map[], responses, now);
    case RunBegins(id) =>
      RunsKeepClosing(w, id, Result(0));
      RunsKeepLimit(st, id, Result(0));
    case ExecuteEnds(id, outcome) =>
      RunsKeepClosing(w, id, outcome);
      RunsKeepLimit(st, id, outcome);
    case RunEnds(id) =>
      RunsKeepClosing(w, id, Result(0));
      RunEndsKeepsLimit(st, id);
    case SaveOk =>
      RunsKeepClosing(w, 0, Result(0));
      SavesKeepLimit(w);
    case SaveFails =>
      RunsKeepClosing(w, 0, Result(0));
      SavesKeepLimit(w);
    case CloseRequested =>
      RequestKeepsOwes(st);
    case CloseOp =>
      CloseKeepsClosing(st, 0, 0, true);
      CloseKeepsLimit(st, true);
    case CloseNext(id, now) =>
      CloseKeepsClosing(st, id, now, true);
      OpsKeepLimit(st, id, now);
    case ReleaseOk =>
      CloseKeepsClosing(st, 0, 0, true);
      CloseKeepsLimit(st, true);
    case ReleaseFails =>
      CloseKeepsClosing(st, 0, 0, false);
      CloseKeepsLimit(st, false);
    case Continue =>
      ContinueKeepsClosing(st);
      ContinueKeepsLimit(st);
  }

  lemma RequestKeepsOwes(st: Store)
    requires Owes(st)
    ensures Owes(st.(closingRequested := true))
  {
  }
}
