/**
 What the directory may be told about a task, in every run: a result, an error or an answer only
 if the runtime heard it, nothing lost before close, nothing unfinished after it.
 */
module TaskOutcomes {
  import opened Options
  import opened TaskClosing
  import opened TaskHistory
  import opened TaskPhases
  import opened TaskRuntime
  import opened TaskSystem
  import opened TaskTheorems
  import opened TaskTransitions

  /** The local events of one runtime, in order. */
  function Heard(r: Name, actions: seq<Action>): seq<Event> {
    if actions == [] then []
    else
      var before, last := Heard(r, actions[..|actions| - 1]), actions[|actions| - 1];
      if last.Local? && last.r == r then before + [last.event] else before
  }

  lemma {:induction false} HeardIsLocal(r: Name, actions: seq<Action>, ev: Event)
    ensures ev in Heard(r, actions) <==> Local(r, ev) in actions
  {
    if actions != [] {
      var n := |actions| - 1;
      HeardIsLocal(r, actions[..n], ev);
      assert actions == actions[..n] + [actions[n]];
    }
  }

  /** Reading the step function: a store is kept, opened anew, or moved by one of its own events. */
  lemma StoreMoves(s: System, act: Action, r: Name)
    requires r in Step(s, act).runtimes
    ensures var st' := Step(s, act).runtimes[r].store;
            || (r in s.runtimes && st' == s.runtimes[r].store)
            || (!act.Local? && exists limit: nat, records :: st' == Opened(limit, records))
            || (r in s.runtimes && act.Local? && act.r == r && st' == Exec(World(s.runtimes[r].store, s.disk), act.event).store)
  {
    hide Exec, ProcessAlive, Opened;
    if act.r != r && r in s.runtimes {
      hide Step;
      OthersStay(s, act, r);
    }
  }

  ghost predicate AllHeard(s: System, actions: seq<Action>) {
    forall r :: r in s.runtimes ==> HeardInv(s.runtimes[r].store, Heard(r, actions))
  }

  lemma OneHears(s: System, actions: seq<Action>, act: Action, r: Name)
    requires Inv(s) && AllHeard(s, actions) && r in Step(s, act).runtimes
    ensures HeardInv(Step(s, act).runtimes[r].store, Heard(r, actions + [act]))
  {
    hide Step, HeardInv, Exec, MemInv, LeaseInv, StartedIds, DiskAgrees, RecoveryInv;
    assert (actions + [act])[..|actions|] == actions;
    StoreMoves(s, act, r);
    if r in s.runtimes {
      var st := s.runtimes[r].store;
      assert MemoryInv(s, s.runtimes[r]) && HeardInv(st, Heard(r, actions));
      if act.Local? && act.r == r {
        MoreHeard(st, Heard(r, actions), act.event);
        ExecKeepsHeard(World(st, s.disk), act.event, Heard(r, actions));
      }
    }
    if limit: nat, records :| Step(s, act).runtimes[r].store == Opened(limit, records) {
      OpenedHeard(limit, records, Heard(r, actions + [act]));
    }
  }

  lemma OpenedHeard(limit: nat, records: map<TaskId, Record>, heard: seq<Event>)
    ensures HeardInv(Opened(limit, records), heard)
  {
  }

  lemma StepIsHeard(s: System, actions: seq<Action>, act: Action)
    requires Inv(s) && AllHeard(s, actions)
    ensures AllHeard(Step(s, act), actions + [act])
  {
    hide Inv, Step, HeardInv;
    forall r | r in Step(s, act).runtimes ensures HeardInv(Step(s, act).runtimes[r].store, Heard(r, actions + [act])) {
      OneHears(s, actions, act, r);
    }
  }

  lemma {:induction false} RunIsHeard(s0: System, actions: seq<Action>)
    requires Init(s0)
    ensures AllHeard(Run(s0, actions), actions)
  {
    if actions != [] {
      hide Inv, Step, AllHeard;
      var before, act := actions[..|actions| - 1], actions[|actions| - 1];
      RunKeepsInv(s0, before);
      RunIsHeard(s0, before);
      StepIsHeard(Run(s0, before), before, act);
      assert actions == before + [act];
    }
  }

  // ---------- what is written ----------

  /** The callback of `id` in runtime `r` ended so earlier in the run, or its run was refused at the start. */
  ghost predicate OutcomeOf(s: System, actions: seq<Action>, r: Name, id: TaskId, outcome: Outcome) {
    || Local(r, ExecuteEnds(id, outcome)) in actions
    || (outcome == Error(-32603) && Local(r, RunBegins(id)) in actions
        && r in s.runtimes && id !in s.runtimes[r].store.executed)
  }

  /** What a step that changes a record must have behind it. */
  ghost predicate Warranted(s: System, actions: seq<Action>, act: Action, id: TaskId, r: Record) {
    match r.status
    case Completed(v) => act == Local(act.r, SaveOk) && Local(act.r, ExecuteEnds(id, Result(v))) in actions
    case Failed(code) =>
      || (r.note == ExecutionFailed && act == Local(act.r, SaveOk) && OutcomeOf(s, actions, act.r, id, Error(code)))
      || (r.note == InterruptedNote && code == -32603
          && (act.RecoverWrite? || (act.Local? && act.r in s.runtimes && s.runtimes[act.r].store.closed)))
    case Cancelled => act == Local(act.r, SaveOk) && exists code :: OutcomeOf(s, actions, act.r, id, Error(code))
    case _ => act == Local(act.r, SaveOk)
  }

  /** A queued record has the outcome of its run behind it. */
  lemma QueuedIsWarranted(s: System, actions: seq<Action>, r: Name)
    requires r in s.runtimes && s.runtimes[r].store.queue.Saving?
    requires PlanInv(s.runtimes[r].store) && HeardInv(s.runtimes[r].store, Heard(r, actions)) && QueueInv(s.runtimes[r].store)
    ensures var q := s.runtimes[r].store.queue; Warranted(s, actions, Local(r, SaveOk), q.id, q.record)
  {
    hide AbortInv, QueuedInv, ExchangesHeard, ResolutionsHeard, JobHeard;
    var st := s.runtimes[r].store;
    var q := st.queue;
    if q.job.SettleJob? {
      var outcome := st.runs[q.id].outcome;
      assert OutcomeHeard(Heard(r, actions), st.executed, q.id, outcome);
      HeardIsLocal(r, actions, ExecuteEnds(q.id, outcome));
      HeardIsLocal(r, actions, RunBegins(q.id));
      assert OutcomeOf(s, actions, r, q.id, outcome);
    }
  }

  /** A recovery writes interrupted records only. */
  lemma RewriteIsWarranted(s: System, actions: seq<Action>, r: Name)
    requires WritersInv(s) && r in s.runtimes && Holds(s.runtimes[r])
    requires s.runtimes[r].stage.Recovering? && s.runtimes[r].stage.rewrite.Some?
    ensures var (id, record) := s.runtimes[r].stage.rewrite.value; Warranted(s, actions, RecoverWrite(r), id, record)
  {
    hide StoreInv, Advances;
    assert WriterInv(s.runtimes[r], s.disk);
  }

  /**
   In every run, every change of a record has its cause: a completed task ended with that very
   result, a failed one with that very error, a cancelled one with an error; and a task is
   recorded as interrupted only by a recovery or by the close of its own runtime.
   */
  lemma OutcomesAreReal(s0: System, actions: seq<Action>, act: Action, id: TaskId)
    requires Init(s0) && id in Step(Run(s0, actions), act).disk
    requires id in Run(s0, actions).disk ==> Step(Run(s0, actions), act).disk[id] != Run(s0, actions).disk[id]
    ensures Warranted(Run(s0, actions), actions, act, id, Step(Run(s0, actions), act).disk[id])
  {
    hide Run, Step, Inv, WritersInv, Warranted, AllHeard;
    RunKeepsInv(s0, actions);
    RunKeepsWriters(s0, actions);
    RunIsHeard(s0, actions);
    var s := Run(s0, actions);
    TwoWaysToWrite(s, act);
    WriterHolds(s, act);
    if act.Local? {
      SaveIsWarranted(s, actions, act.r, act.event, id);
    } else {
      RecoveryIsWarranted(s, actions, act.r, id);
    }
  }

  lemma SaveIsWarranted(s: System, actions: seq<Action>, r: Name, ev: Event, id: TaskId)
    requires Inv(s) && WritersInv(s) && AllHeard(s, actions) && r in s.runtimes && id in LocalStep(s, r, ev).disk
    requires id in s.disk ==> LocalStep(s, r, ev).disk[id] != s.disk[id]
    ensures Warranted(s, actions, Local(r, ev), id, LocalStep(s, r, ev).disk[id])
  {
    hide Exec, MemInv, StoreInv, HeardInv, DiskAgrees, StartedIds, LeaseInv, Warranted;
    var st := s.runtimes[r].store;
    assert MemoryInv(s, s.runtimes[r]) && WriterInv(s.runtimes[r], s.disk) && HeardInv(st, Heard(r, actions));
    WriteIsASave(World(st, s.disk), ev);
    StorePlan(st);
    QueueOf(st);
    QueuedIsWarranted(s, actions, r);
  }

  lemma RecoveryIsWarranted(s: System, actions: seq<Action>, r: Name, id: TaskId)
    requires WritersInv(s) && r in s.runtimes && Holds(s.runtimes[r]) && id in RecoverWriteStep(s, r).disk
    requires id in s.disk ==> RecoverWriteStep(s, r).disk[id] != s.disk[id]
    ensures Warranted(s, actions, RecoverWrite(r), id, RecoverWriteStep(s, r).disk[id])
  {
    hide WritersInv, Warranted;
    RewriteIsWarranted(s, actions, r);
  }

  lemma QueueOf(st: Store)
    requires MemInv(st)
    ensures QueueInv(st)
  {
  }

  // ---------- nothing lost, nothing left ----------

  /** The run of `id` is not settled. */
  predicate Unsettled(st: Store, id: TaskId) {
    id in st.runs && st.runs[id].Settling?
  }

  lemma OpsSettleNothing(st: Store, id: TaskId, x: TaskId, requests: Requests, responses: map<Key, Response>, now: nat)
    requires Unsettled(st, id)
    ensures Unsettled(StartStep(st, x, now), id) && Unsettled(CancelStep(st, x, now), id)
    ensures Unsettled(RequestStep(st, x, requests, now), id) && Unsettled(UpdateStep(st, x, responses, now), id)
  {
    hide MayAsk, Accepted, AllFit, Terminal;
  }

  lemma CloseSettlesNothing(st: Store, id: TaskId, x: TaskId, now: nat, ok: bool)
    requires Unsettled(st, id)
    ensures Unsettled(CloseStep(st), id) && Unsettled(CloseNextStep(st, x, now), id) && Unsettled(ReleaseStep(st, ok), id)
  {
    hide Rejected, Interrupted, Terminal;
  }

  lemma RunsSettleNothing(w: World, id: TaskId, x: TaskId, outcome: Outcome)
    requires Unsettled(w.store, id)
    ensures Unsettled(RunBeginsStep(w.store, x), id) && Unsettled(ExecuteEndsStep(w.store, x, outcome), id)
    ensures Unsettled(RunEndsStep(w.store, x), id) && Unsettled(SaveStep(w).store, id)
  {
  }

  lemma FailureSettles(st: Store, id: TaskId)
    requires Unsettled(st, id) && !Unsettled(SaveFailsStep(st), id)
    ensures SaveFailsStep(st).broken
  {
  }

  lemma SettleSettles(st: Store, id: TaskId, x: TaskId, now: nat)
    requires Unsettled(st, id) && !Unsettled(SettleStep(st, x, now), id) && Phases(st)
    ensures st.closed || SettleStep(st, x, now).broken
  {
    hide SettleRecord;
  }

  lemma ContinueSettles(st: Store, id: TaskId)
    requires Unsettled(st, id) && !Unsettled(ContinueStep(st), id) && QueueInv(st)
    ensures st.queue.Saved? && st.queue.job.SettleJob? && st.queue.id == id
  {
    var q := st.queue;
    if !q.job.SettleJob? && !q.job.StartJob? {
      hide AfterSave;
      RestOfOperation(st.(records := st.records[q.id := q.record], queue := Idle), q.job, q.id);
    }
  }

  /** How a run comes to be settled: its record is written, or closing or a failed save stands in the way. */
  lemma {:induction false} SettledBy(w: World, ev: Event, id: TaskId)
    requires MemInv(w.store) && Phases(w.store) && Unsettled(w.store, id) && !Unsettled(Exec(w, ev).store, id)
    ensures var st := w.store;
            || st.closed || Exec(w, ev).store.broken
            || (ev == Continue && st.queue.Saved? && st.queue.job.SettleJob? && st.queue.id == id
                && Exec(w, ev).disk == w.disk)
  {
    hide StartStep, SettleStep, RequestStep, UpdateStep, CancelStep, CloseStep, CloseNextStep, ReleaseStep;
    hide SaveStep, SaveFailsStep, ContinueStep, ExecuteEndsStep, RunEndsStep, RunBeginsStep;
    hide RunsInv, InputInv, AskedInv, ResolvedInv, ExecutedInv, QueueInv, Phases;
    var st := w.store;
    match ev
    case StartOp(x, now) => OpsSettleNothing(st, id, x, map[], map[], now);
    case CancelOp(x, now) => OpsSettleNothing(st, id, x, map[], map[], now);
    case RequestOp(x, requests, now) => OpsSettleNothing(st, id, x, requests, map[], now);
    case UpdateOp(x, responses, now) => OpsSettleNothing(st, id, x, map[], responses, now);
    case SettleOp(x, now) => SettleSettles(st, id, x, now);
    case RunBegins(x) => RunsSettleNothing(w, id, x, Result(0));
    case ExecuteEnds(x, outcome) => RunsSettleNothing(w, id, x, outcome);
    case RunEnds(x) => RunsSettleNothing(w, id, x, Result(0));
    case SaveOk => RunsSettleNothing(w, id, 0, Result(0));
    case SaveFails => FailureSettles(st, id);
    case CloseRequested =>
    case CloseOp => CloseSettlesNothing(st, id, 0, 0, true);
    case CloseNext(x, now) => CloseSettlesNothing(st, id, x, now, true);
    case ReleaseOk => CloseSettlesNothing(st, id, 0, 0, true);
    case ReleaseFails => CloseSettlesNothing(st, id, 0, 0, false);
    case Continue => ContinueSettles(st, id);
  }

  /**
   In every run, a run that settles has its outcome on disk by then: the result, or the very error,
   or the cancellation its task was told of, unless the runtime is closed or a save has failed.
   */
  lemma NothingIsLost(s0: System, actions: seq<Action>, act: Action, r: Name, id: TaskId)
    requires Init(s0) && r in Run(s0, actions).runtimes && r in Step(Run(s0, actions), act).runtimes
    requires id in Run(s0, actions).runtimes[r].store.runs && Run(s0, actions).runtimes[r].store.runs[id].Settling?
    requires var runs := Step(Run(s0, actions), act).runtimes[r].store.runs; id in runs && runs[id] == Settled
    ensures var s, s' := Run(s0, actions), Step(Run(s0, actions), act);
            var st := s.runtimes[r].store;
            || st.closed || s'.runtimes[r].store.broken
            || (id in s'.disk && id in st.active && SettlesAs(st.runs[id].outcome, st.active[id].aborted, s'.disk[id]))
  {
    hide Run, Step, Inv, WritersInv, SettlesAs;
    RunKeepsInv(s0, actions);
    RunKeepsWriters(s0, actions);
    var s := Run(s0, actions);
    StoreMoves(s, act, r);
    SettledStays(s, act, r, id);
    SettledOnDisk(s, r, act.event, id);
  }

  lemma SettledStays(s: System, act: Action, r: Name, id: TaskId)
    requires r in s.runtimes && r in Step(s, act).runtimes
    requires id in s.runtimes[r].store.runs && s.runtimes[r].store.runs[id].Settling?
    requires id in Step(s, act).runtimes[r].store.runs && Step(s, act).runtimes[r].store.runs[id] == Settled
    ensures act.Local? && act.r == r && s.runtimes[r].alive && s.runtimes[r].stage == Open
    ensures Step(s, act).runtimes[r].store == Exec(World(s.runtimes[r].store, s.disk), act.event).store
    ensures Step(s, act).disk == Exec(World(s.runtimes[r].store, s.disk), act.event).disk
  {
    hide Exec, ProcessAlive;
    if act.r != r {
      hide Step;
      OthersStay(s, act, r);
    }
  }

  lemma SettledOnDisk(s: System, r: Name, ev: Event, id: TaskId)
    requires Inv(s) && WritersInv(s) && r in s.runtimes && s.runtimes[r].alive && s.runtimes[r].stage == Open
    requires id in s.runtimes[r].store.runs && s.runtimes[r].store.runs[id].Settling?
    requires var runs := Exec(World(s.runtimes[r].store, s.disk), ev).store.runs; id in runs && runs[id] == Settled
    ensures var st, w := s.runtimes[r].store, Exec(World(s.runtimes[r].store, s.disk), ev);
            || st.closed || w.store.broken
            || (id in w.disk && id in st.active && SettlesAs(st.runs[id].outcome, st.active[id].aborted, w.disk[id]))
  {
    hide Exec, Phases, QueueFits, Owes, LeaseInv, AbortInv, StopsInv, QueuedInv, SettlesAs, StartedIds;
    hide RunsInv, InputInv, AskedInv, ResolvedInv, ExecutedInv;
    var st := s.runtimes[r].store;
    assert MemoryInv(s, s.runtimes[r]) && WriterInv(s.runtimes[r], s.disk);
    SettledBy(World(st, s.disk), ev, id);
  }

  /**
   In every run, a runtime that gives up its lease with no save ever failed leaves no record
   unfinished: what it had running is on disk as interrupted, or as it ended.
   */
  lemma CloseLeavesNothing(s0: System, actions: seq<Action>, r: Name, id: TaskId)
    requires Init(s0) && r in Run(s0, actions).runtimes && Run(s0, actions).runtimes[r].alive
    requires !Run(s0, actions).runtimes[r].store.leaseReleased && !Run(s0, actions).runtimes[r].store.broken
    requires r in Step(Run(s0, actions), Local(r, ReleaseOk)).runtimes
    requires Step(Run(s0, actions), Local(r, ReleaseOk)).runtimes[r].store.leaseReleased
    ensures var s' := Step(Run(s0, actions), Local(r, ReleaseOk));
            r !in s'.leases && (id in s'.disk ==> Terminal(s'.disk[id]))
  {
    hide Run, Inv, WritersInv;
    RunKeepsInv(s0, actions);
    RunKeepsWriters(s0, actions);
    ReleasedIsFinished(Run(s0, actions), r, id);
  }

  lemma ReleasedIsFinished(s: System, r: Name, id: TaskId)
    requires Inv(s) && WritersInv(s) && r in s.runtimes && s.runtimes[r].alive
    requires !s.runtimes[r].store.leaseReleased && !s.runtimes[r].store.broken
    requires s.runtimes[r].stage == Open && LocalStep(s, r, ReleaseOk).runtimes[r].store.leaseReleased
    ensures var s' := LocalStep(s, r, ReleaseOk); r !in s'.leases && (id in s'.disk ==> Terminal(s'.disk[id]))
  {
    hide PlanInv, Phases, QueueFits, LeaseInv, StartedIds;
    hide RunsInv, InputInv, AskedInv, ResolvedInv, ExecutedInv;
    assert MemoryInv(s, s.runtimes[r]) && WriterInv(s.runtimes[r], s.disk);
  }

  /** In every run, a runtime that is closed or had a save fail writes interrupted records and nothing else. */
  lemma OnlyClosingWrites(s0: System, actions: seq<Action>, r: Name, ev: Event, id: TaskId)
    requires Init(s0) && r in Run(s0, actions).runtimes && id in Step(Run(s0, actions), Local(r, ev)).disk
    requires Run(s0, actions).runtimes[r].store.broken || Run(s0, actions).runtimes[r].store.closed
    requires id in Run(s0, actions).disk ==> Step(Run(s0, actions), Local(r, ev)).disk[id] != Run(s0, actions).disk[id]
    ensures var d := Step(Run(s0, actions), Local(r, ev)).disk[id];
            d.status == Failed(-32603) && d.note == InterruptedNote && Run(s0, actions).runtimes[r].store.closed
  {
    hide Run, Step, Inv, WritersInv;
    RunKeepsInv(s0, actions);
    RunKeepsWriters(s0, actions);
    var s := Run(s0, actions);
    TwoWaysToWrite(s, Local(r, ev));
    ClosingWrites(s, r, ev, id);
  }

  lemma ClosingWrites(s: System, r: Name, ev: Event, id: TaskId)
    requires Inv(s) && WritersInv(s) && r in s.runtimes && id in LocalStep(s, r, ev).disk
    requires s.runtimes[r].store.broken || s.runtimes[r].store.closed
    requires id in s.disk ==> LocalStep(s, r, ev).disk[id] != s.disk[id]
    ensures var d := LocalStep(s, r, ev).disk[id];
            d.status == Failed(-32603) && d.note == InterruptedNote && s.runtimes[r].store.closed
  {
    hide Exec, Phases, QueueFits, LeaseInv, AbortInv, StopsInv, QueuedInv, SettlesAs, StartedIds, DiskAgrees, Limited;
    hide RunsInv, InputInv, AskedInv, ResolvedInv, ExecutedInv, JobInv;
    assert MemoryInv(s, s.runtimes[r]) && WriterInv(s.runtimes[r], s.disk);
    WriteIsASave(World(s.runtimes[r].store, s.disk), ev);
  }

  /** In every run, no runtime has more tasks registered than its limit. */
  lemma LimitIsKept(s0: System, actions: seq<Action>, r: Name)
    requires Init(s0) && r in Run(s0, actions).runtimes
    ensures |Run(s0, actions).runtimes[r].store.active| <= Run(s0, actions).runtimes[r].store.limit
  {
    hide Run, PlanInv, Phases, QueueFits, Closing;
    RunKeepsWriters(s0, actions);
    var s := Run(s0, actions);
    assert WriterInv(s.runtimes[r], s.disk);
  }

  /**
   In every run, every answer a callback was given is the client's: some request of that callback
   asked for the key, and some update of that task gave this value, which the request's schema
   accepts.
   */
  lemma AnswersAreGiven(s0: System, actions: seq<Action>, r: Name, i: nat, key: Key)
    requires Init(s0) && r in Run(s0, actions).runtimes && i < |Run(s0, actions).runtimes[r].store.resolved|
    requires key in Run(s0, actions).runtimes[r].store.resolved[i].answers
    ensures var done := Run(s0, actions).runtimes[r].store.resolved[i];
            exists requests: Requests, asked: nat, responses: map<Key, Response>, now: nat ::
              && Local(r, RequestOp(done.id, requests, asked)) in actions && key in requests
              && Local(r, UpdateOp(done.id, responses, now)) in actions && key in responses
              && responses[key].value == done.answers[key] && requests[key] in responses[key].fits
  {
    hide Run, OutcomesHeard, ExchangesHeard, JobHeard;
    RunIsHeard(s0, actions);
    var st, heard := Run(s0, actions).runtimes[r].store, Heard(r, actions);
    assert HeardInv(st, heard);
    var id, value := st.resolved[i].id, st.resolved[i].answers[key];
    assert AnswersHeard(id, st.resolved[i].answers, heard);
    var responses: map<Key, Response>, now: nat, kind: RequestKind :|
      && UpdateOp(id, responses, now) in heard && AskHeard(heard, id, key, kind)
      && key in responses && responses[key].value == value && kind in responses[key].fits;
    var requests: Requests, asked: nat :| RequestOp(id, requests, asked) in heard && key in requests && requests[key] == kind;
    HeardIsLocal(r, actions, UpdateOp(id, responses, now));
    HeardIsLocal(r, actions, RequestOp(id, requests, asked));
  }

  /**
   In every run, a task whose record asks for its cancellation has been told to stop, and its
   waiter is rejected, as soon as the continuation of the last save has run.
   */
  lemma CancellationsAreHeard(s0: System, actions: seq<Action>, r: Name, id: TaskId)
    requires Init(s0) && r in Run(s0, actions).runtimes && id in Run(s0, actions).disk
    requires Holds(Run(s0, actions).runtimes[r]) && Run(s0, actions).runtimes[r].stage == Open
    requires !Terminal(Run(s0, actions).disk[id]) && Run(s0, actions).disk[id].note == CancellationRequested
    ensures var st := Due(Run(s0, actions).runtimes[r].store);
            id in st.active ==> st.active[id].aborted && (st.active[id].input.Some? ==> st.active[id].input.value.rejected)
  {
    hide Run, Inv, WritersInv, MemInv, DiskAgrees, Due, Phases, QueueFits, Owes, QueuedInv, WritesInv;
    RunKeepsInv(s0, actions);
    RunKeepsWriters(s0, actions);
    var s := Run(s0, actions);
    HolderFacts(s, r);
    DueAgrees(s.runtimes[r].store, s.disk);
  }
}
