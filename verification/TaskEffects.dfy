/**
 What each operation of the task store comes to once its record is saved and its continuation has
 run, and when it is refused; and that from every reachable state a running task can be brought to
 its end on disk.
 */
module TaskEffects {
  import opened Options
  import opened TaskClosing
  import opened TaskOutcomes
  import opened TaskPhases
  import opened TaskRuntime
  import opened TaskSystem
  import opened TaskTheorems
  import opened TaskTransitions

  /** An operation of the serial queue, its save and its continuation. */
  function Done(w: World, op: Event): World {
    Exec(Exec(Exec(w, op), SaveOk), Continue)
  }

  /** No operation is under way, and none is refused outright. */
  predicate Ready(st: Store) {
    st.queue == Idle && !st.closed && !st.broken
  }

  /** A start below the limit has its record on disk and is registered, with nothing begun. */
  lemma StartTakesEffect(w: World, id: TaskId, now: nat)
    requires Ready(w.store) && |w.store.active| < w.store.limit
    ensures var w', r := Done(w, StartOp(id, now)), Record(now, now, NoNote, Working);
            && w'.disk == w.disk[id := r]
            && w'.store == w.store.(records := w.store.records[id := r], active := w.store.active[id := Active(false, {}, None)],
                                    runs := w.store.runs[id := Registered])
  {
  }

  /** The record of an outcome: a result wins, an error of a task told to stop is its cancellation. */
  function Ending(created: nat, now: nat, outcome: Outcome, stopped: bool): Record {
    if outcome.Result? then Record(created, now, NoNote, Completed(outcome.value))
    else if stopped then Record(created, now, CancelledNote, Cancelled)
    else Record(created, now, ExecutionFailed, Failed(outcome.code))
  }

  lemma SettleTakesEffect(w: World, id: TaskId, now: nat)
    requires Ready(w.store) && id in w.store.runs && w.store.runs[id].Settling?
    requires id in w.store.records && !Terminal(w.store.records[id]) && id in w.store.active
    ensures var w', r := Done(w, SettleOp(id, now)),
                         Ending(w.store.records[id].createdAt, now, w.store.runs[id].outcome, w.store.active[id].aborted);
            && w'.disk == w.disk[id := r]
            && w'.store == w.store.(records := w.store.records[id := r], runs := w.store.runs[id := Settled])
  {
  }

  /** A callback that may ask has its request on disk and waits for exactly these keys. */
  lemma RequestTakesEffect(w: World, id: TaskId, requests: Requests, now: nat)
    requires Ready(w.store) && id in w.store.active && !w.store.active[id].aborted && w.store.active[id].input.None?
    requires id in w.store.runs && Ran(w.store.runs[id]) && id in w.store.records && !Terminal(w.store.records[id])
    requires requests.Keys != {} && requests.Keys !! w.store.active[id].used
    ensures var w' := Done(w, RequestOp(id, requests, now));
            var r := Record(w.store.records[id].createdAt, now, w.store.records[id].note, InputRequired(requests));
            var a := Active(false, w.store.active[id].used + requests.Keys, Some(Pending(requests.Keys, requests, map[], false)));
            && w'.disk == w.disk[id := r]
            && w'.store == w.store.(records := w.store.records[id := r], active := w.store.active[id := a],
                                    asked := w.store.asked + [Ask(id, requests.Keys)])
  {
  }

  /** Asking is refused to a task that was told to stop, is finished, waits already, or repeats a key. */
  lemma RequestIsRefused(w: World, id: TaskId, requests: Requests, now: nat)
    requires id !in w.store.active || w.store.active[id].aborted || w.store.active[id].input.Some? || requests.Keys == {}
          || !(requests.Keys !! w.store.active[id].used) || id !in w.store.records || Terminal(w.store.records[id])
          || w.store.closed || w.store.broken
    ensures Exec(w, RequestOp(id, requests, now)) == w
  {
  }

  /** The answers to outstanding keys, and what stays outstanding. */
  ghost predicate Answers(p: Pending, responses: map<Key, Response>, taken: map<Key, nat>, left: Requests) {
    && (forall k :: k in taken <==> k in responses && k in p.outstanding)
    && (forall k :: k in taken ==> taken[k] == responses[k].value)
    && (forall k :: k in left <==> k in p.outstanding && k !in responses)
    && (forall k :: k in left ==> left[k] == p.outstanding[k])
  }

  /** Nothing is taken when no outstanding key is answered, or one of them by what its schema rejects. */
  lemma UpdateIsRefused(w: World, id: TaskId, responses: map<Key, Response>, now: nat)
    requires id in w.store.active && w.store.active[id].input.Some?
    requires var asked := w.store.active[id].input.value.outstanding;
             || (exists k :: k in responses && k in asked && asked[k] !in responses[k].fits)
             || (forall k :: k in responses ==> k !in asked)
    ensures Exec(w, UpdateOp(id, responses, now)) == w
  {
    var asked := w.store.active[id].input.value.outstanding;
    if forall k :: k in responses ==> k !in asked {
      assert Accepted(asked, responses).Keys == {};
    }
  }

  lemma UpdateIsTaken(st: Store, id: TaskId, responses: map<Key, Response>, now: nat, taken: map<Key, nat>, left: Requests)
    requires Ready(st) && id in st.records && st.records[id].status.InputRequired?
    requires id in st.active && st.active[id].input.Some?
    requires Answers(st.active[id].input.value, responses, taken, left) && taken.Keys != {}
    requires forall k :: k in taken ==> st.active[id].input.value.outstanding[k] in responses[k].fits
    ensures var status := if left.Keys == {} then Working else InputRequired(left);
            UpdateStep(st, id, responses, now) == st.(queue := Saving(UpdateJob(taken, left), id,
                                                        Record(st.records[id].createdAt, now, st.records[id].note, status)))
  {
    var asked := st.active[id].input.value.outstanding;
    assert Accepted(asked, responses) == taken;
    assert asked - taken.Keys == left;
  }

  /** Some keys stay outstanding: the answers are kept for later, and the rest is asked on disk as before. */
  lemma UpdateTakesEffect(w: World, id: TaskId, responses: map<Key, Response>, now: nat, taken: map<Key, nat>, left: Requests)
    requires Ready(w.store) && id in w.store.records && w.store.records[id].status.InputRequired?
    requires id in w.store.active && w.store.active[id].input.Some? && taken.Keys != {} && left.Keys != {}
    requires Answers(w.store.active[id].input.value, responses, taken, left)
    requires forall k :: k in taken ==> w.store.active[id].input.value.outstanding[k] in responses[k].fits
    ensures var w', a := Done(w, UpdateOp(id, responses, now)), w.store.active[id];
            var r := Record(w.store.records[id].createdAt, now, w.store.records[id].note, InputRequired(left));
            var p := Pending(a.input.value.requested, left, a.input.value.responses + taken, a.input.value.rejected);
            && w'.disk == w.disk[id := r]
            && w'.store == w.store.(records := w.store.records[id := r],
                                    active := w.store.active[id := Active(a.aborted, a.used, Some(p))])
  {
    hide Accepted, AllFit, Answers;
    UpdateIsTaken(w.store, id, responses, now, taken, left);
    hide UpdateStep;
  }

  /** The last answer puts the task back to work and hands all answers over, unless it was told to stop. */
  lemma LastUpdateTakesEffect(w: World, id: TaskId, responses: map<Key, Response>, now: nat, taken: map<Key, nat>)
    requires Ready(w.store) && id in w.store.records && w.store.records[id].status.InputRequired?
    requires id in w.store.active && w.store.active[id].input.Some? && taken.Keys != {}
    requires Answers(w.store.active[id].input.value, responses, taken, map[])
    requires forall k :: k in taken ==> w.store.active[id].input.value.outstanding[k] in responses[k].fits
    ensures var w', a := Done(w, UpdateOp(id, responses, now)), w.store.active[id];
            var r, p := Record(w.store.records[id].createdAt, now, w.store.records[id].note, Working), a.input.value;
            && w'.disk == w.disk[id := r]
            && w'.store == w.store.(records := w.store.records[id := r],
                                    active := w.store.active[id := Active(a.aborted, a.used, None)],
                                    resolved := w.store.resolved
                                      + if p.rejected then [] else [Resolution(id, p.requested, p.responses + taken)])
  {
    hide Accepted, AllFit, Answers;
    UpdateIsTaken(w.store, id, responses, now, taken, map[]);
    hide UpdateStep;
  }

  /** A cancellation is noted on disk first; then the task is told to stop and its waiter rejected. */
  lemma CancelTakesEffect(w: World, id: TaskId, now: nat)
    requires Ready(w.store) && id in w.store.active && id in w.store.records && !Terminal(w.store.records[id])
    ensures var w', a := Done(w, CancelOp(id, now)), w.store.active[id];
            var r := Record(w.store.records[id].createdAt, now, CancellationRequested, w.store.records[id].status);
            && w'.disk == w.disk[id := r]
            && w'.store.records == w.store.records[id := r]
            && w'.store.active.Keys == w.store.active.Keys && w'.store.active[id].aborted
            && w'.store.active[id].input.Some? == a.input.Some? && w'.store.active[id].used == a.used
            && (a.input.Some? ==> w'.store.active[id].input.value == a.input.value.(rejected := true))
            && forall x :: x in w.store.active && x != id ==> w'.store.active[x] == w.store.active[x]
  {
  }

  /** A close tells every registered task to stop, rejects every waiter, and has every one of them to visit. */
  lemma CloseTakesEffect(w: World)
    requires w.store.queue == Idle && w.store.closingRequested && !w.store.leaseReleased
    ensures var w' := Exec(w, CloseOp);
            && w'.disk == w.disk && w'.store.closed && w'.store.queue == CloseLoop(w.store.active.Keys)
            && w'.store.active.Keys == w.store.active.Keys && w'.store.records == w.store.records
            && forall id :: id in w.store.active ==>
                 var a, b := w.store.active[id], w'.store.active[id];
                 && b.aborted && b.used == a.used && b.input.Some? == a.input.Some?
                 && (a.input.Some? ==> b.input.value == a.input.value.(rejected := true))
  {
  }

  /** A close visits a task once: an unfinished one is recorded as interrupted, a finished one left alone. */
  lemma VisitTakesEffect(w: World, id: TaskId, now: nat)
    requires w.store.queue.CloseLoop? && id in w.store.queue.todo && id in w.store.records
    ensures var r := w.store.records[id];
            if r.status.Completed? || r.status.Failed? || r.status.Cancelled? then
              Exec(w, CloseNext(id, now)) == w.(store := w.store.(queue := CloseLoop(w.store.queue.todo - {id})))
            else
              var w', r' := Done(w, CloseNext(id, now)), Record(r.createdAt, now, InterruptedNote, Failed(-32603));
              w'.disk == w.disk[id := r']
              && w'.store == w.store.(records := w.store.records[id := r'], queue := CloseLoop(w.store.queue.todo - {id}))
  {
  }

  /** A save that fails changes no record and breaks the store; a settling run is over, and a close goes on with the next task. */
  lemma FailureTakesEffect(w: World)
    requires w.store.queue.Saving?
    ensures var q := w.store.queue;
            Exec(w, SaveFails) == w.(store := w.store.(
              broken := true,
              queue := if q.job.CloseJob? then CloseLoop(q.job.todo) else Idle,
              runs := if q.job.SettleJob? then w.store.runs[q.id := Settled] else w.store.runs))
  {
  }

  /** When the operations of the queue are refused and change nothing. */
  lemma OperationsAreRefused(w: World, id: TaskId, now: nat)
    ensures |w.store.active| >= w.store.limit || w.store.closed || w.store.broken ==> Exec(w, StartOp(id, now)) == w
    ensures id !in w.store.active || w.store.closed || w.store.broken ==> Exec(w, CancelOp(id, now)) == w
    ensures id in w.store.records && Terminal(w.store.records[id]) ==> Exec(w, CancelOp(id, now)) == w
    ensures !w.store.closingRequested || w.store.leaseReleased ==> Exec(w, CloseOp) == w
  {
  }

  /** With every task visited the lease is given up and memory emptied; a failed removal leaves the close to be tried again. */
  lemma ReleaseTakesEffect(w: World)
    requires w.store.queue == CloseLoop({})
    ensures Exec(w, ReleaseOk) == w.(store := w.store.(leaseReleased := true, active := map[], queue := Idle))
    ensures Exec(w, ReleaseFails) == w.(store := w.store.(queue := Idle))
  {
  }

  /**
   The run of a registered task calls the callback exactly when nobody asked to close, no save
   failed and the task was not told to stop; a run refused for the last two reasons ends with an
   internal error, and one refused by a close is left to it. A settled run leaves memory.
   */
  lemma RunTakesEffect(w: World, id: TaskId)
    requires id in w.store.active && id in w.store.runs && w.store.runs[id] == Registered
    ensures var st, st', a := w.store, Exec(w, RunBegins(id)).store, w.store.active[id];
            && (!st.closingRequested && !st.broken && !a.aborted <==> st'.executed == st.executed + [id])
            && (st.closingRequested ==> st'.runs == st.runs[id := Skipped])
            && (!st.closingRequested && (st.broken || a.aborted) ==> st'.runs == st.runs[id := Settling(Error(-32603))])
            && st'.active == st.active && st'.records == st.records && st'.queue == st.queue
    ensures var ended := w.store.runs[id := Settled];
            Exec(w.(store := w.store.(runs := ended)), RunEnds(id)).store
              == w.store.(runs := w.store.runs[id := Ended], active := w.store.active - {id})
  {
  }

  // ---------- progress ----------

  /** What is left of the operation under way. */
  function Rest(st: Store): seq<Event> {
    if st.queue.Saving? then [SaveOk, Continue] else if st.queue.Saved? then [Continue] else []
  }

  /** Letting it finish leaves a store that is ready, with a task that executes still unfinished. */
  lemma RestIsReady(w: World, id: TaskId)
    requires MemInv(w.store) && StoreInv(w.store) && DiskAgrees(w.store, w.disk)
    requires !w.store.closed && !w.store.broken && id in w.store.runs && w.store.runs[id] == Executing
    ensures var w' := ExecAll(w, Rest(w.store));
            && MemInv(w'.store) && StoreInv(w'.store) && DiskAgrees(w'.store, w'.disk)
            && Ready(w'.store) && id in w'.store.runs && w'.store.runs[id] == Executing
  {
    hide Exec, MemInv, StoreInv, DiskAgrees;
    var st := w.store;
    NotClosing(st);
    if st.queue.Saving? {
      var w1 := Exec(w, SaveOk);
      assert Rest(st)[..1] == [SaveOk] && Rest(st) == [SaveOk] + [Continue];
      ExecOneMore(w, [], SaveOk);
      ExecOneMore(w, [SaveOk], Continue);
      EventKeeps(w, SaveOk);
      SaveMoves(w);
      EventKeeps(w1, Continue);
      ContinueMoves(w1, id);
    } else if st.queue.Saved? {
      ExecOneMore(w, [], Continue);
      EventKeeps(w, Continue);
      ContinueMoves(w, id);
    }
  }

  lemma NotClosing(st: Store)
    requires MemInv(st) && !st.closed
    ensures !st.queue.CloseLoop? && (st.queue.Saving? || st.queue.Saved? ==> !st.queue.job.CloseJob?)
  {
    hide RunsInv, InputInv, AskedInv, ResolvedInv, ExecutedInv, JobInv;
  }

  lemma EventKeeps(w: World, ev: Event)
    requires MemInv(w.store) && StoreInv(w.store) && DiskAgrees(w.store, w.disk) && !ev.StartOp?
    ensures var w' := Exec(w, ev); MemInv(w'.store) && StoreInv(w'.store) && DiskAgrees(w'.store, w'.disk)
  {
    hide Exec, MemInv, StoreInv, DiskAgrees;
    ExecKeepsInv(w, ev);
    ExecKeepsStore(w, ev);
    ExecKeepsDisk(w, ev);
  }

  lemma SaveMoves(w: World)
    requires w.store.queue.Saving?
    ensures var q, st' := w.store.queue, Exec(w, SaveOk).store; st' == w.store.(queue := Saved(q.job, q.id, q.record))
  {
  }

  lemma ContinueMoves(w: World, id: TaskId)
    requires MemInv(w.store) && w.store.queue.Saved? && !w.store.queue.job.CloseJob?
    requires id in w.store.runs && w.store.runs[id] == Executing
    ensures var st' := Exec(w, Continue).store;
            && st'.queue == Idle && st'.closed == w.store.closed && st'.broken == w.store.broken
            && id in st'.runs && st'.runs[id] == Executing
  {
    hide RunsInv, InputInv, AskedInv, ResolvedInv, ExecutedInv, Rejected;
  }

  /** The end of a callback and the settling of its run. */
  function EndEvents(id: TaskId, outcome: Outcome, now: nat): seq<Event> {
    [ExecuteEnds(id, outcome), SettleOp(id, now), SaveOk, Continue]
  }

  lemma EndIsDone(w: World, id: TaskId, outcome: Outcome, now: nat)
    ensures ExecAll(w, EndEvents(id, outcome, now)) == Done(Exec(w, ExecuteEnds(id, outcome)), SettleOp(id, now))
  {
    hide Exec, ExecAll;
    var a, b, c, d := ExecuteEnds(id, outcome), SettleOp(id, now), SaveOk, Continue;
    ExecStart(w);
    assert [a] == [] + [a] && [a, b] == [a] + [b] && [a, b, c] == [a, b] + [c] && [a, b, c, d] == [a, b, c] + [d];
    ExecOneMore(w, [], a);
    ExecOneMore(w, [a], b);
    ExecOneMore(w, [a, b], c);
    ExecOneMore(w, [a, b, c], d);
  }

  /** A running task of a ready store is in memory, unfinished, and told to stop exactly when its record says so. */
  lemma ExecutingTask(st: Store, id: TaskId)
    requires MemInv(st) && StoreInv(st) && Ready(st) && id in st.runs && st.runs[id] == Executing
    ensures id in st.records && !Terminal(st.records[id]) && id in st.active
    ensures st.active[id].aborted <==> st.records[id].note == CancellationRequested
  {
    hide QueueInv, InputInv, AskedInv, ResolvedInv, ExecutedInv, StopsInv, QueuedInv, WritesInv;
  }

  lemma EndTakesEffect(w: World, id: TaskId, outcome: Outcome, now: nat)
    requires MemInv(w.store) && StoreInv(w.store) && DiskAgrees(w.store, w.disk) && Ready(w.store)
    requires id in w.store.runs && w.store.runs[id] == Executing
    ensures var w' := ExecAll(w, EndEvents(id, outcome, now));
            && id in w.disk && id in w'.disk
            && w'.disk[id] == Ending(w.disk[id].createdAt, now, outcome, w.disk[id].note == CancellationRequested)
  {
    hide MemInv, StoreInv, ExecAll;
    EndIsDone(w, id, outcome, now);
    ExecutingTask(w.store, id);
    var w1 := Exec(w, ExecuteEnds(id, outcome));
    assert w1.store == w.store.(runs := w.store.runs[id := Settling(outcome)]) && w1.disk == w.disk;
    hide Exec;
    SettleTakesEffect(w1, id, now);
  }

  /**
   From every reachable state of an open runtime, closed by nobody and with no save failed, a task
   that executes can be brought to its end: the operation under way finishes, the callback ends with
   any outcome at all, and the disk then holds that outcome.
   */
  lemma RunningTasksCanEnd(s0: System, actions: seq<Action>, r: Name, id: TaskId, outcome: Outcome, now: nat)
    requires Init(s0) && r in Run(s0, actions).runtimes && Run(s0, actions).runtimes[r].stage == Open
    requires Holds(Run(s0, actions).runtimes[r])
    requires var st := Run(s0, actions).runtimes[r].store; !st.closed && !st.broken && id in st.runs && st.runs[id] == Executing
    ensures var rest := Rest(Run(s0, actions).runtimes[r].store);
            var s, s' := Run(s0, actions + Locals(r, rest)), Run(s0, actions + Locals(r, rest) + Locals(r, EndEvents(id, outcome, now)));
            && id in s.disk && id in s'.disk
            && s'.disk[id] == Ending(s.disk[id].createdAt, now, outcome, s.disk[id].note == CancellationRequested)
  {
    hide Run, Inv, WritersInv, MemInv, StoreInv, DiskAgrees, Exec, ExecAll, Ending, Ready;
    RunKeepsInv(s0, actions);
    RunKeepsWriters(s0, actions);
    var s := Run(s0, actions);
    HolderFacts(s, r);
    var w := World(s.runtimes[r].store, s.disk);
    RestIsReady(w, id);
    LocalsAreExec(s, r, Rest(w.store));
    RunAppend(s0, actions, Locals(r, Rest(w.store)));
    var mid := Run(s0, actions + Locals(r, Rest(w.store)));
    LocalsAreExec(mid, r, EndEvents(id, outcome, now));
    RunAppend(s0, actions + Locals(r, Rest(w.store)), Locals(r, EndEvents(id, outcome, now)));
    EndTakesEffect(ExecAll(w, Rest(w.store)), id, outcome, now);
  }

  // ---------- closing ----------

  /** A close under way: its tasks to visit, and nothing released. */
  predicate Visiting(st: Store, todo: set<TaskId>) {
    st.queue == CloseLoop(todo) && !st.leaseReleased
  }

  lemma OneVisit(w: World, id: TaskId, now: nat)
    requires w.store.queue.CloseLoop? && id in w.store.queue.todo && !w.store.leaseReleased
    ensures var w1, todo := Exec(w, CloseNext(id, now)), w.store.queue.todo - {id};
            || (Visiting(w1.store, todo) && w1.store.broken == w.store.broken)
            || (Visiting(Done(w, CloseNext(id, now)).store, todo) && Done(w, CloseNext(id, now)).store.broken == w.store.broken)
  {
    if id in w.store.records {
      hide Exec;
      VisitTakesEffect(w, id, now);
    } else {
      assert Exec(w, CloseNext(id, now)) == w.(store := w.store.(queue := CloseLoop(w.store.queue.todo - {id})));
      hide Exec;
    }
  }

  lemma {:induction false} ExecAppend(w: World, a: seq<Event>, b: seq<Event>)
    ensures ExecAll(w, a + b) == ExecAll(ExecAll(w, a), b)
  {
    if b == [] {
      assert a + b == a;
    } else {
      ExecAppend(w, a, b[..|b| - 1]);
      assert (a + b)[..|a + b| - 1] == a + b[..|b| - 1];
    }
  }

  lemma TwoMore(w: World, a: Event, b: Event, c: Event)
    ensures ExecAll(w, [a]) == Exec(w, a) && ExecAll(w, [a, b, c]) == Exec(Exec(Exec(w, a), b), c)
  {
    hide Exec, ExecAll;
    ExecStart(w);
    assert [a] == [] + [a] && [a, b] == [a] + [b] && [a, b, c] == [a, b] + [c];
    ExecOneMore(w, [], a);
    ExecOneMore(w, [a], b);
    ExecOneMore(w, [a, b], c);
  }

  /** Events that start no task. */
  predicate StartsNothing(events: seq<Event>) {
    forall i :: 0 <= i < |events| ==> !events[i].StartOp?
  }

  lemma {:induction false} VisitsEnd(w: World, todo: set<TaskId>, now: nat) returns (events: seq<Event>)
    requires Visiting(w.store, todo)
    ensures StartsNothing(events) && Visiting(ExecAll(w, events).store, {})
    ensures ExecAll(w, events).store.broken == w.store.broken
    decreases todo
  {
    hide Exec;
    if todo == {} {
      return [];
    }
    var id :| id in todo;
    OneVisit(w, id, now);
    TwoMore(w, CloseNext(id, now), SaveOk, Continue);
    var first := [CloseNext(id, now)];
    if !Visiting(ExecAll(w, first).store, todo - {id}) || ExecAll(w, first).store.broken != w.store.broken {
      first := [CloseNext(id, now), SaveOk, Continue];
    }
    var rest := VisitsEnd(ExecAll(w, first), todo - {id}, now);
    ExecAppend(w, first, rest);
    events := first + rest;
  }

  /** An operation under way comes to its end when it is let. */
  lemma RestIsIdle(w: World)
    requires MemInv(w.store) && !w.store.closed
    ensures var st' := ExecAll(w, Rest(w.store)).store;
            st'.queue == Idle && st'.leaseReleased == w.store.leaseReleased && st'.broken == w.store.broken
  {
    NotClosing(w.store);
    hide Exec, MemInv;
    var st := w.store;
    TwoMore(w, Continue, Continue, Continue);
    if st.queue.Saving? {
      assert [SaveOk, Continue] == [SaveOk] + [Continue];
      TwoMore(w, SaveOk, Continue, Continue);
      ExecOneMore(w, [SaveOk], Continue);
      SaveMoves(w);
      ContinueIdles(Exec(w, SaveOk));
    } else if st.queue.Saved? {
      ContinueIdles(w);
    }
  }

  lemma ContinueIdles(w: World)
    requires w.store.queue.Saved? && !w.store.queue.job.CloseJob?
    ensures var st' := Exec(w, Continue).store;
            st'.queue == Idle && st'.leaseReleased == w.store.leaseReleased && st'.broken == w.store.broken
  {
    hide AfterSave;
    var q := w.store.queue;
    AfterSaveShell(w.store.(records := w.store.records[q.id := q.record], queue := Idle), q.job, q.id);
  }

  lemma CloseBegins(w: World)
    requires w.store.queue == Idle && !w.store.leaseReleased
    ensures var st' := ExecAll(w, [CloseRequested, CloseOp]).store;
            Visiting(st', w.store.active.Keys) && st'.broken == w.store.broken
  {
    assert [CloseRequested, CloseOp] == [CloseRequested] + [CloseOp];
    TwoMore(w, CloseRequested, CloseOp, CloseOp);
    ExecOneMore(w, [CloseRequested], CloseOp);
  }

  /** From an open store the whole of a close can be run through. */
  lemma CloseEnds(w: World, now: nat) returns (events: seq<Event>)
    requires MemInv(w.store) && !w.store.closed && !w.store.leaseReleased
    ensures StartsNothing(events) && ExecAll(w, events).store.queue == CloseLoop({})
    ensures !ExecAll(w, events).store.leaseReleased && ExecAll(w, events).store.broken == w.store.broken
  {
    hide Exec, MemInv, ExecAll;
    var rest := Rest(w.store);
    RestIsIdle(w);
    var w1 := ExecAll(w, rest);
    CloseBegins(w1);
    var w2 := ExecAll(w1, [CloseRequested, CloseOp]);
    var visits := VisitsEnd(w2, w1.store.active.Keys, now);
    ExecAppend(w, rest, [CloseRequested, CloseOp]);
    ExecAppend(w, rest + [CloseRequested, CloseOp], visits);
    events := rest + [CloseRequested, CloseOp] + visits;
  }

  /**
   From every reachable state of an open runtime that is not closed there is a run of its own that
   closes it: its lease is gone, and unless a save had failed before no record is left unfinished.
   */
  lemma RuntimesCanClose(s0: System, actions: seq<Action>, r: Name, now: nat) returns (more: seq<Action>)
    requires Init(s0) && r in Run(s0, actions).runtimes && Run(s0, actions).runtimes[r].stage == Open
    requires Holds(Run(s0, actions).runtimes[r]) && !Run(s0, actions).runtimes[r].store.closed
    ensures forall i :: 0 <= i < |more| ==> more[i].Local? && more[i].r == r && !more[i].event.StartOp?
    ensures var s, s' := Run(s0, actions), Run(s0, actions + more);
            && r in s'.runtimes && s'.runtimes[r].store.leaseReleased && r !in s'.leases
            && (!s.runtimes[r].store.broken ==> forall id :: id in s'.disk ==> Terminal(s'.disk[id]))
  {
    hide Run, Step, Inv, WritersInv, MemInv, StoreInv, DiskAgrees, Exec, ExecAll;
    RunKeepsInv(s0, actions);
    RunKeepsWriters(s0, actions);
    var s := Run(s0, actions);
    HolderFacts(s, r);
    var events := CloseEnds(World(s.runtimes[r].store, s.disk), now);
    LocalsAreExec(s, r, events);
    LocalsAreLocal(r, events);
    RunAppend(s0, actions, Locals(r, events));
    var before := actions + Locals(r, events);
    more := Locals(r, events) + [Local(r, ReleaseOk)];
    assert actions + more == before + [Local(r, ReleaseOk)];
    RunOneMore(s0, before, Local(r, ReleaseOk));
    ReleaseStepReleases(Run(s0, before), r);
    CloseEndsAll(s0, before, r);
  }

  lemma {:induction false} LocalsAreLocal(r: Name, events: seq<Event>)
    requires StartsNothing(events)
    ensures forall i :: 0 <= i < |Locals(r, events)| ==>
              Locals(r, events)[i].Local? && Locals(r, events)[i].r == r && !Locals(r, events)[i].event.StartOp?
  {
    if events != [] {
      LocalsAreLocal(r, events[..|events| - 1]);
    }
  }

  lemma ReleaseStepReleases(s: System, r: Name)
    requires r in s.runtimes && s.runtimes[r].alive && s.runtimes[r].stage == Open
    requires s.runtimes[r].store.queue == CloseLoop({}) && !s.runtimes[r].store.leaseReleased
    ensures var s' := Step(s, Local(r, ReleaseOk)); r in s'.runtimes && s'.runtimes[r].store.leaseReleased && r !in s'.leases
  {
    hide Exec, ProcessAlive;
    ReleaseTakesEffect(World(s.runtimes[r].store, s.disk));
  }

  lemma CloseEndsAll(s0: System, actions: seq<Action>, r: Name)
    requires Init(s0) && r in Run(s0, actions).runtimes && Run(s0, actions).runtimes[r].alive
    requires !Run(s0, actions).runtimes[r].store.leaseReleased
    requires r in Step(Run(s0, actions), Local(r, ReleaseOk)).runtimes
    requires Step(Run(s0, actions), Local(r, ReleaseOk)).runtimes[r].store.leaseReleased
    ensures var s' := Step(Run(s0, actions), Local(r, ReleaseOk));
            !Run(s0, actions).runtimes[r].store.broken ==> forall id :: id in s'.disk ==> Terminal(s'.disk[id])
  {
    hide Run, Step;
    var s' := Step(Run(s0, actions), Local(r, ReleaseOk));
    if !Run(s0, actions).runtimes[r].store.broken {
      forall id | id in s'.disk ensures Terminal(s'.disk[id]) {
        CloseLeavesNothing(s0, actions, r, id);
      }
    }
  }
}
