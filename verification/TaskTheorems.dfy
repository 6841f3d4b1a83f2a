/**
 What the shared storage directory guarantees over every run: any interleaving of
 opening, scanning, recovering, working, closing and crashing runtimes.
 */
module TaskTheorems {
  import opened Options
  import opened TaskRuntime
  import opened TaskSystem

  lemma {:induction false} RunKeepsInv(s0: System, actions: seq<Action>)
    requires Init(s0)
    ensures Inv(Run(s0, actions))
  {
    if actions != [] {
      hide Inv;
      RunKeepsInv(s0, actions[..|actions| - 1]);
      StepKeepsInv(Run(s0, actions[..|actions| - 1]), actions[|actions| - 1]);
    }
  }

  /** Never two live runtimes past the lease scan with unreleased leases. */
  lemma MutualExclusion(s0: System, actions: seq<Action>, a: Name, b: Name)
    requires Init(s0)
    ensures var s := Run(s0, actions);
            a in s.runtimes && b in s.runtimes && Holds(s.runtimes[a]) && Holds(s.runtimes[b]) ==> a == b
  {
    RunKeepsInv(s0, actions);
    var s := Run(s0, actions);
    if a in s.runtimes && b in s.runtimes && a != b {
      OneHolder(s, a, b);
    }
  }

  /** A record is written only by the runtime that holds the lease, before and after the write. */
  lemma OnlyTheHolderWrites(s0: System, actions: seq<Action>, act: Action)
    requires Init(s0)
    ensures var s, s' := Run(s0, actions), Step(Run(s0, actions), act);
            s'.disk != s.disk ==>
              && (act.Local? || act.RecoverWrite?)
              && act.r in s.runtimes && Holds(s.runtimes[act.r])
              && Holds(s'.runtimes[act.r]) && s'.leases == s.leases
  {
    hide Step;
    hide Inv;
    RunKeepsInv(s0, actions);
    var s := Run(s0, actions);
    if Step(s, act).disk != s.disk {
      TwoWaysToWrite(s, act);
      WriterHolds(s, act);
    }
  }

  /** Reading the step function: only a recovery write and a local event reach the records. */
  lemma TwoWaysToWrite(s: System, act: Action)
    requires Step(s, act).disk != s.disk
    ensures act.r in s.runtimes && s.runtimes[act.r].alive
    ensures (act.Local? && Step(s, act) == LocalStep(s, act.r, act.event) && s.runtimes[act.r].stage == Open)
         || (act.RecoverWrite? && Step(s, act) == RecoverWriteStep(s, act.r) && s.runtimes[act.r].stage.Recovering?)
  {
    hide Exec;
    hide ProcessAlive;
  }

  lemma WriterHolds(s: System, act: Action)
    requires Inv(s) && act.r in s.runtimes && s.runtimes[act.r].alive && Step(s, act).disk != s.disk
    requires (act.Local? && Step(s, act) == LocalStep(s, act.r, act.event) && s.runtimes[act.r].stage == Open)
          || (act.RecoverWrite? && Step(s, act) == RecoverWriteStep(s, act.r) && s.runtimes[act.r].stage.Recovering?)
    ensures Holds(s.runtimes[act.r])
    ensures act.r in Step(s, act).runtimes && Holds(Step(s, act).runtimes[act.r]) && Step(s, act).leases == s.leases
  {
    hide Step, MemInv, Exec, DiskAgrees, StartedIds, RecoveryInv, PeerInv;
    assert MemoryInv(s, s.runtimes[act.r]) && OwnInv(s, act.r, s.runtimes[act.r]);
    if act.Local? {
      WriteIsASave(World(s.runtimes[act.r].store, s.disk), act.event);
    }
  }

  lemma WriteIsASave(w: World, ev: Event)
    requires MemInv(w.store)
    ensures var w' := Exec(w, ev);
            w'.disk != w.disk ==>
              && ev == SaveOk && w.store.queue.Saving? && !w.store.leaseReleased && !w'.store.leaseReleased
              && w'.disk == w.disk[w.store.queue.id := w.store.queue.record]
  {
    hide RunsInv;
    hide InputInv;
    hide AskedInv;
    hide ResolvedInv;
    hide ExecutedInv;
    if ev != SaveOk {
      QuietOrContinue(w, ev);
    }
  }

  lemma QuietOrContinue(w: World, ev: Event)
    requires ev != SaveOk
    ensures Exec(w, ev).disk == w.disk
  {
    if ev != Continue {
      QuietEventsKeepRecords(w, ev);
    }
  }

  /** A terminal record stays byte for byte what it is, through work, closes, crashes and reopens. */
  lemma {:induction false} TerminalForever(s0: System, actions: seq<Action>, more: seq<Action>, id: TaskId)
    requires Init(s0)
    requires id in Run(s0, actions).disk && Terminal(Run(s0, actions).disk[id])
    ensures id in Run(s0, actions + more).disk
    ensures Run(s0, actions + more).disk[id] == Run(s0, actions).disk[id]
  {
    hide Step;
    if more == [] {
      assert actions + more == actions;
    } else {
      var most := more[..|more| - 1];
      TerminalForever(s0, actions, most, id);
      assert actions + more == (actions + most) + [more[|more| - 1]];
      RunOneMore(s0, actions + most, more[|more| - 1]);
      RunKeepsInv(s0, actions + most);
      StepKeepsInv(Run(s0, actions + most), more[|more| - 1]);
    }
  }

  lemma RunOneMore(s0: System, actions: seq<Action>, act: Action)
    ensures Run(s0, actions + [act]) == Step(Run(s0, actions), act)
  {
    assert (actions + [act])[..|actions|] == actions;
  }

  /** Each task's callback was begun at most once, by at most one runtime. */
  lemma CallbackAtMostOnce(s0: System, actions: seq<Action>, a: Name, i: nat, b: Name, j: nat)
    requires Init(s0)
    requires a in Run(s0, actions).runtimes && b in Run(s0, actions).runtimes
    requires i < |Run(s0, actions).runtimes[a].store.executed|
    requires j < |Run(s0, actions).runtimes[b].store.executed|
    requires Run(s0, actions).runtimes[a].store.executed[i] == Run(s0, actions).runtimes[b].store.executed[j]
    ensures a == b && i == j
  {
    RunKeepsInv(s0, actions);
    var s := Run(s0, actions);
    assert MemoryInv(s, s.runtimes[a]) && MemoryInv(s, s.runtimes[b]);
    assert s.runtimes[a].store.executed[i] in StartedIds(s.runtimes[a].store);
    assert s.runtimes[b].store.executed[j] in StartedIds(s.runtimes[b].store);
  }

  /**
   A callback begins only for a task this very runtime started, whose record is already
   on disk, that no runtime ever ran before, and never once close was requested.
   */
  lemma CallbackBegins(s: System, act: Action, r: Name)
    requires Inv(s) && r in s.runtimes
    requires r in Step(s, act).runtimes && Step(s, act).runtimes[r].store.executed != s.runtimes[r].store.executed
    ensures var st, st' := s.runtimes[r].store, Step(s, act).runtimes[r].store;
            && act.Local? && act.r == r && act.event.RunBegins? && s.runtimes[r].alive && s.runtimes[r].stage == Open
            && st'.executed == st.executed + [act.event.id]
            && !st.closingRequested && Holds(s.runtimes[r])
            && act.event.id in s.disk && act.event.id !in st.recovered
            && act.event.id in st.runs && st.runs[act.event.id] == Registered
            && forall x :: x in s.runtimes ==> act.event.id !in s.runtimes[x].store.executed
  {
    hide Step, Inv;
    if act.r != r {
      OthersStay(s, act, r);
    }
    OneWayToExecute(s, act);
    ExecuteBegins(s, r, act.event);
  }

  lemma OthersStay(s: System, act: Action, r: Name)
    requires r in s.runtimes && act.r != r
    ensures r in Step(s, act).runtimes && Step(s, act).runtimes[r] == s.runtimes[r]
  {
    hide Exec, ProcessAlive;
  }

  lemma StepKeepsRuntimes(s: System, act: Action, r: Name)
    requires Inv(s) && r in s.runtimes
    ensures r in Step(s, act).runtimes
  {
    hide Exec;
    hide ProcessAlive;
    hide Inv;
    assert s.runtimes.Keys <= Step(s, act).runtimes.Keys;
  }

  /** Reading the step function: opening only ever installs a store that has executed nothing. */
  lemma OpeningExecutesNothing(s: System, act: Action)
    requires act.r in s.runtimes && act.r in Step(s, act).runtimes && act.r in s.names && !act.Local?
    requires s.runtimes[act.r].stage != Open ==> s.runtimes[act.r].store.executed == []
    ensures Step(s, act).runtimes[act.r].store.executed == s.runtimes[act.r].store.executed
  {
    hide ProcessAlive;
  }

  lemma OneWayToExecute(s: System, act: Action)
    requires Inv(s) && act.r in s.runtimes && act.r in Step(s, act).runtimes
    requires Step(s, act).runtimes[act.r].store.executed != s.runtimes[act.r].store.executed
    ensures act.Local? && s.runtimes[act.r].alive && s.runtimes[act.r].stage == Open
    ensures Step(s, act).runtimes[act.r].store == Exec(World(s.runtimes[act.r].store, s.disk), act.event).store
  {
    hide Exec, MemInv, LeaseInv, StartedIds, DiskAgrees, RecoveryInv;
    assert MemoryInv(s, s.runtimes[act.r]);
    assert act.r in s.names by {
      InvGivesMemInv(s);
      OwnFacts(s, act.r);
    }
    if !act.Local? {
      hide Step;
      OpeningExecutesNothing(s, act);
    }
  }

  lemma ExecuteBegins(s: System, r: Name, ev: Event)
    requires Inv(s) && r in s.runtimes && s.runtimes[r].alive && s.runtimes[r].stage == Open
    requires Exec(World(s.runtimes[r].store, s.disk), ev).store.executed != s.runtimes[r].store.executed
    ensures var st := s.runtimes[r].store;
            && ev.RunBegins? && Exec(World(st, s.disk), ev).store.executed == st.executed + [ev.id]
            && ev.id in st.runs && st.runs[ev.id] == Registered
            && !st.closingRequested && Holds(s.runtimes[r])
            && ev.id in s.disk && ev.id !in st.recovered
            && forall x :: x in s.runtimes ==> ev.id !in s.runtimes[x].store.executed
  {
    hide LeaseInv;
    hide Exec;
    var st := s.runtimes[r].store;
    assert MemoryInv(s, s.runtimes[r]);
    ExecutedGrows(World(st, s.disk), ev);
    forall x | x in s.runtimes && x != r
      ensures ev.id !in s.runtimes[x].store.executed
    {
      NotRunElsewhere(s, r, x, ev.id);
    }
  }

  lemma OpsExecuteNothing(st: Store, id: TaskId, requests: Requests, responses: map<Key, Response>, now: nat)
    ensures StartStep(st, id, now).executed == SettleStep(st, id, now).executed == st.executed
    ensures RequestStep(st, id, requests, now).executed == UpdateStep(st, id, responses, now).executed == st.executed
    ensures CancelStep(st, id, now).executed == st.executed
  {
  }

  lemma RunsExecuteNothing(st: Store, id: TaskId, outcome: Outcome)
    ensures ExecuteEndsStep(st, id, outcome).executed == RunEndsStep(st, id).executed == st.executed
  {
  }

  lemma SavesExecuteNothing(w: World)
    ensures SaveStep(w).store.executed == SaveFailsStep(w.store).executed == w.store.executed
  {
  }

  lemma CloseExecutesNothing(st: Store, id: TaskId, now: nat, ok: bool)
    ensures CloseStep(st).executed == ReleaseStep(st, ok).executed == CloseNextStep(st, id, now).executed == st.executed
  {
  }

  lemma AfterSaveExecutesNothing(st: Store, job: Job, id: TaskId)
    ensures AfterSave(st, job, id).executed == st.executed
  {
    hide Rejected;
  }

  lemma ContinueExecutesNothing(st: Store)
    ensures ContinueStep(st).executed == st.executed
  {
    hide AfterSave;
    var q := st.queue;
    if q.Saved? {
      AfterSaveExecutesNothing(st.(records := st.records[q.id := q.record], queue := Idle), q.job, q.id);
    }
  }

  lemma {:induction false} OnlyRunsExecute(w: World, ev: Event)
    requires !ev.RunBegins?
    ensures Exec(w, ev).store.executed == w.store.executed
  {
    hide StartStep, SettleStep, RequestStep, UpdateStep, CancelStep, CloseStep, CloseNextStep, ReleaseStep;
    hide SaveStep, SaveFailsStep, ContinueStep, ExecuteEndsStep, RunEndsStep;
    var st := w.store;
    match ev
    case StartOp(id, now) => OpsExecuteNothing(st, id, map[], map[], now);
    case SettleOp(id, now) => OpsExecuteNothing(st, id, map[], map[], now);
    case CancelOp(id, now) => OpsExecuteNothing(st, id, map[], map[], now);
    case RequestOp(id, requests, now) => OpsExecuteNothing(st, id, requests, map[], now);
    case UpdateOp(id, responses, now) => OpsExecuteNothing(st, id, map[], responses, now);
    case ExecuteEnds(id, outcome) => RunsExecuteNothing(st, id, outcome);
    case RunEnds(id) => RunsExecuteNothing(st, id, Result(0));
    case SaveOk => SavesExecuteNothing(w);
    case SaveFails => SavesExecuteNothing(w);
    case CloseRequested =>
    case CloseOp => CloseExecutesNothing(st, 0, 0, true);
    case CloseNext(id, now) => CloseExecutesNothing(st, id, now, true);
    case ReleaseOk => CloseExecutesNothing(st, 0, 0, true);
    case ReleaseFails => CloseExecutesNothing(st, 0, 0, false);
    case Continue => ContinueExecutesNothing(st);
  }

  lemma ExecutedGrows(w: World, ev: Event)
    requires MemInv(w.store)
    ensures var st' := Exec(w, ev).store;
            st'.executed != w.store.executed ==>
              && ev.RunBegins? && st'.executed == w.store.executed + [ev.id]
              && ev.id in w.store.runs && w.store.runs[ev.id] == Registered
              && !w.store.closingRequested && ev.id !in w.store.executed
  {
    hide QueueInv;
    hide RunsInv;
    hide InputInv;
    hide AskedInv;
    hide ResolvedInv;
    if !ev.RunBegins? {
      OnlyRunsExecute(w, ev);
    }
  }

  lemma NotRunElsewhere(s: System, r: Name, x: Name, id: TaskId)
    requires Inv(s) && r in s.runtimes && x in s.runtimes && x != r && id in s.runtimes[r].store.runs
    ensures id !in s.runtimes[x].store.executed
  {
    assert MemoryInv(s, s.runtimes[x]);
    assert id in StartedIds(s.runtimes[r].store);
    assert forall k :: k in s.runtimes[x].store.executed ==> k in StartedIds(s.runtimes[x].store);
  }

  /** What a reopened runtime recovered is terminal on disk, and stays so while anyone works. */
  lemma RecoveredIsTerminal(s0: System, actions: seq<Action>, r: Name, id: TaskId)
    requires Init(s0)
    requires r in Run(s0, actions).runtimes && id in Run(s0, actions).runtimes[r].store.recovered
    ensures id in Run(s0, actions).disk && Terminal(Run(s0, actions).disk[id])
  {
    RunKeepsInv(s0, actions);
    assert MemoryInv(Run(s0, actions), Run(s0, actions).runtimes[r]);
  }

  /** Reopening leaves no unfinished record behind. */
  lemma ReopenFinishesEverything(s0: System, actions: seq<Action>, r: Name, limit: nat)
    requires Init(s0)
    ensures var s, s' := Run(s0, actions), Step(Run(s0, actions), EndRecovery(r, limit));
            s' != s ==>
              && s'.runtimes[r].store.recovered == s'.disk.Keys
              && (forall id :: id in s'.disk ==> Terminal(s'.disk[id]))
  {
    hide Step;
    hide Inv;
    RunKeepsInv(s0, actions);
    var s := Run(s0, actions);
    if Step(s, EndRecovery(r, limit)) != s {
      EndOfRecovery(s, r, limit);
    }
  }

  lemma EndOfRecovery(s: System, r: Name, limit: nat)
    requires Inv(s) && Step(s, EndRecovery(r, limit)) != s
    ensures var s' := Step(s, EndRecovery(r, limit));
            && r in s'.runtimes && s'.runtimes[r].store.recovered == s'.disk.Keys
            && (forall id :: id in s'.disk ==> Terminal(s'.disk[id]))
  {
    hide MemInv;
    hide StartedIds;
    hide DiskAgrees;
    hide Exec;
    hide ProcessAlive;
    assert MemoryInv(s, s.runtimes[r]) && OwnInv(s, r, s.runtimes[r]);
    assert RecoveryInv(s.runtimes[r].stage, s.disk);
  }

  /** Over all runtimes of a run, no task is asked for the same key twice. */
  lemma InputHistory(s0: System, actions: seq<Action>, a: Name, i: nat, b: Name, j: nat, key: Key)
    requires Init(s0) && a in Run(s0, actions).runtimes && b in Run(s0, actions).runtimes
    requires i < |Run(s0, actions).runtimes[a].store.asked| && j < |Run(s0, actions).runtimes[b].store.asked|
    requires Run(s0, actions).runtimes[a].store.asked[i].id == Run(s0, actions).runtimes[b].store.asked[j].id
    requires key in Run(s0, actions).runtimes[a].store.asked[i].keys
    requires key in Run(s0, actions).runtimes[b].store.asked[j].keys
    ensures a == b && i == j
  {
    hide QueueInv, RunsInv, InputInv, ResolvedInv, ExecutedInv;
    RunKeepsInv(s0, actions);
    var s := Run(s0, actions);
    assert MemoryInv(s, s.runtimes[a]) && MemoryInv(s, s.runtimes[b]);
    assert s.runtimes[a].store.asked[i].id in StartedIds(s.runtimes[a].store);
    assert s.runtimes[b].store.asked[j].id in StartedIds(s.runtimes[b].store);
  }

  /** A waiter is resolved with answers for exactly the keys of one request that was made. */
  lemma WaiterGetsItsAnswers(s0: System, actions: seq<Action>, r: Name, i: nat)
    requires Init(s0) && r in Run(s0, actions).runtimes && i < |Run(s0, actions).runtimes[r].store.resolved|
    ensures var st := Run(s0, actions).runtimes[r].store;
            st.resolved[i].answers.Keys == st.resolved[i].keys && Ask(st.resolved[i].id, st.resolved[i].keys) in st.asked
  {
    RunKeepsInv(s0, actions);
    assert MemoryInv(Run(s0, actions), Run(s0, actions).runtimes[r]);
  }

  // ---------- the guarantees are not empty ----------

  function OpenRun(r: Name, host: nat, pid: nat, limit: nat): seq<Action> {
    [Spawn(r, host, pid), Publish(r), ListPeers(r), EndScan(r), EndRecovery(r, limit)]
  }

  function TaskEvents(id: TaskId, now: nat, result: nat): seq<Event> {
    [StartOp(id, now), SaveOk, Continue, RunBegins(id), ExecuteEnds(id, Result(result)), SettleOp(id, now), SaveOk, Continue]
  }

  function Locals(r: Name, events: seq<Event>): seq<Action> {
    if events == [] then [] else Locals(r, events[..|events| - 1]) + [Local(r, events[|events| - 1])]
  }

  function ExecAll(w: World, events: seq<Event>): World {
    if events == [] then w else Exec(ExecAll(w, events[..|events| - 1]), events[|events| - 1])
  }

  lemma {:induction false} RunAppend(s0: System, a: seq<Action>, b: seq<Action>)
    ensures Run(s0, a + b) == Run(Run(s0, a), b)
  {
    if b == [] {
      assert a + b == a;
    } else {
      RunAppend(s0, a, b[..|b| - 1]);
      assert (a + b)[..|a + b| - 1] == a + b[..|b| - 1];
    }
  }

  lemma CanScan(s: System, r: Name, host: nat, pid: nat)
    requires s.leases == map[] && r !in s.names
    ensures var s' := Step(Step(Step(s, Spawn(r, host, pid)), Publish(r)), ListPeers(r));
            && s'.disk == s.disk && s'.drawn == s.drawn && r in s'.runtimes
            && s'.runtimes[r] == NewRuntime(host, pid).(stage := Scanning)
  {
    hide Exec, ProcessAlive;
    var s1 := Step(s, Spawn(r, host, pid));
    var s2 := Step(s1, Publish(r));
    assert s2.leases.Keys - {r} == {};
  }

  lemma CanRecover(s: System, r: Name, limit: nat)
    requires r in s.runtimes && s.runtimes[r].alive && s.runtimes[r].stage == Scanning && s.disk == map[]
    requires s.runtimes[r].done == s.runtimes[r].listing
    ensures var s' := Step(Step(s, EndScan(r)), EndRecovery(r, limit));
            && s'.disk == map[] && s'.drawn == s.drawn && r in s'.runtimes
            && s'.runtimes[r] == s.runtimes[r].(stage := Open, store := Opened(limit, map[]))
  {
    hide Exec, ProcessAlive;
    assert Step(s, EndScan(r)).runtimes[r].stage == Recovering({}, map[], None);
  }

  /** A directory without records or leases can be opened. */
  lemma CanOpen(s: System, r: Name, host: nat, pid: nat, limit: nat)
    requires s.disk == map[] && s.leases == map[] && r !in s.names
    ensures var s' := Run(s, OpenRun(r, host, pid, limit));
            && s'.disk == map[] && s'.drawn == s.drawn
            && r in s'.runtimes && Holds(s'.runtimes[r]) && s'.runtimes[r].stage == Open
            && s'.runtimes[r].store == Opened(limit, map[])
  {
    hide Run, Step;
    var a := OpenRun(r, host, pid, limit);
    RunStart(s);
    forall k | 0 <= k < |a| ensures Run(s, a[..k + 1]) == Step(Run(s, a[..k]), a[k]) {
      assert a[..k + 1] == a[..k] + [a[k]];
      RunOneMore(s, a[..k], a[k]);
    }
    assert a[..0] == [] && a[..5] == a;
    CanScan(s, r, host, pid);
    assert Run(s, a[..1]) == Step(s, a[0]);
    assert Run(s, a[..2]) == Step(Run(s, a[..1]), a[1]);
    assert Run(s, a[..3]) == Step(Run(s, a[..2]), a[2]);
    CanRecover(Run(s, a[..3]), r, limit);
    assert Run(s, a[..4]) == Step(Run(s, a[..3]), a[3]);
  }

  lemma RunStart(s: System)
    ensures Run(s, []) == s
  {
  }

  /** The local events of the holder, seen alone. */
  lemma {:induction false} LocalsAreExec(s: System, r: Name, events: seq<Event>)
    requires r in s.runtimes && s.runtimes[r].alive && s.runtimes[r].stage == Open
    requires forall i :: 1 <= i < |events| ==> !events[i].StartOp?
    requires events != [] && events[0].StartOp? ==> events[0].id !in s.drawn
    ensures var s', w := Run(s, Locals(r, events)), ExecAll(World(s.runtimes[r].store, s.disk), events);
            && r in s'.runtimes && s'.runtimes[r] == s.runtimes[r].(store := w.store) && s'.disk == w.disk
            && (events == [] ==> s' == s)
  {
    hide Exec;
    hide ProcessAlive;
    if events != [] {
      var init := events[..|events| - 1];
      LocalsAreExec(s, r, init);
      RunOneMore(s, Locals(r, init), Local(r, events[|events| - 1]));
    }
  }

  /** A store that has only ever seen one task, in the given phase. */
  function OneTask(limit: nat, id: TaskId, record: Record, phase: Phase, ran: bool): Store {
    Store(limit, map[id := record], map[id := Active(false, {}, None)], map[id := phase], {},
          false, false, false, false, Idle, if ran then [id] else [], [], [])
  }

  lemma CanStart(limit: nat, id: TaskId, now: nat)
    requires limit > 0
    ensures var record := Record(now, now, NoNote, Working);
            Exec(Exec(Exec(World(Opened(limit, map[]), map[]), StartOp(id, now)), SaveOk), Continue)
              == World(OneTask(limit, id, record, Registered, false), map[id := record])
  {
  }

  lemma CanRun(limit: nat, disk: Disk, id: TaskId, record: Record, result: nat)
    ensures Exec(Exec(World(OneTask(limit, id, record, Registered, false), disk), RunBegins(id)), ExecuteEnds(id, Result(result)))
              == World(OneTask(limit, id, record, Settling(Result(result)), true), disk)
  {
  }

  lemma CanSettle(limit: nat, id: TaskId, record: Record, now: nat, result: nat)
    requires !Terminal(record)
    ensures var settled := record.(updatedAt := now, note := NoNote, status := Completed(result));
            var w := World(OneTask(limit, id, record, Settling(Result(result)), true), map[id := record]);
            Exec(Exec(Exec(w, SettleOp(id, now)), SaveOk), Continue)
              == World(OneTask(limit, id, settled, Settled, true), map[id := settled])
  {
  }

  /** A started task, saved, run and settled, is on disk with its result. */
  lemma CanFinish(limit: nat, id: TaskId, now: nat, result: nat)
    requires limit > 0
    ensures var done := Record(now, now, NoNote, Completed(result));
            ExecAll(World(Opened(limit, map[]), map[]), TaskEvents(id, now, result))
              == World(OneTask(limit, id, done, Settled, true), map[id := done])
  {
    hide ExecAll, Exec, OneTask;
    var e, w0, record := TaskEvents(id, now, result), World(Opened(limit, map[]), map[]), Record(now, now, NoNote, Working);
    ExecStart(w0);
    forall k | 0 <= k < |e| ensures ExecAll(w0, e[..k + 1]) == Exec(ExecAll(w0, e[..k]), e[k]) {
      assert e[..k + 1] == e[..k] + [e[k]];
      ExecOneMore(w0, e[..k], e[k]);
    }
    assert e[..0] == [] && e[..8] == e;
    CanStart(limit, id, now);
    assert ExecAll(w0, e[..3]) == Exec(ExecAll(w0, e[..2]), e[2]);
    assert ExecAll(w0, e[..2]) == Exec(ExecAll(w0, e[..1]), e[1]);
    CanRun(limit, map[id := record], id, record, result);
    assert ExecAll(w0, e[..5]) == Exec(ExecAll(w0, e[..4]), e[4]);
    assert ExecAll(w0, e[..4]) == Exec(ExecAll(w0, e[..3]), e[3]);
    CanSettle(limit, id, record, now, result);
    assert ExecAll(w0, e[..7]) == Exec(ExecAll(w0, e[..6]), e[6]);
    assert ExecAll(w0, e[..6]) == Exec(ExecAll(w0, e[..5]), e[5]);
  }

  lemma ExecStart(w: World)
    ensures ExecAll(w, []) == w
  {
  }

  lemma ExecOneMore(w: World, events: seq<Event>, ev: Event)
    ensures ExecAll(w, events + [ev]) == Exec(ExecAll(w, events), ev)
  {
    assert (events + [ev])[..|events|] == events;
  }

  /** Any task can be started, run once and completed by a runtime that opens an empty directory. */
  lemma TasksCanComplete(s: System, r: Name, host: nat, pid: nat, limit: nat, id: TaskId, now: nat, result: nat)
    requires Init(s) && s.disk == map[] && s.leases == map[] && r !in s.names && id !in s.drawn && limit > 0
    ensures var s' := Run(s, OpenRun(r, host, pid, limit) + Locals(r, TaskEvents(id, now, result)));
            && s'.disk == map[id := Record(now, now, NoNote, Completed(result))]
            && r in s'.runtimes && Holds(s'.runtimes[r]) && s'.runtimes[r].store.executed == [id]
  {
    hide Run, Step, Exec, ExecAll;
    CanOpen(s, r, host, pid, limit);
    var ready := Run(s, OpenRun(r, host, pid, limit));
    RunAppend(s, OpenRun(r, host, pid, limit), Locals(r, TaskEvents(id, now, result)));
    LocalsAreExec(ready, r, TaskEvents(id, now, result));
    CanFinish(limit, id, now, result);
  }
}
