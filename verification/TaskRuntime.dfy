/**
 One runtime of the persistent task store (packages/mcp/src/tasks.ts): its records,
 its active tasks, and the serial queue through which every record is written.

 Each stretch of code between two awaits is one event. A save is two events, the
 atomic rename that changes the disk and the continuation that updates memory, so
 that unserialized code and crashes can fall between them. `Exec` gives the effect
 of every event; an event that is not enabled changes nothing.
 */
module TaskRuntime {
  import opened Options

  type TaskId = nat
  type Key = string

  datatype Note = NoNote | CancellationRequested | CancelledNote | InterruptedNote | ExecutionFailed

  datatype RequestKind = Elicitation | Sampling | Roots

  type Requests = map<Key, RequestKind>

  /** A client's answer: `fits` holds the request kinds whose result schema accepts it. */
  datatype Response = Response(fits: set<RequestKind>, value: nat)

  datatype Status =
    | Working
    | InputRequired(requests: Requests)
    | Completed(result: nat)
    | Failed(code: int)
    | Cancelled

  datatype Record = Record(createdAt: nat, updatedAt: nat, note: Note, status: Status)

  type Disk = map<TaskId, Record>

  predicate Terminal(r: Record) {
    r.status.Completed? || r.status.Failed? || r.status.Cancelled?
  }

  /** What a task lost to a crash or a close is recorded as; work is never replayed. */
  function Interrupted(r: Record, now: nat): Record {
    r.(updatedAt := now, note := InterruptedNote, status := Failed(-32603))
  }

  datatype Pending = Pending(requested: set<Key>, outstanding: Requests, responses: map<Key, nat>, rejected: bool)

  datatype Active = Active(aborted: bool, used: set<Key>, input: Option<Pending>)

  datatype Outcome = Result(value: nat) | Error(code: int)

  /** Where a task's `run` stands. */
  datatype Phase = Registered | Skipped | Executing | Settling(outcome: Outcome) | Settled | Ended

  datatype Job =
    | StartJob
    | SettleJob
    | RequestJob(requests: Requests)
    | UpdateJob(accepted: map<Key, nat>, left: Requests)
    | CancelJob
    | CloseJob(todo: set<TaskId>)

  /** The serial queue's current operation and the await it is suspended on. */
  datatype Queue =
    | Idle
    | Saving(job: Job, id: TaskId, record: Record)
    | Saved(job: Job, id: TaskId, record: Record)
    | CloseLoop(todo: set<TaskId>)

  datatype Ask = Ask(id: TaskId, keys: set<Key>)

  datatype Resolution = Resolution(id: TaskId, keys: set<Key>, answers: map<Key, nat>)

  datatype Store = Store(
    limit: nat,
    records: map<TaskId, Record>,
    active: map<TaskId, Active>,
    runs: map<TaskId, Phase>,
    recovered: set<TaskId>,
    closed: bool,
    closingRequested: bool,
    leaseReleased: bool,
    broken: bool,
    queue: Queue,
    executed: seq<TaskId>,
    asked: seq<Ask>,
    resolved: seq<Resolution>)

  datatype World = World(store: Store, disk: Disk)

  datatype Event =
    | StartOp(id: TaskId, now: nat)
    | RunBegins(id: TaskId)
    | ExecuteEnds(id: TaskId, outcome: Outcome)
    | SettleOp(id: TaskId, now: nat)
    | RunEnds(id: TaskId)
    | RequestOp(id: TaskId, requests: Requests, now: nat)
    | UpdateOp(id: TaskId, responses: map<Key, Response>, now: nat)
    | CancelOp(id: TaskId, now: nat)
    | CloseRequested
    | CloseOp
    | CloseNext(id: TaskId, now: nat)
    | ReleaseOk
    | ReleaseFails
    | SaveOk
    | SaveFails
    | Continue

  /** A store whose recovery loaded `records`; nothing runs yet. */
  function Opened(limit: nat, records: map<TaskId, Record>): Store {
    Store(limit, records, map[], map[], records.Keys, false, false, false, false, Idle, [], [], [])
  }

  // ---------- serial operations ----------

  function StartStep(st: Store, id: TaskId, now: nat): Store {
    if st.queue != Idle || st.closed || st.broken || |st.active| >= st.limit then st
    else st.(queue := Saving(StartJob, id, Record(now, now, NoNote, Working)))
  }

  function SettleRecord(r: Record, aborted: bool, outcome: Outcome, now: nat): Record {
    match outcome
    case Result(v) => r.(updatedAt := now, note := NoNote, status := Completed(v))
    case Error(code) =>
      if aborted then r.(updatedAt := now, note := CancelledNote, status := Cancelled)
      else r.(updatedAt := now, note := ExecutionFailed, status := Failed(code))
  }

  function SettleStep(st: Store, id: TaskId, now: nat): Store {
    if st.queue != Idle || id !in st.runs || !st.runs[id].Settling? then st
    else if st.closed || st.broken || id !in st.records || Terminal(st.records[id]) then
      st.(runs := st.runs[id := Settled])
    else
      var aborted := id in st.active && st.active[id].aborted;
      st.(queue := Saving(SettleJob, id, SettleRecord(st.records[id], aborted, st.runs[id].outcome, now)))
  }

  /** Only a callback that was begun has the means to ask. */
  predicate MayAsk(st: Store, id: TaskId, requests: Requests) {
    && id in st.active && !st.active[id].aborted && !st.closed && !st.broken
    && id in st.runs && Ran(st.runs[id])
    && id in st.records && !Terminal(st.records[id])
    && st.active[id].input.None?
    && requests.Keys != {} && requests.Keys !! st.active[id].used
  }

  function RequestStep(st: Store, id: TaskId, requests: Requests, now: nat): Store {
    if st.queue != Idle || !MayAsk(st, id, requests) then st
    else
      var record := st.records[id].(updatedAt := now, status := InputRequired(requests));
      st.(queue := Saving(RequestJob(requests), id, record))
  }

  /** The answers `update` takes: those for outstanding keys. */
  function Accepted(outstanding: Requests, responses: map<Key, Response>): map<Key, nat> {
    map k | k in responses && k in outstanding :: responses[k].value
  }

  predicate AllFit(outstanding: Requests, responses: map<Key, Response>) {
    forall k :: k in responses && k in outstanding ==> outstanding[k] in responses[k].fits
  }

  function UpdateStep(st: Store, id: TaskId, responses: map<Key, Response>, now: nat): Store {
    if st.queue != Idle || st.closed || st.broken || id !in st.records then st
    else if !st.records[id].status.InputRequired? || id !in st.active || st.active[id].input.None? then st
    else
      var outstanding := st.active[id].input.value.outstanding;
      var accepted := Accepted(outstanding, responses);
      if !AllFit(outstanding, responses) || accepted.Keys == {} then st
      else
        var left := outstanding - accepted.Keys;
        var status := if left.Keys == {} then Working else InputRequired(left);
        st.(queue := Saving(UpdateJob(accepted, left), id, st.records[id].(updatedAt := now, status := status)))
  }

  function CancelStep(st: Store, id: TaskId, now: nat): Store {
    if st.queue != Idle || st.closed || st.broken || id !in st.records then st
    else if Terminal(st.records[id]) || id !in st.active then st
    else st.(queue := Saving(CancelJob, id, st.records[id].(updatedAt := now, note := CancellationRequested)))
  }

  function Rejected(a: Active): Active {
    a.(aborted := true, input := if a.input.Some? then Some(a.input.value.(rejected := true)) else None)
  }

  function CloseStep(st: Store): Store {
    if st.queue != Idle || !st.closingRequested || st.leaseReleased then st
    else
      st.(closed := true,
          active := map id | id in st.active :: Rejected(st.active[id]),
          queue := CloseLoop(st.active.Keys))
  }

  function CloseNextStep(st: Store, id: TaskId, now: nat): Store {
    if !st.queue.CloseLoop? || id !in st.queue.todo then st
    else
      var todo := st.queue.todo - {id};
      if id !in st.records || Terminal(st.records[id]) then st.(queue := CloseLoop(todo))
      else st.(queue := Saving(CloseJob(todo), id, Interrupted(st.records[id], now)))
  }

  function ReleaseStep(st: Store, ok: bool): Store {
    if !st.queue.CloseLoop? || st.queue.todo != {} then st
    else if ok then st.(leaseReleased := true, active := map[], queue := Idle)
    else st.(queue := Idle)
  }

  // ---------- the save inside an operation, and what follows it ----------

  function SaveStep(w: World): World {
    if !w.store.queue.Saving? then w
    else
      var q := w.store.queue;
      World(w.store.(queue := Saved(q.job, q.id, q.record)), w.disk[q.id := q.record])
  }

  function SaveFailsStep(st: Store): Store {
    if !st.queue.Saving? then st
    else
      var q := st.queue;
      match q.job
      case CloseJob(todo) => st.(broken := true, queue := CloseLoop(todo))
      case SettleJob => st.(broken := true, queue := Idle, runs := st.runs[q.id := Settled])
      case _ => st.(broken := true, queue := Idle)
  }

  function AskUser(st: Store, id: TaskId, requests: Requests): Store {
    if id !in st.active then st
    else
      var a := st.active[id];
      var p := Pending(requests.Keys, requests, map[], false);
      st.(active := st.active[id := Active(a.aborted, a.used + requests.Keys, Some(p))],
          asked := st.asked + [Ask(id, requests.Keys)])
  }

  function Answer(st: Store, id: TaskId, accepted: map<Key, nat>, left: Requests): Store {
    if id !in st.active || st.active[id].input.None? then st
    else
      var a := st.active[id];
      var p := a.input.value.(responses := a.input.value.responses + accepted, outstanding := left);
      if left.Keys != {} then st.(active := st.active[id := a.(input := Some(p))])
      else
        st.(active := st.active[id := a.(input := None)],
            resolved := if p.rejected then st.resolved
                        else st.resolved + [Resolution(id, p.requested, p.responses)])
  }

  function Abort(st: Store, id: TaskId): Store {
    if id !in st.active then st else st.(active := st.active[id := Rejected(st.active[id])])
  }

  function ContinueStep(st: Store): Store {
    if !st.queue.Saved? then st
    else
      var q := st.queue;
      AfterSave(st.(records := st.records[q.id := q.record], queue := Idle), q.job, q.id)
  }

  /** The rest of an operation, once its record is both on disk and in memory. */
  function AfterSave(st: Store, job: Job, id: TaskId): Store {
    match job
    case StartJob => st.(active := st.active[id := Active(false, {}, None)], runs := st.runs[id := Registered])
    case SettleJob => st.(runs := st.runs[id := Settled])
    case RequestJob(requests) => AskUser(st, id, requests)
    case UpdateJob(accepted, left) => Answer(st, id, accepted, left)
    case CancelJob => Abort(st, id)
    case CloseJob(todo) => st.(queue := CloseLoop(todo))
  }

  // ---------- code outside the queue ----------

  function RunBeginsStep(st: Store, id: TaskId): Store {
    if id !in st.runs || st.runs[id] != Registered then st
    else if st.closingRequested then st.(runs := st.runs[id := Skipped])
    else if st.broken || id !in st.active || st.active[id].aborted then
      st.(runs := st.runs[id := Settling(Error(-32603))])
    else st.(runs := st.runs[id := Executing], executed := st.executed + [id])
  }

  function ExecuteEndsStep(st: Store, id: TaskId, outcome: Outcome): Store {
    if id !in st.runs || st.runs[id] != Executing then st
    else st.(runs := st.runs[id := Settling(outcome)])
  }

  function RunEndsStep(st: Store, id: TaskId): Store {
    if id !in st.runs || st.runs[id] != Settled then st
    else st.(runs := st.runs[id := Ended], active := st.active - {id})
  }

  function Exec(w: World, ev: Event): World {
    match ev
    case SaveOk => SaveStep(w)
    case StartOp(id, now) => w.(store := StartStep(w.store, id, now))
    case RunBegins(id) => w.(store := RunBeginsStep(w.store, id))
    case ExecuteEnds(id, outcome) => w.(store := ExecuteEndsStep(w.store, id, outcome))
    case SettleOp(id, now) => w.(store := SettleStep(w.store, id, now))
    case RunEnds(id) => w.(store := RunEndsStep(w.store, id))
    case RequestOp(id, requests, now) => w.(store := RequestStep(w.store, id, requests, now))
    case UpdateOp(id, responses, now) => w.(store := UpdateStep(w.store, id, responses, now))
    case CancelOp(id, now) => w.(store := CancelStep(w.store, id, now))
    case CloseRequested => w.(store := w.store.(closingRequested := true))
    case CloseOp => w.(store := CloseStep(w.store))
    case CloseNext(id, now) => w.(store := CloseNextStep(w.store, id, now))
    case ReleaseOk => w.(store := ReleaseStep(w.store, true))
    case ReleaseFails => w.(store := ReleaseStep(w.store, false))
    case SaveFails => w.(store := SaveFailsStep(w.store))
    case Continue => w.(store := ContinueStep(w.store))
  }

  // ---------- invariants ----------

  /** What an operation checked before it suspended still holds when it resumes. */
  ghost predicate JobInv(job: Job, id: TaskId, record: Record,
                         records: map<TaskId, Record>, runs: map<TaskId, Phase>, active: map<TaskId, Active>)
  {
    match job
    case StartJob => id !in records && id !in runs && record.status == Working
    case SettleJob =>
      id in records && !Terminal(records[id]) && id in runs && runs[id].Settling? && Terminal(record)
    case RequestJob(requests) =>
      && id in records && !Terminal(records[id])
      && record.status == InputRequired(requests) && requests.Keys != {}
      && (id in active ==> active[id].input.None? && requests.Keys !! active[id].used)
    case UpdateJob(accepted, left) =>
      && id in records && !Terminal(records[id])
      && record.status == (if left.Keys == {} then Working else InputRequired(left))
      && (id in active ==>
            && active[id].input.Some?
            && accepted.Keys !! left.Keys
            && accepted.Keys + left.Keys == active[id].input.value.outstanding.Keys)
    case CancelJob => id in records && !Terminal(records[id]) && record.status == records[id].status
    case CloseJob(_) => id in records && !Terminal(records[id]) && Terminal(record)
  }

  ghost predicate QueueInv(st: Store) {
    match st.queue
    case Idle => st.leaseReleased ==> st.closed
    case CloseLoop(_) => st.closed && !st.leaseReleased
    case Saving(job, id, record) =>
      !st.leaseReleased && (job.CloseJob? ==> st.closed) && JobInv(job, id, record, st.records, st.runs, st.active)
    case Saved(job, id, record) =>
      !st.leaseReleased && (job.CloseJob? ==> st.closed) && JobInv(job, id, record, st.records, st.runs, st.active)
  }

  predicate Ran(p: Phase) {
    p.Executing? || p.Settling? || p.Settled? || p.Ended?
  }

  /** Tasks that run were started here, each at most once, and none was recovered. */
  ghost predicate RunsInv(active: map<TaskId, Active>, runs: map<TaskId, Phase>,
                          records: map<TaskId, Record>, recovered: set<TaskId>)
  {
    && active.Keys <= runs.Keys <= records.Keys
    && recovered <= records.Keys && recovered !! runs.Keys
    && (forall id :: id in recovered ==> Terminal(records[id]))
  }

  ghost predicate ExecutedInv(executed: seq<TaskId>, runs: map<TaskId, Phase>) {
    && (forall i, j :: 0 <= i < j < |executed| ==> executed[i] != executed[j])
    && (forall i :: 0 <= i < |executed| ==> executed[i] in runs && Ran(runs[executed[i]]))
  }

  /** Answered and outstanding keys split the requested ones, and memory agrees with the record. */
  ghost predicate ExchangeInv(a: Active, r: Record) {
    && (a.input.Some? ==>
          && a.input.value.requested == a.input.value.outstanding.Keys + a.input.value.responses.Keys
          && a.input.value.outstanding.Keys !! a.input.value.responses.Keys
          && a.input.value.outstanding.Keys != {}
          && a.input.value.requested <= a.used)
    && (!Terminal(r) ==> (a.input.Some? <==> r.status.InputRequired?))
    && (!Terminal(r) && a.input.Some? ==> r.status.requests == a.input.value.outstanding)
  }

  ghost predicate InputInv(active: map<TaskId, Active>, records: map<TaskId, Record>) {
    forall id :: id in active && id in records ==> ExchangeInv(active[id], records[id])
  }

  /** No key is asked for twice in a task's lifetime. */
  ghost predicate AskedInv(asked: seq<Ask>, active: map<TaskId, Active>, runs: map<TaskId, Phase>) {
    && (forall i :: 0 <= i < |asked| ==> asked[i].id in runs)
    && (forall i :: 0 <= i < |asked| && asked[i].id in active ==> asked[i].keys <= active[asked[i].id].used)
    && (forall i, j :: 0 <= i < j < |asked| && asked[i].id == asked[j].id ==> asked[i].keys !! asked[j].keys)
    && (forall id :: id in active && active[id].input.Some? ==>
          Ask(id, active[id].input.value.requested) in asked)
  }

  /** A waiter is resolved with answers for exactly the keys it asked for. */
  ghost predicate ResolvedInv(resolved: seq<Resolution>, asked: seq<Ask>) {
    forall i :: 0 <= i < |resolved| ==>
      && resolved[i].answers.Keys == resolved[i].keys
      && Ask(resolved[i].id, resolved[i].keys) in asked
  }

  ghost predicate MemInv(st: Store) {
    && QueueInv(st)
    && (st.closed ==> st.closingRequested)
    && RunsInv(st.active, st.runs, st.records, st.recovered)
    && ExecutedInv(st.executed, st.runs)
    && InputInv(st.active, st.records)
    && AskedInv(st.asked, st.active, st.runs)
    && ResolvedInv(st.resolved, st.asked)
  }

  /** While the lease is held, the disk is the memory plus the save not yet continued. */
  ghost predicate DiskAgrees(st: Store, disk: Disk) {
    disk == if st.queue.Saved? then st.records[st.queue.id := st.queue.record] else st.records
  }

  /** A started task's UUID was never drawn before. */
  ghost predicate FreshFor(st: Store, ev: Event) {
    ev.StartOp? ==> ev.id !in st.records && ev.id !in st.runs
  }

  // ---------- every event keeps the invariants ----------

  lemma StartKeepsInv(st: Store, id: TaskId, now: nat)
    requires MemInv(st) && id !in st.records && id !in st.runs
    ensures MemInv(StartStep(st, id, now))
  {
  }

  /** Moving one task's run to another phase, with no settle suspended on it. */
  lemma PhaseKeepsInv(st: Store, id: TaskId, p: Phase)
    requires MemInv(st) && id in st.runs && (Ran(st.runs[id]) ==> Ran(p))
    requires st.queue == Idle || !st.runs[id].Settling?
    ensures MemInv(st.(runs := st.runs[id := p]))
  {
    var runs := st.runs[id := p];
    assert RunsInv(st.active, runs, st.records, st.recovered);
    assert ExecutedInv(st.executed, runs);
    assert AskedInv(st.asked, st.active, runs);
  }

  lemma SettleKeepsInv(st: Store, id: TaskId, now: nat)
    requires MemInv(st)
    ensures MemInv(SettleStep(st, id, now))
  {
    if st.queue == Idle && id in st.runs && st.runs[id].Settling? {
      PhaseKeepsInv(st, id, Settled);
    }
  }

  lemma RequestKeepsInv(st: Store, id: TaskId, requests: Requests, now: nat)
    requires MemInv(st)
    ensures MemInv(RequestStep(st, id, requests, now))
  {
  }

  lemma UpdateKeepsInv(st: Store, id: TaskId, responses: map<Key, Response>, now: nat)
    requires MemInv(st)
    ensures MemInv(UpdateStep(st, id, responses, now))
  {
  }

  lemma CancelKeepsInv(st: Store, id: TaskId, now: nat)
    requires MemInv(st)
    ensures MemInv(CancelStep(st, id, now))
  {
  }

  lemma CloseKeepsInv(st: Store)
    requires MemInv(st)
    ensures MemInv(CloseStep(st))
  {
  }

  lemma CloseNextKeepsInv(st: Store, id: TaskId, now: nat)
    requires MemInv(st)
    ensures MemInv(CloseNextStep(st, id, now))
  {
  }

  lemma ReleaseKeepsInv(st: Store, ok: bool)
    requires MemInv(st)
    ensures MemInv(ReleaseStep(st, ok))
  {
  }

  lemma RunBeginsKeepsInv(st: Store, id: TaskId)
    requires MemInv(st)
    ensures MemInv(RunBeginsStep(st, id))
  {
    if id in st.runs && st.runs[id] == Registered {
      PhaseKeepsInv(st, id, Skipped);
      PhaseKeepsInv(st, id, Settling(Error(-32603)));
      PhaseKeepsInv(st, id, Executing);
      assert ExecutedInv(st.executed + [id], st.runs[id := Executing]);
    }
  }

  lemma ExecuteEndsKeepsInv(st: Store, id: TaskId, outcome: Outcome)
    requires MemInv(st)
    ensures MemInv(ExecuteEndsStep(st, id, outcome))
  {
    if id in st.runs && st.runs[id] == Executing {
      PhaseKeepsInv(st, id, Settling(outcome));
    }
  }

  lemma DropActiveKeepsInv(st: Store, id: TaskId)
    requires MemInv(st)
    ensures MemInv(st.(active := st.active - {id}))
  {
    var active := st.active - {id};
    assert RunsInv(active, st.runs, st.records, st.recovered);
    assert InputInv(active, st.records);
    assert AskedInv(st.asked, active, st.runs);
  }

  lemma RunEndsKeepsInv(st: Store, id: TaskId)
    requires MemInv(st)
    ensures MemInv(RunEndsStep(st, id))
  {
    if id in st.runs && st.runs[id] == Settled {
      PhaseKeepsInv(st, id, Ended);
      DropActiveKeepsInv(st.(runs := st.runs[id := Ended]), id);
    }
  }

  lemma SaveKeepsInv(w: World)
    requires MemInv(w.store)
    ensures MemInv(SaveStep(w).store)
  {
  }

  lemma SaveFailsKeepsInv(st: Store)
    requires MemInv(st)
    ensures MemInv(SaveFailsStep(st))
  {
    if st.queue.Saving? && st.queue.job.SettleJob? {
      PhaseKeepsInv(st.(broken := true, queue := Idle), st.queue.id, Settled);
    }
  }

  /** Replacing an active task and its unfinished record by a balanced pair. */
  lemma ReplaceKeepsInv(st: Store, id: TaskId, a: Active, r: Record)
    requires RunsInv(st.active, st.runs, st.records, st.recovered) && InputInv(st.active, st.records)
    requires id in st.active && id in st.records && !Terminal(st.records[id]) && ExchangeInv(a, r)
    ensures RunsInv(st.active[id := a], st.runs, st.records[id := r], st.recovered)
    ensures InputInv(st.active[id := a], st.records[id := r])
  {
  }

  lemma ContinueStartKeepsInv(st: Store)
    requires MemInv(st) && st.queue.Saved? && st.queue.job.StartJob?
    ensures MemInv(ContinueStep(st))
  {
  }

  lemma ContinueEndKeepsInv(st: Store)
    requires MemInv(st) && st.queue.Saved? && (st.queue.job.SettleJob? || st.queue.job.CloseJob?)
    ensures MemInv(ContinueStep(st))
  {
  }

  lemma ContinueCancelKeepsInv(st: Store)
    requires MemInv(st) && st.queue.Saved? && st.queue.job.CancelJob?
    ensures MemInv(ContinueStep(st))
  {
    var q := st.queue;
    if q.id in st.active {
      ReplaceKeepsInv(st, q.id, Rejected(st.active[q.id]), q.record);
    }
  }

  lemma AskKeepsAsked(asked: seq<Ask>, active: map<TaskId, Active>, runs: map<TaskId, Phase>, id: TaskId, a: Active)
    requires AskedInv(asked, active, runs) && id in active && id in runs && a.input.Some?
    requires a.input.value.requested !! active[id].used && a.used == active[id].used + a.input.value.requested
    ensures AskedInv(asked + [Ask(id, a.input.value.requested)], active[id := a], runs)
  {
    var asked', active' := asked + [Ask(id, a.input.value.requested)], active[id := a];
    assert asked'[|asked|] == Ask(id, a.input.value.requested);
    forall k | k in active' && active'[k].input.Some?
      ensures Ask(k, active'[k].input.value.requested) in asked'
    {
      assert k != id ==> Ask(k, active[k].input.value.requested) in asked;
    }
  }

  lemma ContinueRequestKeepsInv(st: Store)
    requires MemInv(st) && st.queue.Saved? && st.queue.job.RequestJob?
    ensures MemInv(ContinueStep(st))
  {
    hide AskedInv;
    var q, st' := st.queue, ContinueStep(st);
    if q.id in st.active {
      AskKeepsAsked(st.asked, st.active, st.runs, q.id, st'.active[q.id]);
      ReplaceKeepsInv(st, q.id, st'.active[q.id], q.record);
      assert ResolvedInv(st'.resolved, st'.asked);
    }
  }

  /** An answer leaves the exchange balanced, and the last one hands over every requested key. */
  lemma AnswerKeepsExchange(a: Active, r: Record, r': Record, accepted: map<Key, nat>, left: Requests)
    requires ExchangeInv(a, r) && !Terminal(r) && a.input.Some?
    requires accepted.Keys !! left.Keys && accepted.Keys + left.Keys == a.input.value.outstanding.Keys
    requires r'.status == (if left.Keys == {} then Working else InputRequired(left))
    ensures var p := a.input.value.(responses := a.input.value.responses + accepted, outstanding := left);
            && (left.Keys == {} ==> p.responses.Keys == p.requested && ExchangeInv(a.(input := None), r'))
            && (left.Keys != {} ==> ExchangeInv(a.(input := Some(p)), r'))
  {
  }

  lemma AnswerKeepsAsked(asked: seq<Ask>, active: map<TaskId, Active>, runs: map<TaskId, Phase>, id: TaskId, a: Active)
    requires AskedInv(asked, active, runs) && id in active && active[id].input.Some?
    requires a.used == active[id].used
    requires a.input.Some? ==> a.input.value.requested == active[id].input.value.requested
    ensures AskedInv(asked, active[id := a], runs)
    ensures Ask(id, active[id].input.value.requested) in asked
  {
  }

  lemma PartialAnswerKeepsInv(st: Store)
    requires MemInv(st) && st.queue.Saved? && st.queue.job.UpdateJob? && st.queue.job.left.Keys != {}
    ensures MemInv(ContinueStep(st))
  {
    var q, st' := st.queue, ContinueStep(st);
    if q.id in st.active {
      AnswerKeepsExchange(st.active[q.id], st.records[q.id], q.record, q.job.accepted, q.job.left);
      AnswerKeepsAsked(st.asked, st.active, st.runs, q.id, st'.active[q.id]);
      ReplaceKeepsInv(st, q.id, st'.active[q.id], q.record);
    }
  }

  lemma LastAnswerKeepsInv(st: Store)
    requires MemInv(st) && st.queue.Saved? && st.queue.job.UpdateJob? && st.queue.job.left.Keys == {}
    ensures MemInv(ContinueStep(st))
  {
    var q, st' := st.queue, ContinueStep(st);
    if q.id in st.active {
      AnswerKeepsExchange(st.active[q.id], st.records[q.id], q.record, q.job.accepted, q.job.left);
      AnswerKeepsAsked(st.asked, st.active, st.runs, q.id, st'.active[q.id]);
      ReplaceKeepsInv(st, q.id, st'.active[q.id], q.record);
    }
  }

  lemma ExecKeepsInv(w: World, ev: Event)
    requires MemInv(w.store) && FreshFor(w.store, ev)
    ensures MemInv(Exec(w, ev).store)
  {
    hide RunsInv, InputInv, AskedInv, ResolvedInv, ExecutedInv;
    match ev
    case SaveOk => SaveKeepsInv(w);
    case StartOp(id, now) => StartKeepsInv(w.store, id, now);
    case RunBegins(id) => RunBeginsKeepsInv(w.store, id);
    case ExecuteEnds(id, outcome) => ExecuteEndsKeepsInv(w.store, id, outcome);
    case SettleOp(id, now) => SettleKeepsInv(w.store, id, now);
    case RunEnds(id) => RunEndsKeepsInv(w.store, id);
    case RequestOp(id, requests, now) => RequestKeepsInv(w.store, id, requests, now);
    case UpdateOp(id, responses, now) => UpdateKeepsInv(w.store, id, responses, now);
    case CancelOp(id, now) => CancelKeepsInv(w.store, id, now);
    case CloseRequested =>
    case CloseOp => CloseKeepsInv(w.store);
    case CloseNext(id, now) => CloseNextKeepsInv(w.store, id, now);
    case ReleaseOk => ReleaseKeepsInv(w.store, true);
    case ReleaseFails => ReleaseKeepsInv(w.store, false);
    case SaveFails => SaveFailsKeepsInv(w.store);
    case Continue =>
      if w.store.queue.Saved? {
        match w.store.queue.job
        case StartJob => ContinueStartKeepsInv(w.store);
        case SettleJob => ContinueEndKeepsInv(w.store);
        case CloseJob(_) => ContinueEndKeepsInv(w.store);
        case CancelJob => ContinueCancelKeepsInv(w.store);
        case RequestJob(_) => ContinueRequestKeepsInv(w.store);
        case UpdateJob(_, left) =>
          if left.Keys == {} {
            LastAnswerKeepsInv(w.store);
          } else {
            PartialAnswerKeepsInv(w.store);
          }
      }
  }

  /** Memory keeps its records and an unfinished save stays unfinished. */
  ghost predicate RecordsKept(st: Store, st': Store) {
    && st'.records == st.records
    && (st.queue.Saved? ==> st'.queue == st.queue)
    && (!st.queue.Saved? ==> !st'.queue.Saved?)
  }

  lemma OpsKeepRecords(st: Store, id: TaskId, requests: Requests, responses: map<Key, Response>, now: nat)
    ensures RecordsKept(st, StartStep(st, id, now)) && RecordsKept(st, SettleStep(st, id, now))
    ensures RecordsKept(st, RequestStep(st, id, requests, now)) && RecordsKept(st, CancelStep(st, id, now))
    ensures RecordsKept(st, UpdateStep(st, id, responses, now))
  {
  }

  lemma RunsKeepRecords(st: Store, id: TaskId, outcome: Outcome)
    ensures RecordsKept(st, RunBeginsStep(st, id)) && RecordsKept(st, ExecuteEndsStep(st, id, outcome))
    ensures RecordsKept(st, RunEndsStep(st, id)) && RecordsKept(st, SaveFailsStep(st))
  {
  }

  lemma CloseKeepsRecords(st: Store, id: TaskId, now: nat, ok: bool)
    ensures RecordsKept(st, CloseStep(st)) && RecordsKept(st, ReleaseStep(st, ok))
    ensures RecordsKept(st, CloseNextStep(st, id, now))
  {
  }

  lemma {:induction false} QuietEventsKeepRecords(w: World, ev: Event)
    requires !ev.SaveOk? && !ev.Continue?
    ensures Exec(w, ev).disk == w.disk && RecordsKept(w.store, Exec(w, ev).store)
  {
    var st := w.store;
    match ev
    case StartOp(id, now) => OpsKeepRecords(st, id, map[], map[], now);
    case SettleOp(id, now) => OpsKeepRecords(st, id, map[], map[], now);
    case CancelOp(id, now) => OpsKeepRecords(st, id, map[], map[], now);
    case RequestOp(id, requests, now) => OpsKeepRecords(st, id, requests, map[], now);
    case UpdateOp(id, responses, now) => OpsKeepRecords(st, id, map[], responses, now);
    case RunBegins(id) => RunsKeepRecords(st, id, Result(0));
    case ExecuteEnds(id, outcome) => RunsKeepRecords(st, id, outcome);
    case RunEnds(id) => RunsKeepRecords(st, id, Result(0));
    case SaveFails => RunsKeepRecords(st, 0, Result(0));
    case CloseRequested =>
    case CloseOp => CloseKeepsRecords(st, 0, 0, true);
    case CloseNext(id, now) => CloseKeepsRecords(st, id, now, true);
    case ReleaseOk => CloseKeepsRecords(st, 0, 0, true);
    case ReleaseFails => CloseKeepsRecords(st, 0, 0, false);
  }

  lemma SaveKeepsDisk(w: World)
    requires DiskAgrees(w.store, w.disk)
    ensures DiskAgrees(SaveStep(w).store, SaveStep(w).disk)
  {
  }

  lemma AfterSaveKeepsRecords(st: Store, job: Job, id: TaskId)
    requires st.queue == Idle
    ensures RecordsKept(st, AfterSave(st, job, id))
  {
  }

  lemma ContinueKeepsDisk(w: World)
    requires DiskAgrees(w.store, w.disk)
    ensures DiskAgrees(ContinueStep(w.store), w.disk)
  {
    var q := w.store.queue;
    if q.Saved? {
      AfterSaveKeepsRecords(w.store.(records := w.store.records[q.id := q.record], queue := Idle), q.job, q.id);
    }
  }

  /** With the lease held, memory and disk stay in step through every event. */
  lemma {:induction false} ExecKeepsDisk(w: World, ev: Event)
    requires DiskAgrees(w.store, w.disk)
    ensures DiskAgrees(Exec(w, ev).store, Exec(w, ev).disk)
  {
    if ev.SaveOk? {
      SaveKeepsDisk(w);
    } else if ev.Continue? {
      ContinueKeepsDisk(w);
    } else {
      QuietEventsKeepRecords(w, ev);
    }
  }

  /** A save overwrites only a record that is not terminal, or adds a new one. */
  lemma SaveSparesTerminal(w: World, ev: Event, id: TaskId)
    requires MemInv(w.store) && DiskAgrees(w.store, w.disk)
    requires id in w.disk && Terminal(w.disk[id])
    ensures id in Exec(w, ev).disk && Exec(w, ev).disk[id] == w.disk[id]
  {
  }

  /** Once the lease is released every guard on `closed` holds: nothing is saved again. */
  lemma ReleasedNeverSaves(w: World, ev: Event)
    requires MemInv(w.store) && w.store.leaseReleased
    ensures Exec(w, ev).disk == w.disk
    ensures Exec(w, ev).store.leaseReleased
  {
  }

  /** The tasks this runtime started or is about to record as started. */
  function StartedIds(st: Store): set<TaskId> {
    st.runs.Keys + (if (st.queue.Saving? || st.queue.Saved?) && st.queue.job.StartJob? then {st.queue.id} else {})
  }

  /** Only a start brings in an identifier. */
  ghost predicate IdsKept(st: Store, st': Store, added: set<TaskId>) {
    && StartedIds(st') <= StartedIds(st) + added
    && st'.records.Keys <= st.records.Keys + StartedIds(st)
    && st'.recovered == st.recovered
  }

  lemma StartKeepsIds(st: Store, id: TaskId, now: nat)
    ensures IdsKept(st, StartStep(st, id, now), {id})
  {
  }

  lemma OpsKeepIds(st: Store, id: TaskId, now: nat)
    ensures IdsKept(st, SettleStep(st, id, now), {})
    ensures IdsKept(st, CancelStep(st, id, now), {})
  {
    hide SettleRecord;
  }

  lemma InputOpsKeepIds(st: Store, id: TaskId, requests: Requests, responses: map<Key, Response>, now: nat)
    ensures IdsKept(st, RequestStep(st, id, requests, now), {})
    ensures IdsKept(st, UpdateStep(st, id, responses, now), {})
  {
    hide MayAsk;
    hide AllFit;
    hide Accepted;
  }

  lemma RunsKeepIds(st: Store, id: TaskId, outcome: Outcome)
    ensures IdsKept(st, ExecuteEndsStep(st, id, outcome), {}) && IdsKept(st, RunEndsStep(st, id), {})
  {
  }

  lemma RunBeginsKeepsIds(st: Store, id: TaskId)
    ensures IdsKept(st, RunBeginsStep(st, id), {})
  {
  }

  lemma CloseKeepsIds(w: World, id: TaskId, now: nat, ok: bool)
    ensures IdsKept(w.store, CloseStep(w.store), {}) && IdsKept(w.store, ReleaseStep(w.store, ok), {})
    ensures IdsKept(w.store, CloseNextStep(w.store, id, now), {}) && IdsKept(w.store, SaveStep(w).store, {})
  {
    hide Rejected, Interrupted, Terminal;
  }

  lemma AfterSaveKeepsIds(st: Store, job: Job, id: TaskId)
    requires st.queue == Idle && (job.SettleJob? ==> id in st.runs)
    ensures StartedIds(AfterSave(st, job, id)) <= StartedIds(st) + (if job.StartJob? then {id} else {})
    ensures AfterSave(st, job, id).records == st.records && AfterSave(st, job, id).recovered == st.recovered
  {
  }

  lemma ContinueKeepsIds(st: Store)
    requires QueueInv(st)
    ensures IdsKept(st, ContinueStep(st), {})
  {
    hide AfterSave;
    var q := st.queue;
    if q.Saved? {
      AfterSaveKeepsIds(st.(records := st.records[q.id := q.record], queue := Idle), q.job, q.id);
    }
  }

  lemma SaveFailsKeepsIds(st: Store)
    requires QueueInv(st)
    ensures IdsKept(st, SaveFailsStep(st), {})
  {
  }

  lemma {:induction false} ExecKeepsIds(w: World, ev: Event)
    requires MemInv(w.store)
    ensures IdsKept(w.store, Exec(w, ev).store, if ev.StartOp? then {ev.id} else {})
  {
    hide QueueInv;
    hide RunsInv;
    hide InputInv;
    hide AskedInv;
    hide ResolvedInv;
    hide ExecutedInv;
    hide StartedIds;
    var st := w.store;
    match ev
    case StartOp(id, now) => StartKeepsIds(st, id, now);
    case SettleOp(id, now) => OpsKeepIds(st, id, now);
    case CancelOp(id, now) => OpsKeepIds(st, id, now);
    case RequestOp(id, requests, now) => InputOpsKeepIds(st, id, requests, map[], now);
    case UpdateOp(id, responses, now) => InputOpsKeepIds(st, id, map[], responses, now);
    case RunBegins(id) => RunBeginsKeepsIds(st, id);
    case ExecuteEnds(id, outcome) => RunsKeepIds(st, id, outcome);
    case RunEnds(id) => RunsKeepIds(st, id, Result(0));
    case SaveFails => SaveFailsKeepsIds(st);
    case CloseRequested => assert StartedIds(st.(closingRequested := true)) == StartedIds(st) by { SameStarted(st); }
    case CloseOp => CloseKeepsIds(w, 0, 0, true);
    case CloseNext(id, now) => CloseKeepsIds(w, id, now, true);
    case ReleaseOk => CloseKeepsIds(w, 0, 0, true);
    case ReleaseFails => CloseKeepsIds(w, 0, 0, false);
    case SaveOk => CloseKeepsIds(w, 0, 0, true);
    case Continue => ContinueKeepsIds(st);
  }

  lemma SameStarted(st: Store)
    ensures StartedIds(st.(closingRequested := true)) == StartedIds(st)
  {
  }
}
