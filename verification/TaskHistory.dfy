/**
 Where the outcomes and answers in a runtime's memory come from: each goes back to an event that
 this runtime has heard.
 */
module TaskHistory {
  import opened Options
  import opened TaskRuntime

  /** The callback ended so, or its run was refused at the start and it was never called. */
  predicate OutcomeHeard(heard: seq<Event>, executed: seq<TaskId>, id: TaskId, outcome: Outcome) {
    || ExecuteEnds(id, outcome) in heard
    || (outcome == Error(-32603) && RunBegins(id) in heard && id !in executed)
  }

  /** The callback asked for this key with a request of this kind. */
  ghost predicate AskHeard(heard: seq<Event>, id: TaskId, key: Key, kind: RequestKind) {
    exists requests: Requests, now: nat :: RequestOp(id, requests, now) in heard && key in requests && requests[key] == kind
  }

  /** The client gave this answer, and the schema of the request it answers accepts it. */
  ghost predicate AnswerHeard(heard: seq<Event>, id: TaskId, key: Key, value: nat) {
    exists responses: map<Key, Response>, now: nat, kind: RequestKind ::
      && UpdateOp(id, responses, now) in heard && AskHeard(heard, id, key, kind)
      && key in responses && responses[key].value == value && kind in responses[key].fits
  }

  ghost predicate OutcomesHeard(runs: map<TaskId, Phase>, executed: seq<TaskId>, heard: seq<Event>) {
    forall id :: id in runs && runs[id].Settling? ==> OutcomeHeard(heard, executed, id, runs[id].outcome)
  }

  ghost predicate RequestsHeard(id: TaskId, requests: Requests, heard: seq<Event>) {
    forall k :: k in requests ==> AskHeard(heard, id, k, requests[k])
  }

  ghost predicate AnswersHeard(id: TaskId, answers: map<Key, nat>, heard: seq<Event>) {
    forall k :: k in answers ==> AnswerHeard(heard, id, k, answers[k])
  }

  ghost predicate ExchangesHeard(active: map<TaskId, Active>, heard: seq<Event>) {
    forall id :: id in active && active[id].input.Some? ==>
      && RequestsHeard(id, active[id].input.value.outstanding, heard)
      && AnswersHeard(id, active[id].input.value.responses, heard)
  }

  ghost predicate JobHeard(job: Job, id: TaskId, heard: seq<Event>) {
    match job
    case RequestJob(requests) => RequestsHeard(id, requests, heard)
    case UpdateJob(accepted, left) => AnswersHeard(id, accepted, heard) && RequestsHeard(id, left, heard)
    case _ => true
  }

  ghost predicate ResolutionsHeard(resolved: seq<Resolution>, heard: seq<Event>) {
    forall i :: 0 <= i < |resolved| ==> AnswersHeard(resolved[i].id, resolved[i].answers, heard)
  }

  ghost predicate HeardInv(st: Store, heard: seq<Event>) {
    && OutcomesHeard(st.runs, st.executed, heard)
    && ExchangesHeard(st.active, heard)
    && (st.queue.Saving? || st.queue.Saved? ==> JobHeard(st.queue.job, st.queue.id, heard))
    && ResolutionsHeard(st.resolved, heard)
  }

  // ---------- hearing more ----------

  lemma MoreAnswers(id: TaskId, key: Key, value: nat, heard: seq<Event>, ev: Event)
    requires AnswerHeard(heard, id, key, value)
    ensures AnswerHeard(heard + [ev], id, key, value)
  {
    var responses: map<Key, Response>, now: nat, kind: RequestKind :|
      && UpdateOp(id, responses, now) in heard && AskHeard(heard, id, key, kind)
      && key in responses && responses[key].value == value && kind in responses[key].fits;
    MoreAsks(id, key, kind, heard, ev);
    assert UpdateOp(id, responses, now) in heard + [ev];
  }

  lemma MoreAsks(id: TaskId, key: Key, kind: RequestKind, heard: seq<Event>, ev: Event)
    requires AskHeard(heard, id, key, kind)
    ensures AskHeard(heard + [ev], id, key, kind)
  {
    var requests: Requests, now: nat :| RequestOp(id, requests, now) in heard && key in requests && requests[key] == kind;
    assert RequestOp(id, requests, now) in heard + [ev];
  }

  lemma MoreOfExchange(id: TaskId, requests: Requests, answers: map<Key, nat>, heard: seq<Event>, ev: Event)
    ensures RequestsHeard(id, requests, heard) ==> RequestsHeard(id, requests, heard + [ev])
    ensures AnswersHeard(id, answers, heard) ==> AnswersHeard(id, answers, heard + [ev])
  {
    hide AskHeard, AnswerHeard;
    forall k | k in requests && AskHeard(heard, id, k, requests[k]) ensures AskHeard(heard + [ev], id, k, requests[k]) {
      MoreAsks(id, k, requests[k], heard, ev);
    }
    forall k | k in answers && AnswerHeard(heard, id, k, answers[k]) ensures AnswerHeard(heard + [ev], id, k, answers[k]) {
      MoreAnswers(id, k, answers[k], heard, ev);
    }
  }

  lemma MoreExchanges(active: map<TaskId, Active>, heard: seq<Event>, ev: Event)
    requires ExchangesHeard(active, heard)
    ensures ExchangesHeard(active, heard + [ev])
  {
    hide RequestsHeard, AnswersHeard;
    forall id | id in active && active[id].input.Some?
      ensures RequestsHeard(id, active[id].input.value.outstanding, heard + [ev])
      ensures AnswersHeard(id, active[id].input.value.responses, heard + [ev])
    {
      MoreOfExchange(id, active[id].input.value.outstanding, active[id].input.value.responses, heard, ev);
    }
  }

  lemma MoreResolutions(resolved: seq<Resolution>, heard: seq<Event>, ev: Event)
    requires ResolutionsHeard(resolved, heard)
    ensures ResolutionsHeard(resolved, heard + [ev])
  {
    hide RequestsHeard, AnswersHeard;
    forall i | 0 <= i < |resolved| ensures AnswersHeard(resolved[i].id, resolved[i].answers, heard + [ev]) {
      MoreOfExchange(resolved[i].id, map[], resolved[i].answers, heard, ev);
    }
  }

  lemma MoreOutcomes(runs: map<TaskId, Phase>, executed: seq<TaskId>, heard: seq<Event>, ev: Event)
    requires OutcomesHeard(runs, executed, heard)
    ensures OutcomesHeard(runs, executed, heard + [ev])
  {
  }

  lemma MoreHeard(st: Store, heard: seq<Event>, ev: Event)
    requires HeardInv(st, heard)
    ensures HeardInv(st, heard + [ev])
  {
    hide OutcomesHeard, ExchangesHeard, ResolutionsHeard, RequestsHeard, AnswersHeard;
    MoreOutcomes(st.runs, st.executed, heard, ev);
    MoreExchanges(st.active, heard, ev);
    MoreResolutions(st.resolved, heard, ev);
    if st.queue.Saving? || st.queue.Saved? {
      match st.queue.job
      case RequestJob(requests) => MoreOfExchange(st.queue.id, requests, map[], heard, ev);
      case UpdateJob(accepted, left) => MoreOfExchange(st.queue.id, left, accepted, heard, ev);
      case _ =>
    }
  }

  // ---------- every event ----------

  lemma StartKeepsHeard(st: Store, id: TaskId, now: nat, heard: seq<Event>)
    requires HeardInv(st, heard)
    ensures HeardInv(StartStep(st, id, now), heard) && HeardInv(CancelStep(st, id, now), heard)
  {
    hide OutcomesHeard, ExchangesHeard, ResolutionsHeard, Terminal;
  }

  lemma SettleKeepsHeard(st: Store, id: TaskId, now: nat, heard: seq<Event>)
    requires HeardInv(st, heard)
    ensures HeardInv(SettleStep(st, id, now), heard)
  {
    hide OutcomeHeard, ExchangesHeard, ResolutionsHeard, SettleRecord, Terminal;
  }

  lemma RequestKeepsHeard(st: Store, id: TaskId, requests: Requests, now: nat, heard: seq<Event>)
    requires HeardInv(st, heard) && RequestOp(id, requests, now) in heard
    ensures HeardInv(RequestStep(st, id, requests, now), heard)
  {
    hide OutcomesHeard, ExchangesHeard, ResolutionsHeard, MayAsk;
  }

  lemma AcceptedIsHeard(id: TaskId, outstanding: Requests, responses: map<Key, Response>, now: nat, heard: seq<Event>)
    requires UpdateOp(id, responses, now) in heard && RequestsHeard(id, outstanding, heard) && AllFit(outstanding, responses)
    ensures AnswersHeard(id, Accepted(outstanding, responses), heard)
    ensures RequestsHeard(id, outstanding - Accepted(outstanding, responses).Keys, heard)
  {
    hide AskHeard;
    var accepted := Accepted(outstanding, responses);
    forall k | k in accepted ensures AnswerHeard(heard, id, k, accepted[k]) {
      assert UpdateOp(id, responses, now) in heard && AskHeard(heard, id, k, outstanding[k]);
    }
  }

  lemma UpdateKeepsHeard(st: Store, id: TaskId, responses: map<Key, Response>, now: nat, heard: seq<Event>)
    requires HeardInv(st, heard) && UpdateOp(id, responses, now) in heard
    ensures HeardInv(UpdateStep(st, id, responses, now), heard)
  {
    hide OutcomesHeard, ResolutionsHeard, AllFit, Accepted, RequestsHeard, AnswersHeard;
    if UpdateStep(st, id, responses, now) != st {
      AcceptedIsHeard(id, st.active[id].input.value.outstanding, responses, now, heard);
    }
  }

  lemma RunBeginsKeepsHeard(st: Store, id: TaskId, heard: seq<Event>)
    requires HeardInv(st, heard) && ExecutedInv(st.executed, st.runs) && RunBegins(id) in heard
    ensures HeardInv(RunBeginsStep(st, id), heard)
  {
    hide ExchangesHeard, ResolutionsHeard;
    var st' := RunBeginsStep(st, id);
    forall x | x in st'.runs && st'.runs[x].Settling?
      ensures OutcomeHeard(heard, st'.executed, x, st'.runs[x].outcome)
    {
      assert x != id ==> OutcomeHeard(heard, st.executed, x, st.runs[x].outcome);
    }
  }

  lemma RunEndsKeepsHeard(st: Store, id: TaskId, outcome: Outcome, heard: seq<Event>)
    requires HeardInv(st, heard)
    ensures ExecuteEnds(id, outcome) in heard ==> HeardInv(ExecuteEndsStep(st, id, outcome), heard)
    ensures HeardInv(RunEndsStep(st, id), heard)
  {
    hide ResolutionsHeard, RequestsHeard, AnswersHeard;
  }

  lemma SaveKeepsHeard(w: World, heard: seq<Event>)
    requires HeardInv(w.store, heard)
    ensures HeardInv(SaveStep(w).store, heard)
  {
    hide OutcomesHeard, ExchangesHeard, ResolutionsHeard, JobHeard;
  }

  lemma SaveFailsKeepsHeard(st: Store, heard: seq<Event>)
    requires HeardInv(st, heard)
    ensures HeardInv(SaveFailsStep(st), heard)
  {
    hide OutcomeHeard, ExchangesHeard, ResolutionsHeard, JobHeard;
  }

  lemma CloseKeepsHeard(st: Store, id: TaskId, now: nat, ok: bool, heard: seq<Event>)
    requires HeardInv(st, heard)
    ensures HeardInv(CloseStep(st), heard) && HeardInv(CloseNextStep(st, id, now), heard) && HeardInv(ReleaseStep(st, ok), heard)
  {
    hide OutcomesHeard, ResolutionsHeard, RequestsHeard, AnswersHeard, Interrupted, Terminal;
  }

  lemma ContinueKeepsHeard(st: Store, heard: seq<Event>)
    requires HeardInv(st, heard)
    ensures HeardInv(ContinueStep(st), heard)
  {
    if st.queue.Saved? {
      hide HeardInv;
      var q := st.queue;
      var mid := st.(records := st.records[q.id := q.record], queue := Idle);
      QueueHeard(st, mid, heard);
      match q.job
      case RequestJob(requests) => AskKeepsHeard(mid, q.id, requests, heard);
      case UpdateJob(accepted, left) => AnswerKeepsHeard(mid, q.id, accepted, left, heard);
      case CancelJob => AbortKeepsHeard(mid, q.id, heard);
      case _ => PhaseKeepsHeard(mid, q.job, q.id, heard);
    }
  }

  lemma QueueHeard(st: Store, mid: Store, heard: seq<Event>)
    requires HeardInv(st, heard) && st.queue.Saved?
    requires mid == st.(records := st.records[st.queue.id := st.queue.record], queue := Idle)
    ensures HeardInv(mid, heard) && JobHeard(st.queue.job, st.queue.id, heard)
  {
    hide OutcomesHeard, ExchangesHeard, ResolutionsHeard, JobHeard;
  }

  lemma PhaseKeepsHeard(st: Store, job: Job, id: TaskId, heard: seq<Event>)
    requires HeardInv(st, heard) && st.queue == Idle && (job.StartJob? || job.SettleJob? || job.CloseJob?)
    ensures HeardInv(AfterSave(st, job, id), heard)
  {
    hide OutcomeHeard, ResolutionsHeard, RequestsHeard, AnswersHeard;
  }

  lemma AskKeepsHeard(st: Store, id: TaskId, requests: Requests, heard: seq<Event>)
    requires HeardInv(st, heard) && st.queue == Idle && RequestsHeard(id, requests, heard)
    ensures HeardInv(AskUser(st, id, requests), heard)
  {
    hide OutcomesHeard, ResolutionsHeard, RequestsHeard;
    hide AnswerHeard;
  }

  lemma AbortKeepsHeard(st: Store, id: TaskId, heard: seq<Event>)
    requires HeardInv(st, heard) && st.queue == Idle
    ensures HeardInv(Abort(st, id), heard)
  {
    hide OutcomesHeard, ResolutionsHeard, RequestsHeard, AnswersHeard;
  }

  lemma AnswerKeepsHeard(st: Store, id: TaskId, accepted: map<Key, nat>, left: Requests, heard: seq<Event>)
    requires HeardInv(st, heard) && st.queue == Idle
    requires AnswersHeard(id, accepted, heard) && RequestsHeard(id, left, heard)
    ensures HeardInv(Answer(st, id, accepted, left), heard)
  {
    hide OutcomesHeard, RequestsHeard;
    hide AnswerHeard;
    if id in st.active && st.active[id].input.Some? {
      var all := st.active[id].input.value.responses + accepted;
      assert AnswersHeard(id, all, heard);
      hide AnswersHeard;
      assert ExchangesHeard(Answer(st, id, accepted, left).active, heard);
      assert ResolutionsHeard(Answer(st, id, accepted, left).resolved, heard);
    }
  }

  lemma {:induction false} ExecKeepsHeard(w: World, ev: Event, before: seq<Event>)
    requires MemInv(w.store) && HeardInv(w.store, before)
    ensures HeardInv(Exec(w, ev).store, before + [ev])
  {
    hide StartStep, SettleStep, RequestStep, UpdateStep, CancelStep, CloseStep, CloseNextStep, ReleaseStep;
    hide SaveStep, SaveFailsStep, ContinueStep, ExecuteEndsStep, RunEndsStep, RunBeginsStep;
    hide RunsInv, InputInv, AskedInv, ResolvedInv, ExecutedInv, QueueInv, HeardInv;
    MoreHeard(w.store, before, ev);
    var st, heard := w.store, before + [ev];
    match ev
    case StartOp(id, now) => StartKeepsHeard(st, id, now, heard);
    case SettleOp(id, now) => SettleKeepsHeard(st, id, now, heard);
    case CancelOp(id, now) => StartKeepsHeard(st, id, now, heard);
    case RequestOp(id, requests, now) => RequestKeepsHeard(st, id, requests, now, heard);
    case UpdateOp(id, responses, now) => UpdateKeepsHeard(st, id, responses, now, heard);
    case RunBegins(id) => RunBeginsKeepsHeard(st, id, heard);
    case ExecuteEnds(id, outcome) => RunEndsKeepsHeard(st, id, outcome, heard);
    case RunEnds(id) => RunEndsKeepsHeard(st, id, Result(0), heard);
    case SaveOk => SaveKeepsHeard(w, heard);
    case SaveFails => SaveFailsKeepsHeard(st, heard);
    case CloseRequested => SameHeard(st, st.(closingRequested := true), heard);
    case CloseOp => CloseKeepsHeard(st, 0, 0, true, heard);
    case CloseNext(id, now) => CloseKeepsHeard(st, id, now, true, heard);
    case ReleaseOk => CloseKeepsHeard(st, 0, 0, true, heard);
    case ReleaseFails => CloseKeepsHeard(st, 0, 0, false, heard);
    case Continue => ContinueKeepsHeard(st, heard);
  }

  lemma SameHeard(st: Store, st': Store, heard: seq<Event>)
    requires HeardInv(st, heard) && st' == st.(closingRequested := true)
    ensures HeardInv(st', heard)
  {
    hide OutcomesHeard, ExchangesHeard, ResolutionsHeard, JobHeard;
  }
}
