/**
 Generations of one account's OneBot instance (packages/onebot/src/manager.ts): session
 start and close edges, handoffs that wait for retiring instances, and the database
 migration that gates a start. Each stretch between two awaits is a method.
 */
module AccountManager {
  type Uin = string

  /** One instance ever created. */
  datatype Generation = Generation(id: nat, uin: Uin)

  datatype Phase = Preparing | Migrating | Complete | Failed

  datatype Migration = Migration(token: nat, task: nat, phase: Phase, usable: bool, retryArmed: bool)

  /** A handoff under way: the retiring instances it still has to see released. */
  datatype Handoff = Handoff(uin: Uin, todo: set<Generation>)

  datatype ReleaseOutcome = Released | TimedOut | DisposeFailed

  /** How `createInstance` and the configuration load before it turn out. */
  datatype StartOutcome = Starts | StartThrows(retryable: bool)

  /** Every generation is live, retiring or released, and only one per account is not released. */
  ghost predicate GenerationInv(instances: map<Uin, Generation>, retiring: set<Generation>, closing: set<Generation>,
                                released: set<Generation>, created: set<Generation>, next: nat)
  {
    && (forall u :: u in instances ==>
          && instances[u].uin == u && instances[u] in created
          && instances[u] !in retiring && instances[u] !in released)
    && retiring + released <= created && retiring !! released && closing <= retiring + released
    && (forall g :: g in created ==> g.id < next)
    && (forall g :: g in created ==>
          g in retiring || g in released || (g.uin in instances && instances[g.uin] == g))
    && (forall g, h :: g in created && h in created && g.uin == h.uin && g !in released && h !in released ==> g == h)
  }

  /** Nothing retires, and nothing waits to start, behind these accounts. */
  ghost predicate QuietInv(uins: set<Uin>, retiring: set<Generation>, pendingStarts: map<Uin, nat>) {
    && (forall u :: u in uins ==> u !in pendingStarts)
    && (forall g :: g in retiring ==> g.uin !in uins)
  }

  /** A pending start waits for every instance of its account that still retires. */
  ghost predicate PendingInv(pendingStarts: map<Uin, nat>, handoffs: map<nat, Handoff>, retiring: set<Generation>) {
    && (forall u :: u in pendingStarts ==> pendingStarts[u] in handoffs && handoffs[pendingStarts[u]].uin == u)
    && (forall u, g :: u in pendingStarts && g in retiring && g.uin == u ==> g in handoffs[pendingStarts[u]].todo)
  }

  ghost predicate HandoffInv(handoffs: map<nat, Handoff>, gone: set<Generation>, nextToken: nat) {
    && (forall t :: t in handoffs ==> t < nextToken)
    && (forall t, g :: t in handoffs && g in handoffs[t].todo ==> g in gone && g.uin == handoffs[t].uin)
  }

  /** What the manager went through: every event it heard, and what that did to the generations. */
  datatype Entry = Heard(event: Event) | Began(generation: Generation) | Ended(generation: Generation) | Shutdown

  ghost function BegunIn(log: seq<Entry>): set<Generation> {
    set e | e in log && e.Began? :: e.generation
  }

  ghost function EndedIn(log: seq<Entry>): set<Generation> {
    set e | e in log && e.Ended? :: e.generation
  }

  /** A generation may begin once, before shutdown, when all earlier ones of its account have ended. */
  ghost predicate MayBegin(before: seq<Entry>, g: Generation) {
    && Shutdown !in before && Began(g) !in before
    && forall h :: h in BegunIn(before) && h.uin == g.uin ==> h in EndedIn(before)
  }

  ghost predicate Orderly(log: seq<Entry>) {
    forall i :: 0 <= i < |log| && log[i].Began? ==> MayBegin(log[..i], log[i].generation)
  }

  /** What an event can do: only a migration that is ready begins a generation, only a disposal that worked or was forced ends one. */
  predicate Follows(e: Event, effect: Entry) {
    match effect
    case Heard(_) => false
    case Began(g) => e.Ready? && e.uin == g.uin && e.start == Starts
    case Ended(g) =>
      || (e.Closed? && e.generation == g && e.ok)
      || (e.Advanced? && e.generation == g && e.release != DisposeFailed)
      || (e.DisposeSettled? && e.generation == g && e.ok)
    case Shutdown => e == DisposeCalled
  }

  /** Every entry but the events themselves comes right behind the event that caused it; a call to dispose always shuts down. */
  ghost predicate Caused(log: seq<Entry>) {
    && (forall i :: 0 <= i < |log| && !log[i].Heard? ==> i > 0 && log[i - 1].Heard? && Follows(log[i - 1].event, log[i]))
    && (forall i :: 0 <= i < |log| && log[i] == Heard(DisposeCalled) ==> i + 1 < |log| && log[i + 1] == Shutdown)
  }

  function EventsIn(log: seq<Entry>): seq<Event> {
    if log == [] then []
    else
      var init := EventsIn(log[..|log| - 1]);
      if log[|log| - 1].Heard? then init + [log[|log| - 1].event] else init
  }

  /** The log tells the same as the manager's own sets. */
  ghost predicate LogInv(log: seq<Entry>, created: set<Generation>, released: set<Generation>, disposed: bool) {
    && Orderly(log) && created == BegunIn(log) && released == EndedIn(log) && (disposed <==> Shutdown in log)
  }

  lemma OrderlyGrows(log: seq<Entry>, e: Entry)
    requires Orderly(log) && (e.Began? ==> MayBegin(log, e.generation))
    ensures Orderly(log + [e])
  {
    var more := log + [e];
    forall i | 0 <= i < |more| && more[i].Began? ensures MayBegin(more[..i], more[i].generation) {
      assert i < |log| ==> more[..i] == log[..i];
      assert i == |log| ==> more[..i] == log;
    }
  }

  lemma LogGrows(log: seq<Entry>, created: set<Generation>, released: set<Generation>, disposed: bool, e: Entry)
    requires LogInv(log, created, released, disposed)
    requires e.Began? ==>
               !disposed && e.generation !in created && forall h :: h in created && h.uin == e.generation.uin ==> h in released
    ensures LogInv(log + [e], if e.Began? then created + {e.generation} else created,
                   if e.Ended? then released + {e.generation} else released, disposed || e == Shutdown)
  {
    assert forall g :: Began(g) in log ==> g in BegunIn(log) by {
      forall g | Began(g) in log ensures g in BegunIn(log) {
        assert Began(g).Began?;
      }
    }
    OrderlyGrows(log, e);
    assert BegunIn(log + [e]) == BegunIn(log) + if e.Began? then {e.generation} else {};
    assert EndedIn(log + [e]) == EndedIn(log) + if e.Ended? then {e.generation} else {};
  }

  /** In an orderly log no account ever has two generations that began and did not end. */
  lemma {:induction false} NeverTwo(log: seq<Entry>, g: Generation, h: Generation)
    requires Orderly(log) && g in LiveIn(log) && h in LiveIn(log) && g.uin == h.uin
    ensures g == h
  {
    var i :| 0 <= i < |log| && log[i] == Began(g);
    var j :| 0 <= j < |log| && log[j] == Began(h);
    if i < j {
      EarlierEnded(log, i, j);
    } else if j < i {
      EarlierEnded(log, j, i);
    }
  }

  lemma EarlierEnded(log: seq<Entry>, i: nat, j: nat)
    requires Orderly(log) && i < j < |log| && log[i].Began? && log[j].Began?
    requires log[i].generation.uin == log[j].generation.uin
    ensures log[i].generation in EndedIn(log[..j]) && log[i].generation in EndedIn(log)
  {
    assert MayBegin(log[..j], log[j].generation);
    assert log[..j][i] == log[i];
    assert log[i].generation in BegunIn(log[..j]);
  }

  /** An account behind which nothing retires or waits, with none live, has only released generations. */
  lemma QuietIsReleased(instances: map<Uin, Generation>, retiring: set<Generation>, closing: set<Generation>,
                        released: set<Generation>, created: set<Generation>, next: nat,
                        uins: set<Uin>, pendingStarts: map<Uin, nat>, u: Uin)
    requires GenerationInv(instances, retiring, closing, released, created, next)
    requires QuietInv(uins, retiring, pendingStarts) && u in uins && u !in instances
    ensures forall g :: g in created && g.uin == u ==> g in released
  {
  }

  lemma BeginKeepsGenerations(instances: map<Uin, Generation>, retiring: set<Generation>, closing: set<Generation>,
                              released: set<Generation>, created: set<Generation>, next: nat, u: Uin)
    requires GenerationInv(instances, retiring, closing, released, created, next) && u !in instances
    requires forall g :: g in created && g.uin == u ==> g in released
    ensures var g := Generation(next, u);
            g !in created && GenerationInv(instances[u := g], retiring, closing, released, created + {g}, next + 1)
  {
  }

  lemma QuietGrows(uins: set<Uin>, more: set<Uin>, retiring: set<Generation>, pendingStarts: map<Uin, nat>, u: Uin)
    requires QuietInv(uins, retiring, pendingStarts) && QuietInv(more, retiring, pendingStarts) && u in more
    ensures QuietInv(uins + {u}, retiring, pendingStarts)
  {
  }

  /** Everything live retires. */
  lemma RetireAllKeepsGenerations(instances: map<Uin, Generation>, retiring: set<Generation>, closing: set<Generation>,
                                  released: set<Generation>, created: set<Generation>, next: nat)
    requires GenerationInv(instances, retiring, closing, released, created, next)
    ensures GenerationInv(map[], retiring + instances.Values, closing, released, created, next)
  {
  }

  lemma RetireAllKeepsHandoffs(instances: map<Uin, Generation>, retiring: set<Generation>, released: set<Generation>,
                               pendingStarts: map<Uin, nat>, handoffs: map<nat, Handoff>, nextToken: nat)
    requires QuietInv(instances.Keys, retiring, pendingStarts) && PendingInv(pendingStarts, handoffs, retiring)
    requires HandoffInv(handoffs, retiring + released, nextToken)
    requires forall u :: u in instances ==> instances[u].uin == u
    ensures PendingInv(pendingStarts, handoffs, retiring + instances.Values)
    ensures HandoffInv(handoffs, retiring + instances.Values + released, nextToken)
    ensures QuietInv({}, retiring + instances.Values, pendingStarts)
  {
    forall t, g | t in handoffs && g in handoffs[t].todo
      ensures g in retiring + instances.Values + released
    {
      assert g in retiring + released;
    }
  }

  lemma OwnUins(instances: map<Uin, Generation>, retiring: set<Generation>, closing: set<Generation>,
                released: set<Generation>, created: set<Generation>, next: nat)
    requires GenerationInv(instances, retiring, closing, released, created, next)
    ensures forall u :: u in instances ==> instances[u].uin == u
  {
  }

  /** A handoff behind everything of its account that retires. */
  lemma HandoffJoins(pendingStarts: map<Uin, nat>, handoffs: map<nat, Handoff>, retiring: set<Generation>,
                     released: set<Generation>, nextToken: nat, u: Uin)
    requires PendingInv(pendingStarts, handoffs, retiring) && HandoffInv(handoffs, retiring + released, nextToken)
    ensures var h := Handoff(u, set g | g in retiring && g.uin == u);
            && PendingInv(pendingStarts[u := nextToken], handoffs[nextToken := h], retiring)
            && HandoffInv(handoffs[nextToken := h], retiring + released, nextToken + 1)
  {
  }

  lemma QuietElsewhere(uins: set<Uin>, retiring: set<Generation>, pendingStarts: map<Uin, nat>, g: Generation, token: nat)
    requires QuietInv(uins, retiring, pendingStarts) && g in retiring
    ensures QuietInv(uins, retiring, pendingStarts[g.uin := token])
  {
  }

  lemma FewerRetire(instances: map<Uin, Generation>, retiring: set<Generation>, closing: set<Generation>,
                    released: set<Generation>, created: set<Generation>, next: nat, g: Generation)
    requires GenerationInv(instances, retiring, closing, released, created, next) && g in retiring + released
    ensures GenerationInv(instances, retiring - {g}, closing, released + {g}, created, next)
    ensures retiring - {g} + (released + {g}) == retiring + released
  {
  }

  lemma PendingOnFewer(pendingStarts: map<Uin, nat>, handoffs: map<nat, Handoff>, retiring: set<Generation>, g: Generation)
    requires PendingInv(pendingStarts, handoffs, retiring)
    ensures PendingInv(pendingStarts, handoffs, retiring - {g})
  {
  }

  /** Without a handoff, and without its pending start if that is still the one. */
  lemma HandoffLeaves(pendingStarts: map<Uin, nat>, handoffs: map<nat, Handoff>, retiring: set<Generation>,
                      gone: set<Generation>, nextToken: nat, token: nat)
    requires PendingInv(pendingStarts, handoffs, retiring) && HandoffInv(handoffs, gone, nextToken) && token in handoffs
    ensures var u := handoffs[token].uin;
            var left := if u in pendingStarts && pendingStarts[u] == token then pendingStarts - {u} else pendingStarts;
            PendingInv(left, handoffs - {token}, retiring) && HandoffInv(handoffs - {token}, gone, nextToken)
  {
  }

  lemma FewerQuiet(uins: set<Uin>, retiring: set<Generation>, pendingStarts: map<Uin, nat>, u: Uin)
    requires QuietInv(uins, retiring, pendingStarts)
    ensures QuietInv(uins - {u}, retiring, pendingStarts)
  {
  }

  lemma LivesNeverWait(uins: set<Uin>, retiring: set<Generation>, pendingStarts: map<Uin, nat>, u: Uin)
    requires QuietInv(uins, retiring, pendingStarts)
    ensures u in uins ==> u !in pendingStarts && pendingStarts - {u} == pendingStarts
  {
  }

  lemma PendingDrops(pendingStarts: map<Uin, nat>, handoffs: map<nat, Handoff>, retiring: set<Generation>, u: Uin)
    requires PendingInv(pendingStarts, handoffs, retiring)
    ensures PendingInv(pendingStarts - {u}, handoffs, retiring)
  {
  }

  lemma FewerPending(uins: set<Uin>, retiring: set<Generation>, pendingStarts: map<Uin, nat>, u: Uin)
    requires QuietInv(uins, retiring, pendingStarts)
    ensures QuietInv(uins, retiring, pendingStarts - {u})
  {
  }

  // ------------------------------------------------------------------ the manager, event by event

  /** Everything the manager decides by. */
  datatype View = View(
    instances: map<Uin, Generation>,
    retiring: set<Generation>,
    closing: set<Generation>,
    released: set<Generation>,
    pendingStarts: map<Uin, nat>,
    handoffs: map<nat, Handoff>,
    migrations: map<Uin, Migration>,
    disposed: bool,
    nextGeneration: nat,
    nextToken: nat,
    nextTask: nat)

  function Prepared(v: View, u: Uin): View {
    if v.disposed || u in v.instances || u in v.migrations then v
    else
      v.(migrations := v.migrations[u := Migration(v.nextToken, v.nextTask, Preparing, false, false)],
         nextToken := v.nextToken + 1, nextTask := v.nextTask + 1)
  }

  predicate Listens(v: View, u: Uin, migration: nat, task: nat) {
    && u in v.migrations && v.migrations[u].token == migration && v.migrations[u].task == task
    && (v.migrations[u].phase == Preparing || v.migrations[u].phase == Migrating)
  }

  function Marked(v: View, u: Uin, m: Migration): View {
    v.(migrations := v.migrations[u := m])
  }

  function FailedIn(v: View, u: Uin, retryable: bool): View
    requires u in v.migrations
  {
    Marked(v, u, v.migrations[u].(phase := Failed, retryArmed := v.migrations[u].retryArmed || retryable))
  }

  function ReleasedIn(v: View, g: Generation): View {
    v.(retiring := v.retiring - {g}, released := v.released + {g})
  }

  /** A handoff is over; if it is still the one its account waits for, the account no longer waits. */
  function Left(v: View, token: nat): View
    requires token in v.handoffs
  {
    var u := v.handoffs[token].uin;
    v.(handoffs := v.handoffs - {token},
       pendingStarts := if u in v.pendingStarts && v.pendingStarts[u] == token then v.pendingStarts - {u} else v.pendingStarts)
  }

  /** The last release starts the account, if it still waits for this handoff and the manager is not disposed. */
  function Finished(v: View, token: nat): View
    requires token in v.handoffs
  {
    var u := v.handoffs[token].uin;
    if u in v.pendingStarts && v.pendingStarts[u] == token && !v.disposed then Prepared(Left(v, token), u) else Left(v, token)
  }

  function Advance(v: View, token: nat, g: Generation, release: ReleaseOutcome): View
    requires token in v.handoffs
  {
    if release == DisposeFailed then Left(v, token)
    else
      var h := v.handoffs[token];
      var w := ReleasedIn(v, g).(handoffs := v.handoffs[token := h.(todo := h.todo - {g})]);
      if h.todo - {g} == {} then Finished(w, token) else w
  }

  function StartedIn(v: View, u: Uin): View {
    if v.disposed || u in v.instances || u in v.pendingStarts then v
    else
      var here := set g | g in v.retiring && g.uin == u;
      if here == {} then Prepared(v, u)
      else
        v.(pendingStarts := v.pendingStarts[u := v.nextToken], handoffs := v.handoffs[v.nextToken := Handoff(u, here)],
           nextToken := v.nextToken + 1)
  }

  function ClosedIn(v: View, u: Uin): View {
    if v.disposed then v
    else if u in v.instances then
      v.(migrations := v.migrations - {u}, instances := v.instances - {u},
         retiring := v.retiring + {v.instances[u]}, closing := v.closing + {v.instances[u]})
    else v.(migrations := v.migrations - {u}, pendingStarts := v.pendingStarts - {u})
  }

  function ReadyIn(v: View, u: Uin, migration: nat, task: nat, start: StartOutcome): View {
    if !Listens(v, u, migration, task) then v
    else if u in v.instances then Marked(v, u, v.migrations[u].(phase := Migrating, usable := true))
    else
      match start
      case StartThrows(retryable) => FailedIn(v, u, retryable)
      case Starts =>
        Marked(v, u, v.migrations[u].(phase := Migrating, usable := true)).(
          instances := v.instances[u := Generation(v.nextGeneration, u)], nextGeneration := v.nextGeneration + 1)
  }

  /** What the manager is after an event; stale and impossible ones change nothing. */
  function Next(v: View, e: Event): View {
    match e
    case SessionStarted(u) => StartedIn(v, u)
    case SessionClosed(u) => ClosedIn(v, u)
    case Ready(u, migration, task, start) => ReadyIn(v, u, migration, task, start)
    case Progress(u, migration, task, complete) =>
      if !Listens(v, u, migration, task) then v
      else Marked(v, u, v.migrations[u].(phase := if complete then Complete else Migrating, usable := true))
    case MigrationFailed(u, migration, task, retryable) =>
      if Listens(v, u, migration, task) then FailedIn(v, u, retryable) else v
    case Retry(u, migration) =>
      if u !in v.migrations || v.migrations[u].token != migration || !v.migrations[u].retryArmed then v
      else
        Marked(v, u, v.migrations[u].(task := v.nextTask, phase := if v.migrations[u].usable then Migrating else Preparing,
                                      retryArmed := false)).(nextTask := v.nextTask + 1)
    case Closed(g, ok) =>
      if g !in v.closing then v
      else if ok then ReleasedIn(v, g).(closing := v.closing - {g})
      else v.(closing := v.closing - {g})
    case Advanced(token, g, release) =>
      if token in v.handoffs && g in v.handoffs[token].todo then Advance(v, token, g, release) else v
    case DisposeCalled =>
      v.(disposed := true, migrations := map[], retiring := v.retiring + v.instances.Values, instances := map[])
    case DisposeSettled(g, ok) => if v.disposed && g in v.retiring && ok then ReleasedIn(v, g) else v
  }

  /** An account's pending start goes only by its own close, or with the handoff it waits for. */
  lemma PendingStartsAreKept(v: View, e: Event, u: Uin)
    requires u in v.pendingStarts && e != SessionClosed(u)
    requires !(e.Advanced? && e.token == v.pendingStarts[u])
    ensures u in Next(v, e).pendingStarts && Next(v, e).pendingStarts[u] == v.pendingStarts[u]
  {
    hide Advance, StartedIn, ClosedIn, ReadyIn;
    match e
    case SessionStarted(x) => StartsKeepPending(v, x, u);
    case SessionClosed(x) => ClosesKeepPending(v, x);
    case Ready(x, migration, task, start) => ReadyKeepsPending(v, x, migration, task, start);
    case Advanced(token, g, release) =>
      if token in v.handoffs {
        HandoffsKeepPending(v, token, g, release, u);
      }
    case _ =>
  }

  lemma StartsKeepPending(v: View, x: Uin, u: Uin)
    requires u in v.pendingStarts
    ensures var n := StartedIn(v, x); u in n.pendingStarts && n.pendingStarts[u] == v.pendingStarts[u]
  {
  }

  lemma ClosesKeepPending(v: View, x: Uin)
    ensures ClosedIn(v, x).pendingStarts == if x in v.instances || v.disposed then v.pendingStarts else v.pendingStarts - {x}
  {
  }

  lemma ReadyKeepsPending(v: View, x: Uin, migration: nat, task: nat, start: StartOutcome)
    ensures ReadyIn(v, x, migration, task, start).pendingStarts == v.pendingStarts
  {
  }

  lemma HandoffsKeepPending(v: View, token: nat, g: Generation, release: ReleaseOutcome, u: Uin)
    requires token in v.handoffs && u in v.pendingStarts && v.pendingStarts[u] != token
    ensures var n := Advance(v, token, g, release); u in n.pendingStarts && n.pendingStarts[u] == v.pendingStarts[u]
  {
  }

  /** While an account waits, the last release of its handoff leaves a migration for it; any other release leaves it waiting. */
  lemma LastReleasePrepares(v: View, u: Uin, g: Generation, release: ReleaseOutcome)
    requires !v.disposed && u in v.pendingStarts && v.pendingStarts[u] in v.handoffs && release != DisposeFailed
    requires v.handoffs[v.pendingStarts[u]].uin == u && g in v.handoffs[v.pendingStarts[u]].todo && u !in v.instances
    ensures var n := Next(v, Advanced(v.pendingStarts[u], g, release));
            if v.handoffs[v.pendingStarts[u]].todo == {g} then u in n.migrations && u !in n.pendingStarts
            else u in n.pendingStarts && n.pendingStarts[u] == v.pendingStarts[u]
  {
  }

  /** What happens to one account leaves the others' starts, instances and migrations alone. */
  lemma OtherAccountsAreKept(v: View, e: Event, u: Uin)
    requires !e.DisposeCalled? && !(e.Advanced? && e.token in v.handoffs && v.handoffs[e.token].uin == u)
    requires e.SessionStarted? || e.SessionClosed? || e.Ready? || e.Progress? || e.MigrationFailed? || e.Retry? ==> e.uin != u
    ensures Untouched(v, Next(v, e), u)
  {
    hide Advance, StartedIn, ClosedIn, ReadyIn;
    match e
    case SessionStarted(x) => StartsKeepOthers(v, x, u);
    case SessionClosed(x) => ClosesKeepOthers(v, x, u);
    case Ready(x, migration, task, start) => ReadyKeepsOthers(v, x, migration, task, start, u);
    case Advanced(token, g, release) =>
      if token in v.handoffs {
        HandoffsKeepOthers(v, token, g, release, u);
      }
    case _ =>
  }

  /** One account's instance, migration and pending start are the same. */
  predicate Untouched(v: View, n: View, u: Uin) {
    && (u in n.instances <==> u in v.instances) && (u in v.instances ==> n.instances[u] == v.instances[u])
    && (u in n.migrations <==> u in v.migrations) && (u in v.migrations ==> n.migrations[u] == v.migrations[u])
    && (u in n.pendingStarts <==> u in v.pendingStarts)
    && (u in v.pendingStarts ==> n.pendingStarts[u] == v.pendingStarts[u])
  }

  lemma StartsKeepOthers(v: View, x: Uin, u: Uin)
    requires x != u
    ensures Untouched(v, StartedIn(v, x), u)
  {
  }

  lemma ClosesKeepOthers(v: View, x: Uin, u: Uin)
    requires x != u
    ensures Untouched(v, ClosedIn(v, x), u)
  {
  }

  lemma ReadyKeepsOthers(v: View, x: Uin, migration: nat, task: nat, start: StartOutcome, u: Uin)
    requires x != u
    ensures Untouched(v, ReadyIn(v, x, migration, task, start), u)
  {
  }

  lemma HandoffsKeepOthers(v: View, token: nat, g: Generation, release: ReleaseOutcome, u: Uin)
    requires token in v.handoffs && v.handoffs[token].uin != u
    ensures Untouched(v, Advance(v, token, g, release), u)
  {
  }

  /** Each event acts on what the one before it left. */
  ghost predicate Chain(views: seq<View>, events: seq<Event>) {
    |views| == |events| + 1 && forall i :: 0 <= i < |events| ==> views[i + 1] == Next(views[i], events[i])
  }

  lemma ChainGrows(views: seq<View>, events: seq<Event>, e: Event)
    requires Chain(views, events)
    ensures Chain(views + [Next(views[|events|], e)], events + [e])
  {
    hide Next;
  }

  class Manager {
    var instances: map<Uin, Generation>
    var retiring: set<Generation>
    var closing: set<Generation>
    var pendingStarts: map<Uin, nat>
    var handoffs: map<nat, Handoff>
    var migrations: map<Uin, Migration>
    var disposed: bool
    var created: set<Generation>
    var released: set<Generation>
    var log: seq<Entry>
    var nextGeneration: nat
    var nextToken: nat
    var nextTask: nat
    /** The manager as it was made, and after every event. */
    ghost var views: seq<View>

    ghost function Now(): View
      reads this
    {
      View(instances, retiring, closing, released, pendingStarts, handoffs, migrations, disposed,
           nextGeneration, nextToken, nextTask)
    }

    ghost predicate Valid()
      reads this
    {
      && GenerationInv(instances, retiring, closing, released, created, nextGeneration)
      && QuietInv(instances.Keys, retiring, pendingStarts)
      && QuietInv(migrations.Keys, retiring, pendingStarts)
      && PendingInv(pendingStarts, handoffs, retiring)
      && HandoffInv(handoffs, retiring + released, nextToken)
      && (forall u :: u in migrations ==> migrations[u].token < nextToken && migrations[u].task < nextTask)
      && (disposed ==> instances == map[] && migrations == map[])
      && LogInv(log, created, released, disposed)
    }

    ghost predicate Quiet(u: Uin)
      reads this
    {
      QuietInv({u}, retiring, pendingStarts)
    }

    /** The account's earlier generations are all disposed or force-released. */
    ghost predicate AllReleased(u: Uin)
      reads this
    {
      forall g :: g in created && g.uin == u ==> g in released
    }

    /** A callback of this migration object and this task that is neither failed nor complete. */
    predicate IsCurrent(u: Uin, migration: nat, task: nat)
      reads this
    {
      && u in migrations && migrations[u].token == migration && migrations[u].task == task
      && migrations[u].phase != Failed && migrations[u].phase != Complete
    }

    /** Whether an event reaches the generations; everything else, stale callbacks included, leaves them alone. */
    ghost predicate Acts(e: Event)
      reads this
    {
      match e
      case Ready(u, migration, task, start) => IsCurrent(u, migration, task) && start == Starts && u !in instances
      case Closed(g, ok) => ok && g in closing
      case Advanced(token, g, release) => release != DisposeFailed && token in handoffs && g in handoffs[token].todo
      case DisposeSettled(g, ok) => ok && disposed && g in retiring
      case DisposeCalled => true
      case _ => false
    }

    constructor ()
      ensures Valid() && created == {} && log == [] && views == [Now()]
      ensures Now() == View(map[], {}, {}, {}, map[], map[], map[], false, 0, 0, 0)
    {
      log := [];
      instances, retiring, closing, pendingStarts, handoffs, migrations := map[], {}, {}, map[], map[], map[];
      disposed, created, released, nextGeneration, nextToken, nextTask := false, {}, {}, 0, 0, 0;
      new;
      views := [Now()];
    }

    method PrepareDatabase(u: Uin)
      requires Valid() && Quiet(u)
      modifies `migrations, `nextToken, `nextTask
      ensures Valid() && Now() == Prepared(old(Now()), u)
    {
      hide LogInv;
      if disposed || u in instances || u in migrations {
        return;
      }
      migrations := migrations[u := Migration(nextToken, nextTask, Preparing, false, false)];
      nextToken, nextTask := nextToken + 1, nextTask + 1;
    }

    method OnSessionStarted(u: Uin)
      requires Valid()
      modifies `migrations, `nextToken, `nextTask, `pendingStarts, `handoffs
      ensures Valid() && Now() == StartedIn(old(Now()), u)
    {
      hide LogInv;
      if disposed || u in instances || u in pendingStarts {
        return;
      }
      var retiringHere := set g | g in retiring && g.uin == u;
      if retiringHere != {} {
        hide GenerationInv, QuietInv, PendingInv, HandoffInv;
        ghost var g :| g in retiringHere;
        HandoffJoins(pendingStarts, handoffs, retiring, released, nextToken, u);
        QuietElsewhere(instances.Keys, retiring, pendingStarts, g, nextToken);
        QuietElsewhere(migrations.Keys, retiring, pendingStarts, g, nextToken);
        pendingStarts := pendingStarts[u := nextToken];
        handoffs := handoffs[nextToken := Handoff(u, retiringHere)];
        nextToken := nextToken + 1;
        return;
      }
      assert forall g :: g in retiring && g.uin == u ==> g in retiringHere;
      PrepareDatabase(u);
    }

    /** Creates an instance, unless one is live or the manager is gone. */
    method StartSession(u: Uin, ok: bool)
      requires Valid() && u in migrations
      modifies `instances, `created, `nextGeneration, `log
      ensures Valid()
      ensures disposed || u in old(instances) || !ok ==> created == old(created) && log == old(log) && Now() == old(Now())
      ensures !disposed && u !in old(instances) && ok ==>
                var g := Generation(old(nextGeneration), u);
                && g !in old(created) && old(AllReleased(u)) && created == old(created) + {g} && log == old(log) + [Began(g)]
                && Now() == old(Now()).(instances := old(instances)[u := g], nextGeneration := old(nextGeneration) + 1)
    {
      hide GenerationInv, QuietInv, PendingInv, HandoffInv, LogInv;
      if disposed || u in instances || !ok {
        return;
      }
      var g := Generation(nextGeneration, u);
      QuietIsReleased(instances, retiring, closing, released, created, nextGeneration, migrations.Keys, pendingStarts, u);
      BeginKeepsGenerations(instances, retiring, closing, released, created, nextGeneration, u);
      QuietGrows(instances.Keys, migrations.Keys, retiring, pendingStarts, u);
      LogGrows(log, created, released, disposed, Began(g));
      assert instances[u := g].Keys == instances.Keys + {u};
      log := log + [Began(g)];
      instances, created, nextGeneration := instances[u := g], created + {g}, nextGeneration + 1;
    }

    method OnReady(u: Uin, migration: nat, task: nat, outcome: StartOutcome)
      requires Valid()
      modifies `instances, `created, `nextGeneration, `migrations, `log
      ensures Valid()
      ensures Now() == ReadyIn(old(Now()), u, migration, task, outcome)
      ensures var begins := old(IsCurrent(u, migration, task)) && outcome == Starts && u !in old(instances);
              var g := Generation(old(nextGeneration), u);
              && log == (if begins then old(log) + [Began(g)] else old(log))
              && created == (if begins then old(created) + {g} else old(created))
              && (begins ==> !disposed && old(AllReleased(u)) && g !in old(created))
    {
      hide LogInv;
      if !IsCurrent(u, migration, task) {
        return;
      }
      if outcome.StartThrows? && u !in instances {
        Fail(u, outcome.retryable);
        return;
      }
      StartSession(u, outcome == Starts);
      migrations := migrations[u := migrations[u].(phase := Migrating, usable := true)];
    }

    method Fail(u: Uin, retryable: bool)
      requires Valid() && u in migrations
      modifies `migrations
      ensures Valid() && Now() == FailedIn(old(Now()), u, retryable)
    {
      migrations := migrations[u := migrations[u].(phase := Failed, retryArmed := migrations[u].retryArmed || retryable)];
    }

    method OnFailed(u: Uin, migration: nat, task: nat, retryable: bool)
      requires Valid()
      modifies `migrations
      ensures Valid() && Now() == Next(old(Now()), MigrationFailed(u, migration, task, retryable))
    {
      if IsCurrent(u, migration, task) {
        Fail(u, retryable);
      }
    }

    method OnProgress(u: Uin, migration: nat, task: nat, complete: bool)
      requires Valid()
      modifies `migrations
      ensures Valid() && Now() == Next(old(Now()), Progress(u, migration, task, complete))
    {
      if IsCurrent(u, migration, task) {
        var phase := if complete then Complete else Migrating;
        migrations := migrations[u := migrations[u].(phase := phase, usable := true)];
      }
    }

    /** The retry timer starts over with a new task, so callbacks of the old one are stale. */
    method RetryFires(u: Uin, migration: nat)
      requires Valid()
      modifies `migrations, `nextTask
      ensures Valid()
      ensures Now() == Next(old(Now()), Retry(u, migration))
      ensures u in old(migrations) && old(migrations)[u].token == migration && old(migrations)[u].retryArmed ==>
                && u in migrations && IsCurrent(u, migration, old(nextTask))
                && !IsCurrent(u, migration, old(migrations)[u].task)
    {
      if u !in migrations || migrations[u].token != migration || !migrations[u].retryArmed {
        return;
      }
      var m := migrations[u];
      migrations := migrations[u := m.(task := nextTask, phase := if m.usable then Migrating else Preparing, retryArmed := false)];
      nextTask := nextTask + 1;
    }

    method OnSessionClosed(u: Uin)
      requires Valid()
      modifies `instances, `retiring, `closing, `pendingStarts, `migrations
      ensures Valid() && Now() == ClosedIn(old(Now()), u)
      ensures !disposed ==> pendingStarts == old(pendingStarts) - {u} && u !in instances && u !in migrations
    {
      hide GenerationInv, QuietInv, PendingInv, HandoffInv, LogInv;
      if disposed {
        return;
      }
      assert QuietInv(migrations.Keys - {u}, retiring, pendingStarts) by { FewerQuiet(migrations.Keys, retiring, pendingStarts, u); }
      assert (migrations - {u}).Keys == migrations.Keys - {u};
      LivesNeverWait(instances.Keys, retiring, pendingStarts, u);
      migrations := migrations - {u};
      if u !in instances {
        FewerPending(instances.Keys, retiring, pendingStarts, u);
        FewerPending(migrations.Keys, retiring, pendingStarts, u);
        PendingDrops(pendingStarts, handoffs, retiring, u);
        pendingStarts := pendingStarts - {u};
        return;
      }
      Retire(u);
    }

    /** A live instance starts to retire; its own close path will dispose it. */
    method Retire(u: Uin)
      requires Valid() && u in instances && u !in migrations
      modifies `instances, `retiring, `closing
      ensures Valid() && instances == old(instances) - {u}
      ensures retiring == old(retiring) + {old(instances)[u]} && closing == old(closing) + {old(instances)[u]}
    {
      hide LogInv;
      var g := instances[u];
      instances, retiring, closing := instances - {u}, retiring + {g}, closing + {g};
      assert QuietInv(instances.Keys, retiring, pendingStarts);
      assert QuietInv(migrations.Keys, retiring, pendingStarts);
      assert PendingInv(pendingStarts, handoffs, retiring);
    }

    method RetirementSucceeded(g: Generation)
      requires Valid() && g in retiring + released
      modifies `retiring, `released, `log
      ensures Valid() && Now() == ReleasedIn(old(Now()), g) && log == old(log) + [Ended(g)]
    {
      hide GenerationInv, PendingInv, HandoffInv, LogInv;
      FewerRetire(instances, retiring, closing, released, created, nextGeneration, g);
      assert PendingInv(pendingStarts, handoffs, retiring - {g}) by { PendingOnFewer(pendingStarts, handoffs, retiring, g); }
      LogGrows(log, created, released, disposed, Ended(g));
      log := log + [Ended(g)];
      retiring, released := retiring - {g}, released + {g};
    }

    /** The close path's own dispose settles: the offline notice was sent, then the instance shut down or failed to. */
    method CloseSettles(g: Generation, ok: bool)
      requires Valid() && g in closing
      modifies `closing, `retiring, `released, `log
      ensures Valid() && Now() == Next(old(Now()), Closed(g, ok)) && log == old(log) + if ok then [Ended(g)] else []
    {
      closing := closing - {g};
      if ok {
        RetirementSucceeded(g);
      }
    }

    /**
     One instance of a handoff is released, forced, or fails to dispose. The last release
     prepares the replacement, if this handoff is still the pending one.
     */
    method HandoffAdvances(token: nat, g: Generation, outcome: ReleaseOutcome)
      requires Valid() && token in handoffs && g in handoffs[token].todo
      modifies `retiring, `released, `handoffs, `pendingStarts, `migrations, `nextToken, `nextTask, `log
      ensures Valid() && log == old(log) + if outcome == DisposeFailed then [] else [Ended(g)]
      ensures Now() == Advance(old(Now()), token, g, outcome)
      ensures migrations != old(migrations) ==> !disposed && outcome != DisposeFailed && AllReleased(g.uin)
    {
      hide LogInv;
      if outcome == DisposeFailed {
        FailHandoff(token);
        return;
      }
      RetirementSucceeded(g);
      handoffs := handoffs[token := handoffs[token].(todo := handoffs[token].todo - {g})];
      if handoffs[token].todo == {} {
        FinishHandoff(token);
      }
    }

    /** A failed handoff does not keep the account guarded: a later start may retry. */
    method FailHandoff(token: nat)
      requires Valid() && token in handoffs
      modifies `handoffs, `pendingStarts
      ensures Valid() && Now() == Left(old(Now()), token)
    {
      hide GenerationInv, QuietInv, PendingInv, HandoffInv, LogInv;
      HandoffLeaves(pendingStarts, handoffs, retiring, retiring + released, nextToken, token);
      FewerPending(instances.Keys, retiring, pendingStarts, handoffs[token].uin);
      FewerPending(migrations.Keys, retiring, pendingStarts, handoffs[token].uin);
      var u := handoffs[token].uin;
      if u in pendingStarts && pendingStarts[u] == token {
        pendingStarts := pendingStarts - {u};
      }
      handoffs := handoffs - {token};
    }

    /** Everything this handoff waited for is released: it starts the account if it is still the pending one. */
    method FinishHandoff(token: nat)
      requires Valid() && token in handoffs && handoffs[token].todo == {}
      modifies `handoffs, `pendingStarts, `migrations, `nextToken, `nextTask
      ensures Valid() && Now() == Finished(old(Now()), token)
      ensures migrations != old(migrations) ==> !disposed && AllReleased(old(handoffs)[token].uin)
    {
      hide GenerationInv, LogInv;
      HandoffLeaves(pendingStarts, handoffs, retiring, retiring + released, nextToken, token);
      FewerPending(instances.Keys, retiring, pendingStarts, handoffs[token].uin);
      FewerPending(migrations.Keys, retiring, pendingStarts, handoffs[token].uin);
      var u := handoffs[token].uin;
      var wasPending := u in pendingStarts && pendingStarts[u] == token;
      if wasPending {
        pendingStarts := pendingStarts - {u};
      }
      handoffs := handoffs - {token};
      if !wasPending || disposed {
        return;
      }
      QuietIsReleased(instances, retiring, closing, released, created, nextGeneration, {u}, pendingStarts, u);
      PrepareDatabase(u);
    }

    method Dispose()
      requires Valid()
      modifies `disposed, `migrations, `retiring, `instances, `log
      ensures Valid() && Now() == Next(old(Now()), DisposeCalled) && log == old(log) + [Shutdown]
    {
      hide GenerationInv, QuietInv, PendingInv, HandoffInv, LogInv;
      OwnUins(instances, retiring, closing, released, created, nextGeneration);
      RetireAllKeepsGenerations(instances, retiring, closing, released, created, nextGeneration);
      RetireAllKeepsHandoffs(instances, retiring, released, pendingStarts, handoffs, nextToken);
      LogGrows(log, created, released, disposed, Shutdown);
      log := log + [Shutdown];
      disposed := true;
      migrations := map[];
      retiring := retiring + instances.Values;
      instances := map[];
      assert instances.Keys == {} == migrations.Keys;
    }

    /** Disposal's retry of one instance settles. */
    method DisposeSettles(g: Generation, ok: bool)
      requires Valid() && disposed && g in retiring
      modifies `retiring, `released, `log
      ensures Valid() && Now() == Next(old(Now()), DisposeSettled(g, ok))
      ensures log == old(log) + if ok then [Ended(g)] else []
    {
      if ok {
        RetirementSucceeded(g);
      }
    }

    method Note()
      requires Valid()
      modifies `views
      ensures Valid() && views == old(views) + [Now()]
    {
      hide GenerationInv, QuietInv, PendingInv, HandoffInv, LogInv;
      views := views + [Now()];
    }

    method Hear(e: Event)
      requires Valid()
      modifies `log
      ensures Valid() && log == old(log) + [Heard(e)]
    {
      hide LogInv;
      LogGrows(log, created, released, disposed, Heard(e));
      log := log + [Heard(e)];
    }
  }

  datatype Event =
    | SessionStarted(uin: Uin)
    | SessionClosed(uin: Uin)
    | Ready(uin: Uin, migration: nat, task: nat, start: StartOutcome)
    | Progress(uin: Uin, migration: nat, task: nat, complete: bool)
    | MigrationFailed(uin: Uin, migration: nat, task: nat, retryable: bool)
    | Retry(uin: Uin, migration: nat)
    | Closed(generation: Generation, ok: bool)
    | Advanced(token: nat, generation: Generation, release: ReleaseOutcome)
    | DisposeCalled
    | DisposeSettled(generation: Generation, ok: bool)

  /** A dispose settles, on its own, inside a handoff or at shutdown. */
  method HandleRelease(m: Manager, e: Event)
    requires m.Valid() && (e.Closed? || e.Advanced? || e.DisposeSettled?)
    modifies m
    ensures m.Valid() && m.created == old(m.created) && m.views == old(m.views) && m.Now() == Next(old(m.Now()), e)
    ensures m.log == old(m.log) + if old(m.Acts(e)) then [Ended(e.generation)] else []
  {
    hide GenerationInv, QuietInv, PendingInv, HandoffInv, LogInv;
    match e
    case Closed(g, ok) => if g in m.closing { m.CloseSettles(g, ok); }
    case Advanced(token, g, release) =>
      if token in m.handoffs && g in m.handoffs[token].todo { m.HandoffAdvances(token, g, release); }
    case DisposeSettled(g, ok) => if m.disposed && g in m.retiring { m.DisposeSettles(g, ok); }
  }

  method HandleMigration(m: Manager, e: Event)
    requires m.Valid() && (e.Progress? || e.MigrationFailed? || e.Retry?)
    modifies m
    ensures m.Valid() && m.created == old(m.created) && m.views == old(m.views) && m.log == old(m.log)
    ensures m.Now() == Next(old(m.Now()), e)
  {
    hide GenerationInv, QuietInv, PendingInv, HandoffInv, LogInv;
    match e
    case Progress(u, migration, task, complete) => m.OnProgress(u, migration, task, complete);
    case MigrationFailed(u, migration, task, retryable) => m.OnFailed(u, migration, task, retryable);
    case Retry(u, migration) => m.RetryFires(u, migration);
  }

  method HandleSession(m: Manager, e: Event)
    requires m.Valid() && (e.SessionStarted? || e.SessionClosed? || e.Ready? || e.DisposeCalled?)
    modifies m
    ensures m.Valid() && m.views == old(m.views) && m.Now() == Next(old(m.Now()), e)
    ensures var g := if e.Ready? then Generation(old(m.nextGeneration), e.uin) else Generation(0, "");
            var begins := e.Ready? && old(m.Acts(e));
            && m.created == (if begins then old(m.created) + {g} else old(m.created))
            && (begins ==> old(m.AllReleased(e.uin)) && g !in old(m.created))
            && m.log == old(m.log) + (if begins then [Began(g)] else if e == DisposeCalled then [Shutdown] else [])
  {
    hide GenerationInv, QuietInv, PendingInv, HandoffInv, LogInv, Prepared;
    match e
    case SessionStarted(u) => m.OnSessionStarted(u);
    case SessionClosed(u) => m.OnSessionClosed(u);
    case Ready(u, migration, task, start) => m.OnReady(u, migration, task, start);
    case DisposeCalled => m.Dispose();
  }

  /** One edge, callback, timer or settled promise; stale and impossible ones change nothing. */
  method Handle(m: Manager, e: Event) returns (ghost effect: seq<Entry>)
    requires m.Valid()
    modifies m
    ensures m.Valid() && old(m.created) <= m.created && old(m.released) <= m.released
    ensures old(m.disposed) ==> m.disposed && m.created == old(m.created)
    ensures forall g :: g in m.created && g !in old(m.created) ==> !m.disposed && old(m.AllReleased(g.uin))
    ensures m.log == old(m.log) + [Heard(e)] + effect && |effect| <= 1 && (effect != [] ==> Follows(e, effect[0]))
    ensures effect != [] <==> old(m.Acts(e))
    ensures m.Now() == Next(old(m.Now()), e) && m.views == old(m.views) + [m.Now()]
  {
    hide GenerationInv, QuietInv, PendingInv, HandoffInv, LogInv, Next;
    NextKeepsReleased(m.Now(), e);
    m.Hear(e);
    if e.Progress? || e.MigrationFailed? || e.Retry? {
      HandleMigration(m, e);
    } else if e.SessionStarted? || e.SessionClosed? || e.Ready? || e.DisposeCalled? {
      HandleSession(m, e);
    } else {
      HandleRelease(m, e);
    }
    effect := m.log[|old(m.log)| + 1..];
    m.Note();
  }

  /** Released stays released and disposed stays disposed. */
  lemma NextKeepsReleased(v: View, e: Event)
    ensures v.released <= Next(v, e).released && (v.disposed ==> Next(v, e).disposed)
    ensures Next(v, e).disposed == (v.disposed || e == DisposeCalled)
  {
    hide Advance, StartedIn, ClosedIn, ReadyIn;
    match e
    case SessionStarted(u) => SessionsReleaseNothing(v, u, 0, 0, Starts);
    case SessionClosed(u) => SessionsReleaseNothing(v, u, 0, 0, Starts);
    case Ready(u, migration, task, start) => SessionsReleaseNothing(v, u, migration, task, start);
    case Advanced(token, g, release) =>
      if token in v.handoffs {
        HandoffsOnlyRelease(v, token, g, release);
      }
    case _ =>
  }

  lemma SessionsReleaseNothing(v: View, u: Uin, migration: nat, task: nat, start: StartOutcome)
    ensures StartedIn(v, u).released == ClosedIn(v, u).released == ReadyIn(v, u, migration, task, start).released == v.released
    ensures StartedIn(v, u).disposed == ClosedIn(v, u).disposed == ReadyIn(v, u, migration, task, start).disposed == v.disposed
  {
  }

  lemma HandoffsOnlyRelease(v: View, token: nat, g: Generation, release: ReleaseOutcome)
    requires token in v.handoffs
    ensures v.released <= Advance(v, token, g, release).released && Advance(v, token, g, release).disposed == v.disposed
  {
  }

  lemma HeardGrows(log: seq<Entry>, e: Event, effect: seq<Entry>)
    requires Caused(log) && |effect| <= 1 && (effect != [] ==> Follows(e, effect[0]))
    requires e == DisposeCalled ==> effect == [Shutdown]
    ensures Caused(log + [Heard(e)] + effect) && EventsIn(log + [Heard(e)] + effect) == EventsIn(log) + [e]
  {
    var one := log + [Heard(e)];
    assert one[..|log|] == log;
    if effect != [] {
      assert (one + effect)[..|one|] == one;
    } else {
      assert one + effect == one;
    }
  }

  /**
   Any run of the manager, read off its log: it heard exactly these events, a generation began
   only when all its account's earlier ones had ended, none began after dispose was called, and
   at no point does an account have two generations that began and did not end.
   */
  method Drive(events: seq<Event>) returns (m: Manager)
    ensures m.Valid() && EventsIn(m.log) == events && Caused(m.log)
    ensures m.created == BegunIn(m.log) && m.released == EndedIn(m.log)
    ensures BeginsInTurn(m.log) && NoneAfterDispose(m.log) && NeverOverlaps(m.log)
    ensures Chain(m.views, events) && m.views[|events|] == m.Now()
    ensures m.views[0] == View(map[], {}, {}, {}, map[], map[], map[], false, 0, 0, 0)
  {
    hide GenerationInv, QuietInv, PendingInv, HandoffInv, LogInv, EventsIn, Caused, Orderly, BegunIn, EndedIn, Next;
    m := new Manager();
    EmptyLog();
    for k := 0 to |events|
      invariant fresh(m) && m.Valid() && Caused(m.log) && EventsIn(m.log) == events[..k]
      invariant |m.views| == k + 1 && m.views[k] == m.Now() && Chain(m.views, events[..k])
      invariant m.views[0] == View(map[], {}, {}, {}, map[], map[], map[], false, 0, 0, 0)
    {
      ghost var seen := m.views;
      ghost var was := m.log;
      ghost var effect := Handle(m, events[k]);
      HeardGrows(was, events[k], effect);
      ChainGrows(seen, events[..k], events[k]);
      assert events[..k + 1] == events[..k] + [events[k]];
    }
    assert events[..|events|] == events;
    LogFacts(m.log, m.created, m.released, m.disposed);
    RunFacts(m.log);
  }

  lemma EmptyLog()
    ensures Caused([]) && EventsIn([]) == []
  {
  }

  lemma LogFacts(log: seq<Entry>, created: set<Generation>, released: set<Generation>, disposed: bool)
    requires LogInv(log, created, released, disposed)
    ensures Orderly(log) && created == BegunIn(log) && released == EndedIn(log)
  {
  }

  /** Of two generations of one account, the earlier one had ended when the later one began. */
  ghost predicate BeginsInTurn(log: seq<Entry>) {
    forall i, j :: 0 <= i < j < |log| && log[i].Began? && log[j].Began?
                   && log[i].generation.uin == log[j].generation.uin ==>
      log[i].generation in EndedIn(log[..j]) && log[i].generation != log[j].generation
  }

  ghost predicate NoneAfterDispose(log: seq<Entry>) {
    forall i, j :: 0 <= i < j < |log| && log[i] == Heard(DisposeCalled) ==> !log[j].Began?
  }

  /** The generations that have begun and not ended. */
  ghost function LiveIn(log: seq<Entry>): set<Generation> {
    BegunIn(log) - EndedIn(log)
  }

  /** At no point of the log does an account have two live generations. */
  ghost predicate NeverOverlaps(log: seq<Entry>) {
    forall k, g, h :: 0 <= k <= |log| && g in LiveIn(log[..k]) && h in LiveIn(log[..k]) && g.uin == h.uin ==> g == h
  }

  lemma ShutBehind(log: seq<Entry>, i: nat)
    requires Caused(log) && i < |log| && log[i] == Heard(DisposeCalled)
    ensures i + 1 < |log| && log[i + 1] == Shutdown
  {
  }

  lemma RunFacts(log: seq<Entry>)
    requires Orderly(log) && Caused(log)
    ensures BeginsInTurn(log) && NoneAfterDispose(log) && NeverOverlaps(log)
  {
    forall i, j | 0 <= i < j < |log| && log[i].Began? && log[j].Began? && log[i].generation.uin == log[j].generation.uin
      ensures log[i].generation in EndedIn(log[..j]) && log[i].generation != log[j].generation
    {
      EarlierEnded(log, i, j);
      assert log[..j][i] == log[i];
    }
    forall i, j | 0 <= i < j < |log| && log[i] == Heard(DisposeCalled)
      ensures !log[j].Began?
    {
      ShutBehind(log, i);
      assert i + 1 < j ==> log[i + 1] in log[..j];
    }
    forall k, g, h | 0 <= k <= |log| && g in LiveIn(log[..k]) && h in LiveIn(log[..k]) && g.uin == h.uin
      ensures g == h
    {
      assert Orderly(log[..k]) by {
        assert forall i :: 0 <= i < k ==> log[..k][..i] == log[..i];
      }
      NeverTwo(log[..k], g, h);
    }
  }
}
