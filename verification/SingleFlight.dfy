/**
 TTL cache with request deduplication (packages/common/src/single-flight-cache.ts).

 `entries` is a JavaScript Map, so its order of insertion is part of the state. A `Task` is
 one call of the loader. The clock is passed in and never runs backwards.
 */
module SingleFlight {
  import opened Options

  type Task = nat

  datatype Ttl = Finite(ms: int) | Infinite

  /** `task` is the load that produced the value; the source keeps only time and value. */
  datatype Entry<K, V> = Entry(key: K, at: int, value: V, task: Task)

  datatype Timer = Timer(due: int, armedAt: int)

  datatype Answer<V> = Hit(value: V) | Joined(task: Task) | Started(task: Task) | Refused

  predicate ExpiredAt(ttl: Ttl, at: int, now: int) {
    ttl.Finite? && now - at >= ttl.ms
  }

  /** The time until the oldest entry expires, within what a timer can wait. */
  function Delay(ms: int, oldest: int, now: int): int {
    var wait := oldest + ms - now;
    if wait < 1 then 1 else if wait > 2147483647 then 2147483647 else wait
  }

  function Index<K(==, !new), V(!new)>(entries: seq<Entry<K, V>>, key: K): (i: Option<nat>)
    ensures i.Some? ==> i.value < |entries| && entries[i.value].key == key
    ensures i.None? ==> forall j :: 0 <= j < |entries| ==> entries[j].key != key
  {
    if entries == [] then None
    else if entries[|entries| - 1].key == key then Some(|entries| - 1)
    else Index(entries[..|entries| - 1], key)
  }

  /** A map without one key, in the same order. */
  function Without<K(==, !new), V(!new)>(entries: seq<Entry<K, V>>, key: K): (r: seq<Entry<K, V>>)
    ensures |r| <= |entries|
    ensures forall e :: e in r <==> e in entries && e.key != key
  {
    if entries == [] then []
    else if entries[0].key == key then Without(entries[1..], key)
    else [entries[0]] + Without(entries[1..], key)
  }

  /** Ordered by load time, one entry per key. */
  ghost predicate Ordered<K(!new), V(!new)>(entries: seq<Entry<K, V>>) {
    && (forall i, j :: 0 <= i < j < |entries| ==> entries[i].at <= entries[j].at)
    && (forall i, j :: 0 <= i < j < |entries| ==> entries[i].key != entries[j].key)
  }

  lemma {:induction false} WithoutKeepsOrder<K(!new), V(!new)>(entries: seq<Entry<K, V>>, key: K)
    requires Ordered(entries)
    ensures Ordered(Without(entries, key))
  {
    if entries != [] {
      var rest := Without(entries[1..], key);
      WithoutKeepsOrder(entries[1..], key);
      if entries[0].key != key {
        forall j | 0 <= j < |rest|
          ensures entries[0].at <= rest[j].at && entries[0].key != rest[j].key
        {
          assert rest[j] in rest;
          assert rest[j] in entries[1..];
        }
      }
    }
  }

  /** What survives a sweep at `now`, entry by entry. */
  function Unexpired<K(!new), V(!new)>(entries: seq<Entry<K, V>>, ttl: Ttl, now: int): seq<Entry<K, V>> {
    if entries == [] then []
    else if ExpiredAt(ttl, entries[0].at, now) then Unexpired(entries[1..], ttl, now)
    else [entries[0]] + Unexpired(entries[1..], ttl, now)
  }

  /** In time order, a live first entry means everything after it is live too. */
  lemma {:induction false} NothingExpiredAfter<K(!new), V(!new)>(entries: seq<Entry<K, V>>, ttl: Ttl, now: int)
    requires Ordered(entries) && (entries != [] ==> !ExpiredAt(ttl, entries[0].at, now))
    ensures Unexpired(entries, ttl, now) == entries
  {
    if entries != [] {
      NothingExpiredAfter(entries[1..], ttl, now);
    }
  }

  /** With a finite TTL a timer is armed exactly while anything is cached, due by the oldest expiry or 1 ms after arming. */
  ghost predicate TimerInv<K(!new), V(!new)>(ttl: Ttl, entries: seq<Entry<K, V>>, timer: Option<Timer>) {
    && (ttl.Finite? && ttl.ms <= 0 ==> entries == [])
    && (ttl.Finite? && entries != [] ==>
          timer.Some? && (timer.value.due <= entries[0].at + ttl.ms || timer.value.due == timer.value.armedAt + 1))
    && (ttl == Infinite || entries == [] ==> timer == None)
  }

  /** Nothing cached was loaded in the future. */
  ghost predicate Past<K(!new), V(!new)>(entries: seq<Entry<K, V>>, clock: int) {
    forall i :: 0 <= i < |entries| ==> entries[i].at <= clock
  }

  /** Removing entries never makes the first one older. */
  lemma WithoutKeepsTimer<K(!new), V(!new)>(ttl: Ttl, entries: seq<Entry<K, V>>, key: K, timer: Option<Timer>)
    requires TimerInv(ttl, entries, timer) && Ordered(entries)
    ensures Without(entries, key) != [] ==> TimerInv(ttl, Without(entries, key), timer)
  {
    var kept := Without(entries, key);
    if kept != [] {
      assert kept[0] in entries;
    }
  }

  lemma SomeArePast<K(!new), V(!new)>(entries: seq<Entry<K, V>>, kept: seq<Entry<K, V>>, clock: int)
    requires Past(entries, clock) && forall e :: e in kept ==> e in entries
    ensures Past(kept, clock)
  {
    forall i | 0 <= i < |kept| ensures kept[i].at <= clock {
      assert kept[i] in entries;
    }
  }

  lemma AppendKeepsOrder<K(!new), V(!new)>(entries: seq<Entry<K, V>>, e: Entry<K, V>)
    requires Ordered(entries) && forall d :: d in entries ==> d.key != e.key && d.at <= e.at
    ensures Ordered(entries + [e])
  {
    assert forall i :: 0 <= i < |entries| ==> entries[i] in entries;
  }

  // ------------------------------------------------------------------ the log of a run

  datatype Event<K, V> =
    | Asked(key: K, force: bool)
    | Resolved(task: Task, value: V, cacheable: bool)
    | Settled(task: Task)
    | Invalidated(key: K)
    | Cleared
    | Disposed
    | TimerDue

  /**
   What the cache went through: every event it heard, and what that made it do. A caller is
   given a cached entry, shares the attached load, or begins one; a load stores its value and
   frees its slot; a key, or with None every key, is forgotten; the cache is closed.
   */
  datatype LogEntry<K, V> =
    | Heard(event: Event<K, V>, now: int)
    | Gave(entry: Entry<K, V>, now: int)
    | Shared(task: Task, key: K)
    | Began(task: Task, key: K)
    | Stored(entry: Entry<K, V>)
    | Freed(task: Task)
    | Forgot(which: Option<K>)
    | Closed

  ghost predicate Forgets<K(!new), V(!new)>(e: LogEntry<K, V>, key: K) {
    e.Closed? || (e.Forgot? && (e.which == None || e.which == Some(key)))
  }

  /** The load was begun for this key, and the key was not forgotten since. */
  ghost predicate Attached<K(!new), V(!new)>(log: seq<LogEntry<K, V>>, task: Task, key: K) {
    exists j :: 0 <= j < |log| && log[j] == Began(task, key) && forall m :: j < m < |log| ==> !Forgets(log[m], key)
  }

  /** The load was begun for this key, is attached to it, and has not settled. */
  ghost predicate Pending<K(!new), V(!new)>(log: seq<LogEntry<K, V>>, task: Task, key: K) {
    Attached(log, task, key) && Freed(task) !in log
  }

  /** The value stored last under its key, which was not forgotten since. */
  ghost predicate Latest<K(!new), V(!new)>(log: seq<LogEntry<K, V>>, e: Entry<K, V>) {
    exists j :: 0 <= j < |log| && log[j] == Stored(e) && forall m :: j < m < |log| ==> !Replaces(log[m], e.key)
  }

  /** The key is forgotten, or has another value stored. */
  ghost predicate Replaces<K(!new), V(!new)>(x: LogEntry<K, V>, key: K) {
    Forgets(x, key) || (x.Stored? && x.entry.key == key)
  }

  /** The caller just heard cannot be given anything: it insists on a load, or nothing younger than the TTL is stored. */
  ghost predicate Unserved<K(!new), V(!new)>(log: seq<LogEntry<K, V>>, key: K, ttl: Ttl) {
    && log != [] && log[|log| - 1].Heard?
    && (log[|log| - 1].event == Asked(key, false) ==>
          forall e :: Latest(log, e) && e.key == key ==> ExpiredAt(ttl, e.at, log[|log| - 1].now))
  }

  /** What may come next: the promises of the cache, one kind of entry at a time. */
  ghost predicate Allowed<K(!new), V(!new)>(before: seq<LogEntry<K, V>>, e: LogEntry<K, V>, ttl: Ttl) {
    match e
    case Gave(entry, now) =>
      // a hit is younger than the TTL, was stored last, and its key was not forgotten since its load began
      && Closed !in before && Latest(before, entry) && Attached(before, entry.task, entry.key)
      && !ExpiredAt(ttl, entry.at, now)
    case Shared(task, key) => Closed !in before && Pending(before, task, key) && Unserved(before, key, ttl)
    case Began(task, key) =>
      // one attached load per key
      && Closed !in before && (forall t :: !Pending(before, t, key)) && (forall k :: Began(task, k) !in before)
      && Unserved(before, key, ttl)
    case Stored(entry) =>
      // a load that its key was forgotten under stores nothing
      Closed !in before && Pending(before, entry.task, entry.key) && (ttl.Finite? ==> ttl.ms > 0)
    case _ => true
  }

  ghost predicate Orderly<K(!new), V(!new)>(log: seq<LogEntry<K, V>>, ttl: Ttl) {
    forall i :: 0 <= i < |log| ==> Allowed(log[..i], log[i], ttl)
  }

  /** What an event can make the cache do. */
  ghost predicate Follows<K(!new), V(!new)>(event: Event<K, V>, now: int, e: LogEntry<K, V>) {
    match e
    case Heard(_, _) => false
    case Gave(entry, at) => event == Asked(entry.key, false) && at == now
    case Shared(_, key) => event.Asked? && event.key == key
    case Began(_, key) => event.Asked? && event.key == key
    case Stored(entry) => event == Resolved(entry.task, entry.value, true) && entry.at == now
    case Freed(task) => event == Settled(task)
    case Forgot(which) => if which.Some? then event == Invalidated(which.value) else event == Cleared
    case Closed => event == Disposed
  }

  /** What an event cannot fail to do: invalidations forget, and until disposal every caller is served. */
  ghost predicate MustAct<K(!new), V(!new)>(before: seq<LogEntry<K, V>>, event: Event<K, V>) {
    event.Invalidated? || event.Cleared? || event.Disposed? || (event.Asked? && Closed !in before)
  }

  ghost predicate Caused<K(!new), V(!new)>(log: seq<LogEntry<K, V>>) {
    && (forall i :: 0 <= i < |log| && !log[i].Heard? ==>
          i > 0 && log[i - 1].Heard? && Follows(log[i - 1].event, log[i - 1].now, log[i]))
    && (forall i :: 0 <= i < |log| && log[i].Heard? && MustAct(log[..i], log[i].event) ==>
          i + 1 < |log| && !log[i + 1].Heard?)
  }

  /** What was heard, and when. */
  ghost function HeardIn<K(!new), V(!new)>(log: seq<LogEntry<K, V>>): seq<(Event<K, V>, int)> {
    if log == [] then []
    else
      var init, last := HeardIn(log[..|log| - 1]), log[|log| - 1];
      if last.Heard? then init + [(last.event, last.now)] else init
  }

  /** Events that come one after the other, each so long after the one before. */
  ghost function Timed<K(!new), V(!new)>(start: int, events: seq<Event<K, V>>, delays: seq<nat>): seq<(Event<K, V>, int)>
    requires |delays| == |events|
    decreases |events|
  {
    if events == [] then [] else [(events[0], start + delays[0])] + Timed(start + delays[0], events[1..], delays[1..])
  }

  lemma {:induction false} TimedThen<K(!new), V(!new)>(start: int, events: seq<Event<K, V>>, delays: seq<nat>, e: Event<K, V>, d: nat)
    requires |delays| == |events|
    ensures var t := Timed(start, events, delays);
            Timed(start, events + [e], delays + [d]) == t + [(e, (if t == [] then start else t[|t| - 1].1) + d)]
    decreases |events|
  {
    if events == [] {
      assert events + [e] == [e] && delays + [d] == [d];
    } else {
      var first, more, longer := (events[0], start + delays[0]), events + [e], delays + [d];
      var rest := Timed(start + delays[0], events[1..], delays[1..]);
      assert more[0] == events[0] && longer[0] == delays[0] && more[1..] == events[1..] + [e] && longer[1..] == delays[1..] + [d];
      assert Timed(start, more, longer) == [first] + Timed(start + delays[0], more[1..], longer[1..]);
      TimedThen(start + delays[0], events[1..], delays[1..], e, d);
      hide Timed;
      assert rest != [] ==> ([first] + rest)[|rest|] == rest[|rest| - 1];
    }
  }

  // ---------- the state, as the log tells it ----------

  ghost predicate EntriesLogged<K(!new), V(!new)>(log: seq<LogEntry<K, V>>, entries: seq<Entry<K, V>>) {
    forall i :: 0 <= i < |entries| ==> Latest(log, entries[i]) && Attached(log, entries[i].task, entries[i].key)
  }

  /** What was stored last under a key is cached, unless it has expired. */
  ghost predicate NothingMissed<K(!new), V(!new)>(log: seq<LogEntry<K, V>>, entries: seq<Entry<K, V>>, ttl: Ttl, clock: int) {
    forall e :: Latest(log, e) ==> e in entries || ExpiredAt(ttl, e.at, clock)
  }

  /** The slots are exactly the pending loads. */
  ghost predicate FlightLogged<K(!new), V(!new)>(log: seq<LogEntry<K, V>>, inflight: map<K, Task>) {
    && (forall k :: k in inflight ==> Pending(log, inflight[k], k))
    && (forall t, k :: Pending(log, t, k) ==> k in inflight && inflight[k] == t)
  }

  ghost predicate TasksLogged<K(!new), V(!new)>(log: seq<LogEntry<K, V>>, keyOf: map<Task, K>, next: Task) {
    && (forall t, k :: Began(t, k) in log <==> t in keyOf && keyOf[t] == k)
    && (forall t :: t in keyOf ==> t < next)
    && (forall t: Task :: Freed(t) in log ==> t < next)
  }

  /** One entry more: what is attached then. */
  lemma {:induction false} AttachedThen<K(!new), V(!new)>(log: seq<LogEntry<K, V>>, e: LogEntry<K, V>)
    ensures forall t, k :: Attached(log + [e], t, k) <==> e == Began(t, k) || (Attached(log, t, k) && !Forgets(e, k))
  {
    var more := log + [e];
    forall t, k
      ensures Attached(more, t, k) <==> e == Began(t, k) || (Attached(log, t, k) && !Forgets(e, k))
    {
      if Attached(more, t, k) {
        var j :| 0 <= j < |more| && more[j] == Began(t, k) && forall m :: j < m < |more| ==> !Forgets(more[m], k);
        if j < |log| {
          assert log[j] == Began(t, k);
          assert forall m :: j < m < |log| ==> more[m] == log[m];
          assert !Forgets(more[|log|], k);
        }
      }
      if e == Began(t, k) {
        assert more[|log|] == Began(t, k);
      } else if Attached(log, t, k) && !Forgets(e, k) {
        var j :| 0 <= j < |log| && log[j] == Began(t, k) && forall m :: j < m < |log| ==> !Forgets(log[m], k);
        assert more[j] == Began(t, k);
        assert forall m :: j < m < |more| ==> more[m] == if m < |log| then log[m] else e;
      }
    }
  }

  /** One entry more: what is stored last then. */
  lemma {:induction false} LatestThen<K(!new), V(!new)>(log: seq<LogEntry<K, V>>, x: LogEntry<K, V>)
    ensures forall e :: Latest(log + [x], e) <==> x == Stored(e) || (Latest(log, e) && !Replaces(x, e.key))
  {
    var more := log + [x];
    hide Replaces;
    forall e ensures Latest(more, e) <==> x == Stored(e) || (Latest(log, e) && !Replaces(x, e.key)) {
      if Latest(more, e) {
        var j :| 0 <= j < |more| && more[j] == Stored(e) && forall m :: j < m < |more| ==> !Replaces(more[m], e.key);
        if j < |log| {
          assert log[j] == Stored(e);
          assert forall m :: j < m < |log| ==> more[m] == log[m];
          assert !Replaces(more[|log|], e.key);
        }
      }
      if x == Stored(e) {
        assert more[|log|] == Stored(e);
      } else if Latest(log, e) && !Replaces(x, e.key) {
        var j :| 0 <= j < |log| && log[j] == Stored(e) && forall m :: j < m < |log| ==> !Replaces(log[m], e.key);
        assert more[j] == Stored(e);
        assert forall m :: j < m < |more| ==> more[m] == if m < |log| then log[m] else x;
      }
    }
  }

  /** Nothing is missed as long as only what is replaced goes. */
  lemma MissedThen<K(!new), V(!new)>(log: seq<LogEntry<K, V>>, x: LogEntry<K, V>, entries: seq<Entry<K, V>>, kept: seq<Entry<K, V>>,
                                     ttl: Ttl, clock: int)
    requires NothingMissed(log, entries, ttl, clock) && (x.Stored? ==> x.entry in kept)
    requires forall d :: d in entries ==> d in kept || Replaces(x, d.key)
    ensures NothingMissed(log + [x], kept, ttl, clock)
  {
    hide Latest;
    LatestThen(log, x);
  }

  /** What has expired stays expired. */
  lemma MissedLater<K(!new), V(!new)>(log: seq<LogEntry<K, V>>, entries: seq<Entry<K, V>>, ttl: Ttl, clock: int, now: int)
    requires NothingMissed(log, entries, ttl, clock) && clock <= now
    ensures NothingMissed(log, entries, ttl, now)
  {
    hide Latest;
  }

  lemma FirstExpired<K(!new), V(!new)>(log: seq<LogEntry<K, V>>, entries: seq<Entry<K, V>>, ttl: Ttl, now: int)
    requires NothingMissed(log, entries, ttl, now) && entries != [] && ExpiredAt(ttl, entries[0].at, now)
    ensures NothingMissed(log, entries[1..], ttl, now)
  {
    hide Latest;
    assert entries == [entries[0]] + entries[1..];
  }

  lemma PendingThen<K(!new), V(!new)>(log: seq<LogEntry<K, V>>, e: LogEntry<K, V>)
    requires e.Began? ==> Freed(e.task) !in log
    ensures forall t, k :: Pending(log + [e], t, k) <==>
              e == Began(t, k) || (Pending(log, t, k) && !Forgets(e, k) && e != Freed(t))
  {
    hide Attached;
    AttachedThen(log, e);
  }

  lemma OrderlyThen<K(!new), V(!new)>(log: seq<LogEntry<K, V>>, e: LogEntry<K, V>, ttl: Ttl)
    requires Orderly(log, ttl) && Allowed(log, e, ttl)
    ensures Orderly(log + [e], ttl)
  {
    hide Allowed;
    var more := log + [e];
    forall i | 0 <= i < |more| ensures Allowed(more[..i], more[i], ttl) {
      assert i < |log| ==> more[..i] == log[..i];
      assert i == |log| ==> more[..i] == log;
    }
  }

  /** Entries that are kept, and whose key is not forgotten, stay logged. */
  lemma EntriesThen<K(!new), V(!new)>(log: seq<LogEntry<K, V>>, e: LogEntry<K, V>, entries: seq<Entry<K, V>>, kept: seq<Entry<K, V>>)
    requires EntriesLogged(log, entries)
    requires forall d :: d in kept ==> d in entries && !Replaces(e, d.key)
    ensures EntriesLogged(log + [e], kept)
  {
    hide Attached, Latest;
    AttachedThen(log, e);
    LatestThen(log, e);
    forall i | 0 <= i < |kept| ensures Latest(log + [e], kept[i]) && Attached(log + [e], kept[i].task, kept[i].key) {
      var d := kept[i];
      assert d in kept && d in entries;
      var m :| 0 <= m < |entries| && entries[m] == d;
    }
  }

  lemma FewerLogged<K(!new), V(!new)>(log: seq<LogEntry<K, V>>, entries: seq<Entry<K, V>>, kept: seq<Entry<K, V>>)
    requires EntriesLogged(log, entries) && forall d :: d in kept ==> d in entries
    ensures EntriesLogged(log, kept)
  {
    hide Attached, Latest;
    forall i | 0 <= i < |kept| ensures Latest(log, kept[i]) && Attached(log, kept[i].task, kept[i].key) {
      assert kept[i] in entries;
    }
  }

  /** An entry that neither begins, frees nor forgets leaves the loads alone. */
  lemma QuietThen<K(!new), V(!new)>(log: seq<LogEntry<K, V>>, e: LogEntry<K, V>, inflight: map<K, Task>, keyOf: map<Task, K>, next: Task)
    requires FlightLogged(log, inflight) && TasksLogged(log, keyOf, next)
    requires !e.Began? && !e.Freed? && !e.Forgot? && !e.Closed?
    ensures FlightLogged(log + [e], inflight) && TasksLogged(log + [e], keyOf, next)
  {
    hide Pending;
    PendingThen(log, e);
  }

  lemma BeganThen<K(!new), V(!new)>(log: seq<LogEntry<K, V>>, inflight: map<K, Task>, keyOf: map<Task, K>, next: Task, key: K)
    requires FlightLogged(log, inflight) && TasksLogged(log, keyOf, next) && key !in inflight
    ensures var more := log + [Began(next, key)];
            && (forall t :: !Pending(log, t, key)) && (forall k :: Began(next, k) !in log)
            && FlightLogged(more, inflight[key := next]) && TasksLogged(more, keyOf[next := key], next + 1)
  {
    hide Pending;
    PendingThen(log, Began(next, key));
  }

  lemma FreedThen<K(!new), V(!new)>(log: seq<LogEntry<K, V>>, inflight: map<K, Task>, keyOf: map<Task, K>, next: Task, key: K, task: Task)
    requires FlightLogged(log, inflight) && TasksLogged(log, keyOf, next) && key in inflight && inflight[key] == task
    requires task in keyOf && keyOf[task] == key
    ensures FlightLogged(log + [Freed(task)], inflight - {key}) && TasksLogged(log + [Freed(task)], keyOf, next)
  {
    PendingBegan(log);
    hide Pending;
    PendingThen(log, Freed(task));
  }

  lemma PendingBegan<K(!new), V(!new)>(log: seq<LogEntry<K, V>>)
    ensures forall t, k :: Pending(log, t, k) ==> Began(t, k) in log
  {
  }

  lemma ForgotThen<K(!new), V(!new)>(log: seq<LogEntry<K, V>>, e: LogEntry<K, V>, inflight: map<K, Task>, left: map<K, Task>,
                                     keyOf: map<Task, K>, next: Task)
    requires FlightLogged(log, inflight) && TasksLogged(log, keyOf, next) && (e.Forgot? || e.Closed?)
    requires forall k :: k in left <==> k in inflight && !Forgets(e, k)
    requires forall k :: k in left ==> left[k] == inflight[k]
    ensures FlightLogged(log + [e], left) && TasksLogged(log + [e], keyOf, next)
  {
    hide Pending;
    PendingThen(log, e);
  }

  class Cache<K(==, !new), V(!new)> {
    var entries: seq<Entry<K, V>>
    var inflight: map<K, Task>
    var timer: Option<Timer>
    var disposed: bool
    const ttl: Ttl
    var nextTask: Task
    /** The key each load was begun for, which its continuation holds. */
    var keyOf: map<Task, K>
    ghost var clock: int
    ghost var log: seq<LogEntry<K, V>>

    ghost predicate Valid()
      reads this
    {
      && Ordered(entries) && Past(entries, clock) && TimerInv(ttl, entries, timer)
      && EntriesLogged(log, entries) && FlightLogged(log, inflight) && TasksLogged(log, keyOf, nextTask)
      && Orderly(log, ttl) && (disposed <==> Closed in log) && (disposed ==> entries == [] && inflight == map[])
      && NothingMissed(log, entries, ttl, clock)
    }

    constructor (ttl: Ttl, now: int)
      ensures Valid() && this.ttl == ttl && entries == [] && inflight == map[] && !disposed && clock == now && log == []
    {
      this.ttl := ttl;
      entries, inflight, timer, disposed, nextTask := [], map[], None, false, 0;
      keyOf, clock, log := map[], now, [];
    }

    method CancelExpiryIfEmpty()
      modifies `timer
      ensures timer == if entries == [] then None else old(timer)
    {
      if entries == [] && timer.Some? {
        timer := None;
      }
    }

    /** One timer for the whole cache, set by the oldest entry and clamped to the timer range. */
    method ScheduleExpiry(now: int)
      requires (ttl.Finite? && ttl.ms <= 0 ==> entries == []) && (timer.Some? || ttl == Infinite ==> TimerInv(ttl, entries, timer))
      modifies `timer
      ensures TimerInv(ttl, entries, timer)
      ensures old(timer).Some? || ttl == Infinite || entries == [] ==> timer == old(timer)
      ensures !(old(timer).Some? || ttl == Infinite || entries == []) ==> timer == Some(Timer(now + Delay(ttl.ms, entries[0].at, now), now))
    {
      if timer.Some? || ttl == Infinite {
        return;
      }
      if entries == [] {
        return;
      }
      var delay := entries[0].at + ttl.ms - now;
      if delay > 0x7fff_ffff {
        delay := 0x7fff_ffff;
      }
      if delay < 1 {
        delay := 1;
      }
      timer := Some(Timer(now + delay, now));
    }

    /**
     A hit is younger than the TTL and its key was not forgotten since its load began. Otherwise
     the caller joins the attached load, and only when there is none is one begun.
     */
    method Get(key: K, force: bool, now: int) returns (answer: Answer<V>)
      requires Valid() && clock <= now
      modifies `entries, `inflight, `timer, `nextTask, `keyOf, `clock, `log
      ensures Valid() && clock == now
      ensures disposed <==> answer == Refused
      ensures !disposed ==>
                (answer.Hit? <==> !force && exists i :: 0 <= i < |old(entries)| && old(entries)[i].key == key && !ExpiredAt(ttl, old(entries)[i].at, now))
      ensures !disposed && !answer.Hit? ==>
                answer == if key in old(inflight) then Joined(old(inflight)[key]) else Started(old(nextTask))
      ensures inflight == if answer.Started? then old(inflight)[key := answer.task] else old(inflight)
      ensures entries == old(entries) || entries == Without(old(entries), key)
      ensures entries != old(entries) ==> exists i :: 0 <= i < |old(entries)| && old(entries)[i].key == key && ExpiredAt(ttl, old(entries)[i].at, now)
      ensures var heard := old(log) + [Heard(Asked(key, force), now)];
              match answer
              case Refused => log == heard
              case Joined(task) => log == heard + [Shared(task, key)]
              case Started(task) => log == heard + [Began(task, key)]
              case Hit(value) => exists e: Entry<K, V> :: e.key == key && e.value == value && log == heard + [Gave(e, now)]
    {
      hide Without, TimerInv, Index, EntriesLogged, FlightLogged, TasksLogged, Orderly, NothingMissed;
      Hear(Asked(key, force), now);
      if disposed {
        return Refused;
      }
      var i := Index(entries, key);
      if i.Some? {
        if ttl.Finite? && now - entries[i.value].at >= ttl.ms {
          Remove(key);
        } else if !force {
          answer := Hit(entries[i.value].value);
          Give(i.value, now);
          return;
        }
      }
      assert Unserved(log, key, ttl) by { Misses(key); }
      if key in inflight {
        Share(key);
        return Joined(inflight[key]);
      }
      answer := Begin(key);
    }

    /** A caller that found nothing, or insists, has nothing to be given. */
    lemma Misses(key: K)
      requires Valid() && log != [] && log[|log| - 1].Heard? && log[|log| - 1].now == clock
      requires log[|log| - 1].event == Asked(key, false) ==> forall i :: 0 <= i < |entries| ==> entries[i].key != key
      ensures Unserved(log, key, ttl)
    {
      hide Latest, Ordered, TimerInv, Past, EntriesLogged, FlightLogged, TasksLogged, Orderly;
    }

    method Give(i: nat, now: int)
      requires Valid() && !disposed && i < |entries| && !ExpiredAt(ttl, entries[i].at, now)
      modifies `log
      ensures Valid() && log == old(log) + [Gave(entries[i], now)]
    {
      hide Ordered, TimerInv, Past, FlightLogged, TasksLogged, Orderly, Attached, Latest, NothingMissed;
      ghost var e := Gave(entries[i], now);
      OrderlyThen(log, e, ttl);
      EntriesThen(log, e, entries, entries);
      MissedThen(log, e, entries, entries, ttl, clock);
      QuietThen(log, e, inflight, keyOf, nextTask);
      log := log + [e];
    }

    method Share(key: K)
      requires Valid() && !disposed && key in inflight && Unserved(log, key, ttl)
      modifies `log
      ensures Valid() && log == old(log) + [Shared(inflight[key], key)]
    {
      hide Ordered, TimerInv, Past, EntriesLogged, TasksLogged, Orderly, Pending, NothingMissed, Unserved;
      ghost var e: LogEntry<K, V> := Shared(inflight[key], key);
      OrderlyThen(log, e, ttl);
      EntriesThen(log, e, entries, entries);
      MissedThen(log, e, entries, entries, ttl, clock);
      QuietThen(log, e, inflight, keyOf, nextTask);
      log := log + [e];
    }

    method Begin(key: K) returns (answer: Answer<V>)
      requires Valid() && !disposed && key !in inflight && Unserved(log, key, ttl)
      modifies `inflight, `nextTask, `keyOf, `log
      ensures Valid() && answer == Started(old(nextTask)) && nextTask == old(nextTask) + 1
      ensures inflight == old(inflight)[key := old(nextTask)] && keyOf == old(keyOf)[old(nextTask) := key]
      ensures log == old(log) + [Began(old(nextTask), key)]
    {
      hide Ordered, TimerInv, Past, EntriesLogged, FlightLogged, TasksLogged, Orderly, Pending, NothingMissed, Unserved;
      ghost var e: LogEntry<K, V> := Began(nextTask, key);
      BeganThen(log, inflight, keyOf, nextTask, key);
      OrderlyThen(log, e, ttl);
      EntriesThen(log, e, entries, entries);
      MissedThen(log, e, entries, entries, ttl, clock);
      log := log + [e];
      answer := Started(nextTask);
      keyOf := keyOf[nextTask := key];
      inflight, nextTask := inflight[key := nextTask], nextTask + 1;
    }

    /** Drops an expired entry. */
    method Remove(key: K)
      requires Valid() && forall e :: e in entries && e.key == key ==> ExpiredAt(ttl, e.at, clock)
      modifies `entries, `timer
      ensures Valid() && entries == Without(old(entries), key)
    {
      hide Without, Ordered, Past, EntriesLogged, FlightLogged, TasksLogged, Orderly, Latest;
      WithoutKeepsOrder(entries, key);
      WithoutKeepsTimer(ttl, entries, key, timer);
      SomeArePast(entries, Without(entries, key), clock);
      FewerLogged(log, entries, Without(entries, key));
      entries := Without(entries, key);
      CancelExpiryIfEmpty();
    }

    /** The load's own continuation: it caches its value only while it still owns the slot. */
    method LoadResolves(task: Task, key: K, value: V, cacheable: bool, now: int)
      requires Valid() && clock <= now && task in keyOf && keyOf[task] == key
      modifies `entries, `timer, `clock, `log
      ensures Valid() && clock == now
      ensures var e := Entry(key, now, value, task);
              var stores := Pending(old(log), task, key) && (ttl.Finite? ==> ttl.ms > 0) && cacheable;
              && entries == (if stores then Without(old(entries), key) + [e] else old(entries))
              && log == (if stores then old(log) + [Stored(e)] else old(log))
    {
      hide Ordered, TimerInv, EntriesLogged, TasksLogged, Orderly, Pending, Without, NothingMissed;
      Wait(now);
      hide Past;
      if key in inflight && inflight[key] == task && (ttl.Finite? ==> ttl.ms > 0) && cacheable {
        Insert(Entry(key, now, value, task));
      }
    }

    method Insert(e: Entry<K, V>)
      requires Valid() && Pending(log, e.task, e.key) && clock == e.at && (ttl.Finite? ==> ttl.ms > 0)
      modifies `entries, `timer, `log
      ensures Valid() && entries == Without(old(entries), e.key) + [e] && log == old(log) + [Stored(e)]
    {
      hide Without, Ordered, FlightLogged, TasksLogged, Orderly, EntriesLogged, NothingMissed;
      ghost var kept := Without(entries, e.key);
      assert !disposed by { PendingIsOpen(log, ttl, e.task, e.key); }
      WithoutKeepsOrder(entries, e.key);
      WithoutKeepsTimer(ttl, entries, e.key, timer);
      SomeArePast(entries, kept, clock);
      forall d | d in kept ensures d.at <= e.at && d.key != e.key {
        var i :| 0 <= i < |kept| && kept[i] == d;
      }
      AppendKeepsOrder(kept, e);
      OrderlyThen(log, Stored(e), ttl);
      QuietThen(log, Stored(e), inflight, keyOf, nextTask);
      StoredThen(log, entries, kept, e);
      MissedThen(log, Stored(e), entries, kept + [e], ttl, clock);
      log := log + [Stored(e)];
      entries := Without(entries, e.key) + [e];
      ScheduleExpiry(e.at);
    }

    /** Settling gives up the slot, unless a newer load has it. */
    method LoadSettles(task: Task, key: K)
      requires Valid() && task in keyOf && keyOf[task] == key
      modifies `inflight, `log
      ensures Valid()
      ensures inflight == if key in old(inflight) && old(inflight)[key] == task then old(inflight) - {key} else old(inflight)
      ensures log == if Pending(old(log), task, key) then old(log) + [Freed(task)] else old(log)
    {
      hide Ordered, EntriesLogged, TimerInv, Past, TasksLogged, Orderly, Pending, NothingMissed;
      if key in inflight && inflight[key] == task {
        ghost var e: LogEntry<K, V> := Freed(task);
        MissedThen(log, e, entries, entries, ttl, clock);
        FreedThen(log, inflight, keyOf, nextTask, key, task);
        OrderlyThen(log, e, ttl);
        EntriesThen(log, e, entries, entries);
        log := log + [e];
        inflight := inflight - {key};
      }
    }

    /** From here on no load begun earlier can reach the cache under `key`. */
    method Invalidate(key: K)
      requires Valid()
      modifies `entries, `inflight, `timer, `log
      ensures Valid() && entries == Without(old(entries), key) && inflight == old(inflight) - {key}
      ensures log == old(log) + [Forgot(Some(key))]
    {
      hide Without, Ordered, Past, EntriesLogged, FlightLogged, TasksLogged, Orderly, NothingMissed;
      ghost var e: LogEntry<K, V> := Forgot(Some(key));
      WithoutKeepsOrder(entries, key);
      WithoutKeepsTimer(ttl, entries, key, timer);
      SomeArePast(entries, Without(entries, key), clock);
      OrderlyThen(log, e, ttl);
      EntriesThen(log, e, entries, Without(entries, key));
      MissedThen(log, e, entries, Without(entries, key), ttl, clock);
      ForgotThen(log, e, inflight, inflight - {key}, keyOf, nextTask);
      log := log + [e];
      entries := Without(entries, key);
      inflight := inflight - {key};
      CancelExpiryIfEmpty();
    }

    method Clear()
      requires Valid()
      modifies `entries, `inflight, `timer, `log
      ensures Valid() && entries == [] && inflight == map[] && timer == None && log == old(log) + [Forgot(None)]
    {
      Forget(Forgot(None));
    }

    method Dispose()
      requires Valid()
      modifies `entries, `inflight, `timer, `log, `disposed
      ensures Valid() && disposed && entries == [] && inflight == map[] && timer == None && log == old(log) + [Closed]
    {
      disposed := true;
      Forget(Closed);
    }

    /** Drops everything that is cached or in flight. */
    method Forget(ghost e: LogEntry<K, V>)
      requires Ordered(entries) && Past(entries, clock) && TimerInv(ttl, entries, timer)
      requires EntriesLogged(log, entries) && FlightLogged(log, inflight) && TasksLogged(log, keyOf, nextTask)
      requires Orderly(log, ttl) && (e == Forgot(None) || e == Closed) && (disposed <==> Closed in log || e == Closed)
      requires NothingMissed(log, entries, ttl, clock)
      modifies `entries, `inflight, `timer, `log
      ensures Valid() && entries == [] && inflight == map[] && timer == None && log == old(log) + [e]
    {
      hide EntriesLogged, FlightLogged, TasksLogged, Orderly, NothingMissed;
      OrderlyThen(log, e, ttl);
      EntriesThen(log, e, entries, []);
      MissedThen(log, e, entries, [], ttl, clock);
      ForgotThen(log, e, inflight, map[], keyOf, nextTask);
      entries, inflight, log := [], map[], log + [e];
      CancelExpiryIfEmpty();
    }

    /** The sweep stops at the first live entry, and has then removed every expired one. */
    method TimerFires(now: int)
      requires Valid() && clock <= now && timer.Some?
      modifies `entries, `timer, `clock
      ensures Valid() && clock == now && entries == Unexpired(old(entries), ttl, now)
    {
      hide EntriesLogged, FlightLogged, TasksLogged, Orderly;
      assert NothingMissed(log, entries, ttl, now) by { MissedLater(log, entries, ttl, clock, now); }
      hide NothingMissed;
      clock, timer := now, None;
      ghost var before := entries;
      while entries != [] && ttl.Finite? && now - entries[0].at >= ttl.ms
        invariant Ordered(entries) && Past(entries, clock) && EntriesLogged(log, entries)
        invariant timer == None && clock == now && (before == [] ==> entries == [])
        invariant Unexpired(before, ttl, now) == Unexpired(entries, ttl, now)
        invariant NothingMissed(log, entries, ttl, clock)
        decreases |entries|
      {
        FewerLogged(log, entries, entries[1..]);
        FirstExpired(log, entries, ttl, now);
        entries := entries[1..];
      }
      NothingExpiredAfter(entries, ttl, now);
      ScheduleExpiry(now);
    }

    /** Time passes: nothing that expired comes back. */
    ghost method Wait(now: int)
      requires Valid() && clock <= now
      modifies `clock
      ensures Valid() && clock == now
    {
      hide Ordered, TimerInv, EntriesLogged, FlightLogged, TasksLogged, Orderly, Latest;
      clock := now;
    }

    ghost method Hear(event: Event<K, V>, now: int)
      requires Valid() && clock <= now
      modifies `log, `clock
      ensures Valid() && log == old(log) + [Heard(event, now)] && clock == now
    {
      hide Ordered, TimerInv, Past, EntriesLogged, FlightLogged, TasksLogged, Orderly, NothingMissed;
      Wait(now);
      ghost var e := Heard(event, now);
      OrderlyThen(log, e, ttl);
      EntriesThen(log, e, entries, entries);
      MissedThen(log, e, entries, entries, ttl, clock);
      QuietThen(log, e, inflight, keyOf, nextTask);
      log := log + [e];
    }
  }

  lemma StoredThen<K(!new), V(!new)>(log: seq<LogEntry<K, V>>, entries: seq<Entry<K, V>>, kept: seq<Entry<K, V>>, e: Entry<K, V>)
    requires EntriesLogged(log, entries) && Pending(log, e.task, e.key)
    requires forall d :: d in kept ==> d in entries && d.key != e.key
    ensures EntriesLogged(log + [Stored(e)], kept + [e])
  {
    hide Attached, Latest;
    AttachedThen(log, Stored(e));
    LatestThen(log, Stored(e));
    EntriesThen(log, Stored(e), entries, kept);
  }

  /** A closed cache has nothing pending. */
  lemma PendingIsOpen<K(!new), V(!new)>(log: seq<LogEntry<K, V>>, ttl: Ttl, task: Task, key: K)
    requires Orderly(log, ttl) && Pending(log, task, key)
    ensures Closed !in log
  {
    var j :| 0 <= j < |log| && log[j] == Began(task, key) && forall m :: j < m < |log| ==> !Forgets(log[m], key);
    hide Pending;
    assert Allowed(log[..j], log[j], ttl);
    forall m | 0 <= m < |log| ensures log[m] != Closed {
      assert m < j ==> log[m] in log[..j];
    }
  }

  method Handle<K(==, !new), V(!new)>(cache: Cache<K, V>, event: Event<K, V>, now: int) returns (ghost effect: seq<LogEntry<K, V>>)
    requires cache.Valid() && cache.clock <= now
    modifies cache
    ensures cache.Valid() && cache.clock <= now
    ensures cache.log == old(cache.log) + [Heard(event, now)] + effect && |effect| <= 1
    ensures (effect != [] ==> Follows(event, now, effect[0])) && (MustAct(old(cache.log), event) ==> effect != [])
  {
    hide Ordered, Past, TimerInv, Without, Unexpired, EntriesLogged, FlightLogged, Orderly, Pending, NothingMissed;
    if !event.Asked? {
      cache.Hear(event, now);
    }
    match event {
      case Asked(key, force) => var answer := cache.Get(key, force, now);
      case Resolved(task, value, cacheable) =>
        if task in cache.keyOf {
          cache.LoadResolves(task, cache.keyOf[task], value, cacheable, now);
        }
      case Settled(task) =>
        if task in cache.keyOf {
          cache.LoadSettles(task, cache.keyOf[task]);
        }
      case Invalidated(key) => cache.Invalidate(key);
      case Cleared => cache.Clear();
      case Disposed => cache.Dispose();
      case TimerDue =>
        if cache.timer.Some? {
          cache.TimerFires(now);
        }
    }
    effect := cache.log[|old(cache.log)| + 1..];
  }

  lemma {:induction false} HeardThen<K(!new), V(!new)>(log: seq<LogEntry<K, V>>, event: Event<K, V>, now: int, effect: seq<LogEntry<K, V>>)
    requires Caused(log) && |effect| <= 1 && (effect != [] ==> Follows(event, now, effect[0]))
    requires MustAct(log, event) ==> effect != []
    ensures Caused(log + [Heard(event, now)] + effect) && HeardIn(log + [Heard(event, now)] + effect) == HeardIn(log) + [(event, now)]
  {
    var one := log + [Heard(event, now)];
    var more := one + effect;
    assert one[..|log|] == log && more[..|log|] == log && more[|log|] == Heard(event, now);
    assert effect == [] ==> more == one;
    assert effect != [] ==> more[..|one|] == one;
    forall i | 0 <= i < |more| && more[i].Heard? && MustAct(more[..i], more[i].event)
      ensures i + 1 < |more| && !more[i + 1].Heard?
    {
      assert i < |log| ==> more[..i] == log[..i];
    }
  }

  /**
   Any run of a cache under a clock that never runs backwards, read off its log: it heard exactly
   these events at these times, each caller was served by what `Allowed` promises, and invalidations took effect.
   */
  method Drive<K(==, !new), V(!new)>(ttl: Ttl, start: int, events: seq<Event<K, V>>, delays: seq<nat>) returns (cache: Cache<K, V>)
    requires |delays| == |events|
    ensures cache.Valid() && cache.ttl == ttl
    ensures HeardIn(cache.log) == Timed(start, events, delays) && Caused(cache.log) && Orderly(cache.log, ttl)
  {
    hide Ordered, Past, TimerInv, EntriesLogged, FlightLogged, TasksLogged, Orderly, Caused, HeardIn, Timed, NothingMissed;
    cache := new Cache(ttl, start);
    EmptyLog<K, V>();
    var now := start;
    for i := 0 to |events|
      invariant fresh(cache) && cache.Valid() && cache.clock <= now && cache.ttl == ttl
      invariant HeardIn(cache.log) == Timed(start, events[..i], delays[..i]) && Caused(cache.log)
      invariant var t := HeardIn(cache.log); now == if t == [] then start else t[|t| - 1].1
    {
      now := now + delays[i];
      ghost var was := cache.log;
      ghost var effect := Handle(cache, events[i], now);
      HeardThen(was, events[i], now, effect);
      TimedThen(start, events[..i], delays[..i], events[i], delays[i]);
      assert events[..i + 1] == events[..i] + [events[i]] && delays[..i + 1] == delays[..i] + [delays[i]];
    }
    assert events[..|events|] == events && delays[..|delays|] == delays;
  }

  lemma EmptyLog<K(!new), V(!new)>()
    ensures Caused<K, V>([]) && HeardIn<K, V>([]) == [] && forall start :: Timed<K, V>(start, [], []) == []
  {
  }

  // ------------------------------------------------------------------ what a run promises

  ghost predicate IsInvalidation<K(!new), V(!new)>(event: Event<K, V>, key: K) {
    event == Invalidated(key) || event == Cleared || event == Disposed
  }

  /** A load is begun once. */
  lemma BegunOnce<K(!new), V(!new)>(log: seq<LogEntry<K, V>>, ttl: Ttl, i: nat, j: nat)
    requires Orderly(log, ttl) && i < |log| && j < |log| && log[i].Began? && log[j].Began? && log[i].task == log[j].task
    ensures i == j
  {
    if i < j {
      NeverAgain(log, ttl, i, j);
    } else if j < i {
      NeverAgain(log, ttl, j, i);
    }
  }

  lemma NeverAgain<K(!new), V(!new)>(log: seq<LogEntry<K, V>>, ttl: Ttl, i: nat, j: nat)
    requires Orderly(log, ttl) && i < j < |log| && log[i].Began? && log[j].Began?
    ensures log[i].task != log[j].task
  {
    assert Allowed(log[..j], log[j], ttl);
    assert log[i] in log[..j];
  }

  /**
   A load begun before an invalidation of its key, a clear or the disposal never stores a value
   and never serves a caller after it.
   */
  lemma DetachedLoadsAreSilent<K(!new), V(!new)>(log: seq<LogEntry<K, V>>, ttl: Ttl, b: nat, f: nat, i: nat)
    requires Orderly(log, ttl) && Caused(log) && b < f < i < |log|
    requires log[b].Began? && log[f].Heard? && IsInvalidation(log[f].event, log[b].key)
    ensures !(log[i].Stored? && log[i].entry.task == log[b].task && log[i].entry.key == log[b].key)
    ensures !(log[i].Gave? && log[i].entry.task == log[b].task && log[i].entry.key == log[b].key)
    ensures !(log[i].Shared? && log[i].task == log[b].task && log[i].key == log[b].key)
  {
    var task, key := log[b].task, log[b].key;
    assert MustAct(log[..f], log[f].event);
    assert Forgets(log[f + 1], key);
    assert Allowed(log[..i], log[i], ttl);
    if f + 1 < i {
      ForgottenIsDetached(log, ttl, b, f + 1, i);
    }
  }

  lemma ForgottenIsDetached<K(!new), V(!new)>(log: seq<LogEntry<K, V>>, ttl: Ttl, b: nat, f: nat, i: nat)
    requires Orderly(log, ttl) && b < f < i < |log| && log[b].Began? && Forgets(log[f], log[b].key)
    ensures !Attached(log[..i], log[b].task, log[b].key)
  {
    assert log[..i][f] == log[f];
    forall j | 0 <= j < i && log[..i][j] == Began(log[b].task, log[b].key) ensures j == b {
      BegunOnce(log, ttl, j, b);
    }
  }

  /** Between two loads of one key, the first has settled or its key was forgotten. */
  lemma OneLoadAtATime<K(!new), V(!new)>(log: seq<LogEntry<K, V>>, ttl: Ttl, i: nat, j: nat)
    requires Orderly(log, ttl) && i < j < |log| && log[i].Began? && log[j].Began? && log[i].key == log[j].key
    ensures Freed(log[i].task) in log[..j] || exists m :: i < m < j && Forgets(log[m], log[i].key)
  {
    assert Allowed(log[..j], log[j], ttl);
    assert !Pending(log[..j], log[i].task, log[i].key);
    if forall m :: i < m < j ==> !Forgets(log[m], log[i].key) {
      assert log[..j][i] == Began(log[i].task, log[i].key);
      assert forall m :: i < m < j ==> log[..j][m] == log[m];
      assert Attached(log[..j], log[i].task, log[i].key);
    }
  }

  /** A cached answer is the value its load resolved with, less than the TTL ago. */
  lemma HitsAreYoung<K(!new), V(!new)>(log: seq<LogEntry<K, V>>, ttl: Ttl, i: nat)
    requires Orderly(log, ttl) && Caused(log) && i < |log| && log[i].Gave?
    ensures var e := log[i].entry;
            && (ttl.Finite? ==> log[i].now - e.at < ttl.ms)
            && exists m :: 0 <= m < i && log[m] == Heard(Resolved(e.task, e.value, true), e.at)
  {
    var e := log[i].entry;
    assert Allowed(log[..i], log[i], ttl);
    var m :| 0 <= m < |log[..i]| && log[..i][m] == Stored(e);
    hide Latest;
    assert log[m] == Stored(e);
    assert log[m - 1] == Heard(Resolved(e.task, e.value, true), e.at);
  }

  /** At most one value per key is stored last. */
  lemma LatestIsUnique<K(!new), V(!new)>(log: seq<LogEntry<K, V>>, d: Entry<K, V>, e: Entry<K, V>)
    requires Latest(log, d) && Latest(log, e) && d.key == e.key
    ensures d == e
  {
  }

  /**
   Until disposal a caller that does not insist is given the value stored last under its key, if
   the key was not forgotten since and the value is younger than the TTL.
   */
  lemma FreshIsServed<K(!new), V(!new)>(log: seq<LogEntry<K, V>>, ttl: Ttl, m: nat, i: nat)
    requires Orderly(log, ttl) && Caused(log) && m < i < |log| && Closed !in log[..i]
    requires log[m].Stored? && log[i].Heard? && log[i].event == Asked(log[m].entry.key, false)
    requires forall j :: m < j < i ==> !Replaces(log[j], log[m].entry.key)
    requires ttl.Finite? ==> log[i].now - log[m].entry.at < ttl.ms
    ensures i + 1 < |log| && log[i + 1] == Gave(log[m].entry, log[i].now)
  {
    var before, e := log[..i + 1], log[m].entry;
    assert MustAct(log[..i], log[i].event);
    assert Follows(log[i].event, log[i].now, log[i + 1]);
    assert Allowed(before, log[i + 1], ttl);
    assert before[m] == Stored(e) && before[i] == log[i];
    assert forall j :: m < j < i ==> before[j] == log[j];
    assert Latest(before, e);
    if log[i + 1].Gave? {
      LatestIsUnique(before, log[i + 1].entry, e);
    }
  }
}
