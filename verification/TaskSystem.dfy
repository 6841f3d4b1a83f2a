/**
 Any number of task runtimes, on any number of hosts, sharing one storage directory
 (packages/mcp/src/tasks.ts, `open` and `close`): the lease files that keep them
 apart, the recovery of what a crash left behind, and the records they write.

 `Step` is total: an action that is not enabled changes nothing, so a run is any
 sequence of actions at all. A process id may be reused; a lease name never is.
 */
module TaskSystem {
  import opened Options
  import opened TaskRuntime

  /** A runtime is named by the UUID in its lease file's name. */
  type Name = nat

  datatype Owner = Owner(host: nat, pid: nat) | Garbage

  datatype Stage =
    | Publishing
    | Published
    | Scanning
    | Probing(peer: Name, owner: Owner)
    | Unlinking(peer: Name)
    | Recovering(todo: set<TaskId>, loaded: map<TaskId, Record>, rewrite: Option<(TaskId, Record)>)
    | Open
    | Refused

  datatype Runtime = Runtime(
    host: nat,
    pid: nat,
    alive: bool,
    stage: Stage,
    listing: set<Name>,
    done: set<Name>,
    store: Store)

  datatype System = System(
    disk: Disk,
    leases: map<Name, Owner>,
    runtimes: map<Name, Runtime>,
    names: set<Name>,
    drawn: set<TaskId>)

  datatype Action =
    | Spawn(r: Name, host: nat, pid: nat)
    | Publish(r: Name)
    | ListPeers(r: Name)
    | Examine(r: Name, peer: Name)
    | ProbeDead(r: Name)
    | ProbeAlive(r: Name)
    | UnlinkPeer(r: Name)
    | EndScan(r: Name)
    | RecoverRead(r: Name, id: TaskId, now: nat)
    | RecoverWrite(r: Name)
    | EndRecovery(r: Name, limit: nat)
    | OpenFails(r: Name, unlinked: bool)
    | Local(r: Name, event: Event)
    | Crash(r: Name)

  function NewRuntime(host: nat, pid: nat): Runtime {
    Runtime(host, pid, true, Publishing, {}, {}, Opened(0, map[]))
  }

  /** What `process.kill(pid, 0)` can find: some runtime of that process is alive. */
  predicate ProcessAlive(s: System, owner: Owner) {
    exists x :: x in s.runtimes && s.runtimes[x].alive && Owner(s.runtimes[x].host, s.runtimes[x].pid) == owner
  }

  function SetStage(s: System, r: Name, stage: Stage): System
    requires r in s.runtimes
  {
    s.(runtimes := s.runtimes[r := s.runtimes[r].(stage := stage)])
  }

  function FailOpen(s: System, r: Name, unlinked: bool): System
    requires r in s.runtimes
  {
    SetStage(s, r, Refused).(leases := if unlinked then s.leases - {r} else s.leases)
  }

  function PublishStep(s: System, r: Name): System
    requires r in s.runtimes
  {
    var rt := s.runtimes[r];
    if rt.stage != Publishing then s
    else SetStage(s, r, Published).(leases := s.leases[r := Owner(rt.host, rt.pid)])
  }

  function ListStep(s: System, r: Name): System
    requires r in s.runtimes
  {
    var rt := s.runtimes[r];
    if rt.stage != Published then s
    else s.(runtimes := s.runtimes[r := rt.(stage := Scanning, listing := s.leases.Keys - {r}, done := {})])
  }

  /** Reads one listed lease: gone, unreadable or foreign, or an owner to probe. */
  function ExamineStep(s: System, r: Name, peer: Name): System
    requires r in s.runtimes
  {
    var rt := s.runtimes[r];
    if rt.stage != Scanning || peer !in rt.listing || peer in rt.done then s
    else if peer !in s.leases then s.(runtimes := s.runtimes[r := rt.(done := rt.done + {peer})])
    else if s.leases[peer].Garbage? || s.leases[peer].host != rt.host then FailOpen(s, r, true)
    else SetStage(s, r, Probing(peer, s.leases[peer]))
  }

  function ProbeStep(s: System, r: Name, dead: bool): System
    requires r in s.runtimes
  {
    var rt := s.runtimes[r];
    if !rt.stage.Probing? then s
    else if !dead then FailOpen(s, r, true)
    else if ProcessAlive(s, rt.stage.owner) then s
    else SetStage(s, r, Unlinking(rt.stage.peer))
  }

  function UnlinkStep(s: System, r: Name): System
    requires r in s.runtimes
  {
    var rt := s.runtimes[r];
    if !rt.stage.Unlinking? then s
    else
      var peer := rt.stage.peer;
      s.(runtimes := s.runtimes[r := rt.(stage := Scanning, done := rt.done + {peer})], leases := s.leases - {peer})
  }

  function EndScanStep(s: System, r: Name): System
    requires r in s.runtimes
  {
    var rt := s.runtimes[r];
    if rt.stage != Scanning || rt.done != rt.listing then s
    else SetStage(s, r, Recovering(s.disk.Keys, map[], None))
  }

  function RecoverReadStep(s: System, r: Name, id: TaskId, now: nat): System
    requires r in s.runtimes
  {
    var st := s.runtimes[r].stage;
    if !st.Recovering? || st.rewrite.Some? || id !in st.todo || id !in s.disk then s
    else if Terminal(s.disk[id]) then
      SetStage(s, r, Recovering(st.todo - {id}, st.loaded[id := s.disk[id]], None))
    else SetStage(s, r, st.(rewrite := Some((id, Interrupted(s.disk[id], now)))))
  }

  function RecoverWriteStep(s: System, r: Name): System
    requires r in s.runtimes
  {
    var st := s.runtimes[r].stage;
    if !st.Recovering? || st.rewrite.None? then s
    else
      var (id, record) := st.rewrite.value;
      SetStage(s, r, Recovering(st.todo - {id}, st.loaded[id := record], None)).(disk := s.disk[id := record])
  }

  function EndRecoveryStep(s: System, r: Name, limit: nat): System
    requires r in s.runtimes
  {
    var rt := s.runtimes[r];
    if !rt.stage.Recovering? || rt.stage.rewrite.Some? || rt.stage.todo != {} then s
    else s.(runtimes := s.runtimes[r := rt.(stage := Open, store := Opened(limit, rt.stage.loaded))])
  }

  function LocalStep(s: System, r: Name, ev: Event): System
    requires r in s.runtimes
  {
    var rt := s.runtimes[r];
    if rt.stage != Open || (ev.StartOp? && ev.id in s.drawn) then s
    else
      var w := Exec(World(rt.store, s.disk), ev);
      s.(disk := w.disk,
         runtimes := s.runtimes[r := rt.(store := w.store)],
         leases := if w.store.leaseReleased && !rt.store.leaseReleased then s.leases - {r} else s.leases,
         drawn := if ev.StartOp? then s.drawn + {ev.id} else s.drawn)
  }

  function Step(s: System, a: Action): System {
    if a.Spawn? then
      if a.r in s.names then s
      else s.(names := s.names + {a.r}, runtimes := s.runtimes[a.r := NewRuntime(a.host, a.pid)])
    else if a.r !in s.runtimes || !s.runtimes[a.r].alive then s
    else
      match a
      case Publish(r) => PublishStep(s, r)
      case ListPeers(r) => ListStep(s, r)
      case Examine(r, peer) => ExamineStep(s, r, peer)
      case ProbeDead(r) => ProbeStep(s, r, true)
      case ProbeAlive(r) => ProbeStep(s, r, false)
      case UnlinkPeer(r) => UnlinkStep(s, r)
      case EndScan(r) => EndScanStep(s, r)
      case RecoverRead(r, id, now) => RecoverReadStep(s, r, id, now)
      case RecoverWrite(r) => RecoverWriteStep(s, r)
      case EndRecovery(r, limit) => EndRecoveryStep(s, r, limit)
      case OpenFails(r, unlinked) =>
        if s.runtimes[r].stage == Open || s.runtimes[r].stage == Refused then s else FailOpen(s, r, unlinked)
      case Local(r, ev) => LocalStep(s, r, ev)
      case Crash(r) => s.(runtimes := s.runtimes[r := s.runtimes[r].(alive := false)])
  }

  function Run(s: System, actions: seq<Action>): System {
    if actions == [] then s else Step(Run(s, actions[..|actions| - 1]), actions[|actions| - 1])
  }

  /** Any directory at all, with no runtime of ours started yet. */
  ghost predicate Init(s: System) {
    s.runtimes == map[] && s.leases.Keys <= s.names && s.disk.Keys <= s.drawn
  }

  // ---------- the lease invariant ----------

  /** Alive, with a published lease that it has not given up. */
  predicate Contends(rt: Runtime) {
    rt.alive && rt.stage != Publishing && rt.stage != Refused && !rt.store.leaseReleased
  }

  predicate Listed(rt: Runtime) {
    rt.stage != Publishing && rt.stage != Published && rt.stage != Refused
  }

  predicate PastScan(rt: Runtime) {
    rt.stage.Recovering? || rt.stage == Open
  }

  /** The lease is held: this runtime may write records. */
  predicate Holds(rt: Runtime) {
    Contends(rt) && PastScan(rt)
  }

  ghost predicate OwnInv(s: System, r: Name, rt: Runtime) {
    && (Contends(rt) ==> r in s.leases && s.leases[r] == Owner(rt.host, rt.pid))
    && (r in s.leases ==> rt.stage != Publishing)
    && (rt.store.leaseReleased ==> rt.stage == Open)
    && rt.done <= rt.listing <= s.names && r !in rt.listing
    && (Listed(rt) && PastScan(rt) ==> rt.done == rt.listing)
    && (rt.stage.Publishing? ==> rt.listing == {} == rt.done)
    && (rt.stage.Published? ==> rt.listing == {} == rt.done)
    && (rt.stage.Probing? || rt.stage.Unlinking? ==> rt.stage.peer in rt.listing)
  }

  /** What runtime `a` knows of its peer `b`. */
  ghost predicate PeerInv(a: Runtime, ra: Name, b: Runtime, rb: Name) {
    && (rb in a.listing ==> b.stage != Publishing)
    && (rb in a.done ==> !Contends(b))
    && (a.stage == Unlinking(rb) ==> !Contends(b))
    && (a.stage.Probing? && a.stage.peer == rb && Contends(b) ==> a.stage.owner == Owner(b.host, b.pid))
    && (Contends(a) && Listed(a) && Contends(b) && Listed(b) ==> rb in a.listing || ra in b.listing)
  }

  ghost predicate LeaseInv(s: System) {
    && s.runtimes.Keys <= s.names && s.leases.Keys <= s.names
    && (forall r :: r in s.runtimes ==> OwnInv(s, r, s.runtimes[r]))
    && (forall a, b :: a in s.runtimes && b in s.runtimes && a != b ==>
          PeerInv(s.runtimes[a], a, s.runtimes[b], b))
  }

  ghost predicate PeersInv(a: Runtime, ra: Name, b: Runtime, rb: Name) {
    PeerInv(a, ra, b, rb) && PeerInv(b, rb, a, ra)
  }

  lemma OwnFacts(s: System, r: Name)
    requires LeaseInv(s) && r in s.runtimes
    ensures OwnInv(s, r, s.runtimes[r]) && r in s.names && s.leases.Keys <= s.names
  {
  }

  lemma PairFacts(s: System, r: Name, x: Name)
    requires LeaseInv(s) && r in s.runtimes && x in s.runtimes && x != r
    ensures OwnInv(s, r, s.runtimes[r]) && OwnInv(s, x, s.runtimes[x])
    ensures PeersInv(s.runtimes[r], r, s.runtimes[x], x)
  {
  }

  /** A step of one runtime has only its own pairs to answer for. */
  lemma ChangeOne(s: System, s': System, r: Name)
    requires LeaseInv(s) && r in s.runtimes && s'.names == s.names && s'.leases.Keys <= s.names
    requires s'.runtimes.Keys == s.runtimes.Keys
    requires forall x :: x in s.runtimes && x != r ==> s'.runtimes[x] == s.runtimes[x]
    requires OwnInv(s', r, s'.runtimes[r])
    requires forall x :: x in s.runtimes && x != r ==>
               OwnInv(s', x, s.runtimes[x]) && PeersInv(s'.runtimes[r], r, s.runtimes[x], x)
    ensures LeaseInv(s')
  {
    hide OwnInv;
    hide PeerInv;
    forall a, b | a in s'.runtimes && b in s'.runtimes && a != b
      ensures PeerInv(s'.runtimes[a], a, s'.runtimes[b], b)
    {
      assert a != r && b != r ==> PeerInv(s.runtimes[a], a, s.runtimes[b], b);
      assert a == r ==> PeersInv(s'.runtimes[r], r, s.runtimes[b], b);
      assert b == r ==> PeersInv(s'.runtimes[r], r, s.runtimes[a], a);
    }
  }

  lemma SpawnKeepsLease(s: System, a: Action)
    requires LeaseInv(s) && a.Spawn?
    ensures LeaseInv(Step(s, a))
  {
    if a.r !in s.names {
      var s' := Step(s, a);
      assert s'.runtimes[a.r] == NewRuntime(a.host, a.pid);
      forall x | x in s'.runtimes
        ensures OwnInv(s', x, s'.runtimes[x])
      {
        assert x != a.r ==> OwnInv(s, x, s.runtimes[x]);
      }
      forall x, y | x in s'.runtimes && y in s'.runtimes && x != y
        ensures PeerInv(s'.runtimes[x], x, s'.runtimes[y], y)
      {
        assert x != a.r ==> OwnInv(s, x, s.runtimes[x]);
        assert x != a.r && y != a.r ==> PeerInv(s.runtimes[x], x, s.runtimes[y], y);
      }
    }
  }

  lemma PublishKeepsLease(s: System, r: Name)
    requires LeaseInv(s) && r in s.runtimes
    ensures LeaseInv(PublishStep(s, r))
  {
    hide LeaseInv;
    var s' := PublishStep(s, r);
    OwnFacts(s, r);
    if s' != s {
      forall x | x in s.runtimes && x != r
        ensures OwnInv(s', x, s.runtimes[x]) && PeersInv(s'.runtimes[r], r, s.runtimes[x], x)
      {
        PairFacts(s, r, x);
      }
      ChangeOne(s, s', r);
    }
  }

  lemma ListKeepsLease(s: System, r: Name)
    requires LeaseInv(s) && r in s.runtimes
    ensures LeaseInv(ListStep(s, r))
  {
    hide LeaseInv;
    var s' := ListStep(s, r);
    OwnFacts(s, r);
    if s' != s {
      forall x | x in s.runtimes && x != r
        ensures OwnInv(s', x, s.runtimes[x]) && PeersInv(s'.runtimes[r], r, s.runtimes[x], x)
      {
        PairFacts(s, r, x);
      }
      ChangeOne(s, s', r);
    }
  }

  lemma FailKeepsLease(s: System, r: Name, unlinked: bool)
    requires LeaseInv(s) && r in s.runtimes && s.runtimes[r].stage != Open
    ensures LeaseInv(FailOpen(s, r, unlinked))
  {
    hide LeaseInv;
    var s' := FailOpen(s, r, unlinked);
    OwnFacts(s, r);
    if s' != s {
      forall x | x in s.runtimes && x != r
        ensures OwnInv(s', x, s.runtimes[x]) && PeersInv(s'.runtimes[r], r, s.runtimes[x], x)
      {
        PairFacts(s, r, x);
      }
      ChangeOne(s, s', r);
    }
  }

  lemma ExamineKeepsLease(s: System, r: Name, peer: Name)
    requires LeaseInv(s) && r in s.runtimes && s.runtimes[r].alive
    ensures LeaseInv(ExamineStep(s, r, peer))
  {
    hide LeaseInv;
    var s' := ExamineStep(s, r, peer);
    OwnFacts(s, r);
    if s' != s {
      forall x | x in s.runtimes && x != r
        ensures OwnInv(s', x, s.runtimes[x]) && PeersInv(s'.runtimes[r], r, s.runtimes[x], x)
      {
        PairFacts(s, r, x);
      }
      ChangeOne(s, s', r);
    }
  }

  lemma ProbeKeepsLease(s: System, r: Name, dead: bool)
    requires LeaseInv(s) && r in s.runtimes
    ensures LeaseInv(ProbeStep(s, r, dead))
  {
    hide LeaseInv;
    var s' := ProbeStep(s, r, dead);
    OwnFacts(s, r);
    if s' != s {
      forall x | x in s.runtimes && x != r
        ensures OwnInv(s', x, s.runtimes[x]) && PeersInv(s'.runtimes[r], r, s.runtimes[x], x)
      {
        PairFacts(s, r, x);
      }
      ChangeOne(s, s', r);
    }
  }

  lemma UnlinkKeepsLease(s: System, r: Name)
    requires LeaseInv(s) && r in s.runtimes
    ensures LeaseInv(UnlinkStep(s, r))
  {
    hide LeaseInv;
    var s' := UnlinkStep(s, r);
    OwnFacts(s, r);
    if s' != s {
      forall x | x in s.runtimes && x != r
        ensures OwnInv(s', x, s.runtimes[x]) && PeersInv(s'.runtimes[r], r, s.runtimes[x], x)
      {
        PairFacts(s, r, x);
      }
      ChangeOne(s, s', r);
    }
  }

  /** Steps after the scan, and crashes: nobody comes to contend, and no claim of a peer is weakened. */
  lemma LaterKeepsLease(s: System, s': System, r: Name)
    requires LeaseInv(s) && r in s.runtimes && s'.names == s.names && s'.leases == s.leases
    requires s'.runtimes.Keys == s.runtimes.Keys
    requires forall x :: x in s.runtimes && x != r ==> s'.runtimes[x] == s.runtimes[x]
    requires var a, b := s.runtimes[r], s'.runtimes[r];
             && b.host == a.host && b.pid == a.pid && b.listing == a.listing && b.done == a.done
             && (Contends(b) ==> Contends(a)) && (b.store.leaseReleased ==> b.stage == Open)
             && (b.stage == a.stage || (PastScan(b) && a.stage != Publishing && Listed(a) && a.done == a.listing))
    ensures LeaseInv(s')
  {
    hide LeaseInv;
    OwnFacts(s, r);
    forall x | x in s.runtimes && x != r
      ensures OwnInv(s', x, s.runtimes[x]) && PeersInv(s'.runtimes[r], r, s.runtimes[x], x)
    {
      PairFacts(s, r, x);
    }
    ChangeOne(s, s', r);
  }

  /** Giving up the lease removes the file and the contender together. */
  lemma ReleaseKeepsLease(s: System, s': System, r: Name)
    requires LeaseInv(s) && r in s.runtimes && s.runtimes[r].stage == Open
    requires s'.names == s.names && s'.leases == s.leases - {r}
    requires r in s'.runtimes && s'.runtimes == s.runtimes[r := s.runtimes[r].(store := s'.runtimes[r].store)]
    requires s'.runtimes[r].store.leaseReleased
    ensures LeaseInv(s')
  {
    hide LeaseInv;
    OwnFacts(s, r);
    forall x | x in s.runtimes && x != r
      ensures OwnInv(s', x, s.runtimes[x]) && PeersInv(s'.runtimes[r], r, s.runtimes[x], x)
    {
      PairFacts(s, r, x);
    }
    ChangeOne(s, s', r);
  }

  lemma LocalKeepsLease(s: System, r: Name, ev: Event)
    requires LeaseInv(s) && r in s.runtimes && s.runtimes[r].alive && MemInv(s.runtimes[r].store)
    ensures LeaseInv(LocalStep(s, r, ev))
  {
    hide LeaseInv;
    hide Exec;
    OwnFacts(s, r);
    var rt, s' := s.runtimes[r], LocalStep(s, r, ev);
    if rt.store.leaseReleased {
      ReleasedNeverSaves(World(rt.store, s.disk), ev);
      LaterKeepsLease(s, s', r);
    } else if s'.runtimes[r].store.leaseReleased {
      ReleaseKeepsLease(s, s', r);
    } else {
      LaterKeepsLease(s, s', r);
    }
  }

  lemma {:induction false} StepKeepsLease(s: System, a: Action)
    requires LeaseInv(s) && forall r :: r in s.runtimes ==> MemInv(s.runtimes[r].store)
    ensures LeaseInv(Step(s, a))
  {
    hide MemInv;
    hide LeaseInv;
    if a.Spawn? {
      SpawnKeepsLease(s, a);
    } else if a.r in s.runtimes && s.runtimes[a.r].alive {
      var r := a.r;
      OwnFacts(s, r);
      match a
      case Publish(_) => PublishKeepsLease(s, r);
      case ListPeers(_) => ListKeepsLease(s, r);
      case Examine(_, peer) => ExamineKeepsLease(s, r, peer);
      case ProbeDead(_) => ProbeKeepsLease(s, r, true);
      case ProbeAlive(_) => ProbeKeepsLease(s, r, false);
      case UnlinkPeer(_) => UnlinkKeepsLease(s, r);
      case EndScan(_) => LaterKeepsLease(s, Step(s, a), r);
      case RecoverRead(_, id, now) => LaterKeepsLease(s, Step(s, a), r);
      case RecoverWrite(_) => LaterKeepsLease(s, Step(s, a), r);
      case EndRecovery(_, limit) => LaterKeepsLease(s, Step(s, a), r);
      case OpenFails(_, unlinked) =>
        if s.runtimes[r].stage != Open {
          FailKeepsLease(s, r, unlinked);
        }
      case Local(_, ev) => LocalKeepsLease(s, r, ev);
      case Crash(_) => LaterKeepsLease(s, Step(s, a), r);
    }
  }

  /** Two holders would each have had to find the other's lease gone or its owner dead. */
  lemma OneHolder(s: System, a: Name, b: Name)
    requires LeaseInv(s) && a in s.runtimes && b in s.runtimes && a != b
    ensures !(Holds(s.runtimes[a]) && Holds(s.runtimes[b]))
  {
    assert PeerInv(s.runtimes[a], a, s.runtimes[b], b) && PeerInv(s.runtimes[b], b, s.runtimes[a], a);
    assert OwnInv(s, a, s.runtimes[a]) && OwnInv(s, b, s.runtimes[b]);
  }

  // ---------- the records ----------

  ghost predicate RecoveryInv(st: Stage, disk: Disk)
    requires st.Recovering?
  {
    && st.todo !! st.loaded.Keys && st.todo + st.loaded.Keys == disk.Keys
    && (forall id :: id in st.loaded ==> st.loaded[id] == disk[id] && Terminal(disk[id]))
    && (st.rewrite.Some? ==>
          && st.rewrite.value.0 in st.todo && Terminal(st.rewrite.value.1)
          && !Terminal(disk[st.rewrite.value.0]))
  }

  /** What one runtime's memory says of itself and, while it holds the lease, of the disk. */
  ghost predicate MemoryInv(s: System, rt: Runtime) {
    && MemInv(rt.store)
    && StartedIds(rt.store) <= s.drawn && rt.store.records.Keys <= s.drawn
    && (forall id :: id in rt.store.recovered ==> id in s.disk && Terminal(s.disk[id]))
    && (rt.stage != Open ==> rt.store == Opened(0, map[]))
    && (Holds(rt) && rt.stage == Open ==> DiskAgrees(rt.store, s.disk))
    && (Holds(rt) && rt.stage.Recovering? ==> RecoveryInv(rt.stage, s.disk))
  }

  ghost predicate Inv(s: System) {
    && LeaseInv(s)
    && s.disk.Keys <= s.drawn
    && (forall r :: r in s.runtimes ==> MemoryInv(s, s.runtimes[r]))
    && (forall a, b :: a in s.runtimes && b in s.runtimes && a != b ==>
          StartedIds(s.runtimes[a].store) !! StartedIds(s.runtimes[b].store))
  }

  /** What a disk may turn into: records come and change, but terminal ones stay as they are. */
  ghost predicate Spares(disk: Disk, disk': Disk) {
    forall id :: id in disk && Terminal(disk[id]) ==> id in disk' && disk'[id] == disk[id]
  }

  /** A step that leaves disk and stores alone, and under which nobody gains the lease by surprise. */
  lemma QuietStepKeepsInv(s: System, s': System, r: Name)
    requires Inv(s) && LeaseInv(s') && r in s.runtimes
    requires s'.disk == s.disk && s'.drawn == s.drawn && s'.runtimes.Keys == s.runtimes.Keys
    requires forall x :: x in s.runtimes && x != r ==> s'.runtimes[x] == s.runtimes[x]
    requires var a, b := s.runtimes[r], s'.runtimes[r];
             && b.store == a.store && (b.stage == Open <==> a.stage == Open) && (Holds(b) && b.stage == Open ==> Holds(a))
             && (Holds(b) && b.stage.Recovering? ==> RecoveryInv(b.stage, s.disk))
    ensures Inv(s')
  {
    hide MemInv;
    hide StartedIds;
    hide DiskAgrees;
    hide RecoveryInv;
    hide LeaseInv;
    assert forall x :: x in s.runtimes ==> s'.runtimes[x].store == s.runtimes[x].store;
    forall x | x in s'.runtimes
      ensures MemoryInv(s', s'.runtimes[x])
    {
      assert MemoryInv(s, s.runtimes[x]);
    }
    forall a, b | a in s'.runtimes && b in s'.runtimes && a != b
      ensures StartedIds(s'.runtimes[a].store) !! StartedIds(s'.runtimes[b].store)
    {
    }
  }

  lemma ScanStepKeepsInv(s: System, a: Action)
    requires Inv(s) && LeaseInv(Step(s, a))
    requires a.Publish? || a.ListPeers? || a.Examine? || a.ProbeDead? || a.ProbeAlive? || a.UnlinkPeer? || a.OpenFails?
    ensures Inv(Step(s, a)) && Step(s, a).disk == s.disk
  {
    hide Inv;
    hide LeaseInv;
    if a.r in s.runtimes && s.runtimes[a.r].alive && Step(s, a) != s {
      assert !PastScan(Step(s, a).runtimes[a.r]) && Step(s, a).runtimes[a.r].store == s.runtimes[a.r].store;
      QuietStepKeepsInv(s, Step(s, a), a.r);
    }
  }

  lemma ReadKeepsRecovery(st: Stage, disk: Disk, id: TaskId, now: nat)
    requires st.Recovering? && RecoveryInv(st, disk) && st.rewrite.None? && id in st.todo
    ensures if Terminal(disk[id]) then RecoveryInv(Recovering(st.todo - {id}, st.loaded[id := disk[id]], None), disk)
            else RecoveryInv(st.(rewrite := Some((id, Interrupted(disk[id], now)))), disk)
  {
  }

  lemma RecoverReadKeepsInv(s: System, r: Name, id: TaskId, now: nat)
    requires Inv(s) && r in s.runtimes && s.runtimes[r].alive && LeaseInv(RecoverReadStep(s, r, id, now))
    ensures Inv(RecoverReadStep(s, r, id, now)) && RecoverReadStep(s, r, id, now).disk == s.disk
  {
    hide MemInv;
    hide StartedIds;
    hide DiskAgrees;
    hide LeaseInv;
    hide RecoveryInv;
    var rt, s' := s.runtimes[r], RecoverReadStep(s, r, id, now);
    assert MemoryInv(s, rt);
    if s' != s {
      assert Holds(rt) && RecoveryInv(rt.stage, s.disk);
      ReadKeepsRecovery(rt.stage, s.disk, id, now);
      QuietStepKeepsInv(s, s', r);
    }
  }

  /** A write by the holder disturbs no other runtime: none of them holds the lease. */
  lemma OthersKeepMemory(s: System, s': System, r: Name, x: Name)
    requires Inv(s) && r in s.runtimes && x in s.runtimes && x != r
    requires Holds(s.runtimes[r]) || s'.disk == s.disk
    requires Spares(s.disk, s'.disk) && s.drawn <= s'.drawn
    ensures MemoryInv(s', s.runtimes[x])
  {
    hide MemInv;
    hide StartedIds;
    hide DiskAgrees;
    assert MemoryInv(s, s.runtimes[x]);
    if Holds(s.runtimes[r]) {
      OneHolder(s, r, x);
    }
  }

  /** What remains to show of a step by `r` once the lease invariant and its own memory are done. */
  lemma CombineInv(s: System, s': System, r: Name)
    requires Inv(s) && LeaseInv(s') && r in s.runtimes && s'.runtimes.Keys == s.runtimes.Keys
    requires forall x :: x in s.runtimes && x != r ==> s'.runtimes[x] == s.runtimes[x]
    requires Holds(s.runtimes[r]) || s'.disk == s.disk
    requires Spares(s.disk, s'.disk) && s.drawn <= s'.drawn && s'.disk.Keys <= s'.drawn
    requires MemoryInv(s', s'.runtimes[r])
    requires StartedIds(s'.runtimes[r].store) <= StartedIds(s.runtimes[r].store) + (s'.drawn - s.drawn)
    ensures Inv(s')
  {
    hide MemInv;
    hide StartedIds;
    hide DiskAgrees;
    hide LeaseInv;
    forall x | x in s'.runtimes
      ensures MemoryInv(s', s'.runtimes[x])
    {
      if x != r {
        OthersKeepMemory(s, s', r, x);
      }
    }
    forall x | x in s'.runtimes && x != r
      ensures StartedIds(s'.runtimes[x].store) !! StartedIds(s'.runtimes[r].store)
    {
      assert MemoryInv(s, s.runtimes[x]);
      assert StartedIds(s.runtimes[x].store) !! StartedIds(s.runtimes[r].store);
    }
    forall a, b | a in s'.runtimes && b in s'.runtimes && a != b
      ensures StartedIds(s'.runtimes[a].store) !! StartedIds(s'.runtimes[b].store)
    {
      assert a != r && b != r ==> StartedIds(s.runtimes[a].store) !! StartedIds(s.runtimes[b].store);
    }
  }

  lemma RecoverWriteKeepsInv(s: System, r: Name)
    requires Inv(s) && r in s.runtimes && s.runtimes[r].alive && LeaseInv(RecoverWriteStep(s, r))
    ensures Inv(RecoverWriteStep(s, r)) && Spares(s.disk, RecoverWriteStep(s, r).disk)
  {
    hide MemInv;
    hide StartedIds;
    hide DiskAgrees;
    hide LeaseInv;
    var rt, s' := s.runtimes[r], RecoverWriteStep(s, r);
    assert MemoryInv(s, rt);
    if s' != s {
      assert Holds(rt) && RecoveryInv(rt.stage, s.disk);
      assert RecoveryInv(s'.runtimes[r].stage, s'.disk);
      assert Spares(s.disk, s'.disk);
      assert MemoryInv(s', s'.runtimes[r]);
      CombineInv(s, s', r);
    }
  }

  lemma OpenedKeepsInv(limit: nat, records: map<TaskId, Record>)
    requires forall id :: id in records ==> Terminal(records[id])
    ensures MemInv(Opened(limit, records)) && StartedIds(Opened(limit, records)) == {}
    ensures DiskAgrees(Opened(limit, records), records)
  {
  }

  lemma EndRecoveryKeepsInv(s: System, r: Name, limit: nat)
    requires Inv(s) && r in s.runtimes && s.runtimes[r].alive && LeaseInv(EndRecoveryStep(s, r, limit))
    ensures Inv(EndRecoveryStep(s, r, limit)) && EndRecoveryStep(s, r, limit).disk == s.disk
  {
    hide MemInv;
    hide StartedIds;
    hide DiskAgrees;
    hide LeaseInv;
    var rt, s' := s.runtimes[r], EndRecoveryStep(s, r, limit);
    assert MemoryInv(s, rt);
    if s' != s {
      assert Holds(rt) && RecoveryInv(rt.stage, s.disk);
      assert rt.stage.loaded == s.disk;
      OpenedKeepsInv(limit, s.disk);
      assert MemoryInv(s', s'.runtimes[r]);
      CombineInv(s, s', r);
    }
  }

  /** A local event, seen from the shared directory. */
  lemma LocalKeepsMemory(w: World, ev: Event)
    requires MemInv(w.store) && FreshFor(w.store, ev)
    requires !w.store.leaseReleased ==> DiskAgrees(w.store, w.disk)
    ensures var w' := Exec(w, ev);
            && MemInv(w'.store) && Spares(w.disk, w'.disk)
            && (w.store.leaseReleased ==> w'.store.leaseReleased && w'.disk == w.disk)
            && (!w.store.leaseReleased ==> DiskAgrees(w'.store, w'.disk))
            && IdsKept(w.store, w'.store, if ev.StartOp? then {ev.id} else {})
  {
    hide MemInv;
    hide DiskAgrees;
    hide Exec;
    ExecKeepsInv(w, ev);
    ExecKeepsIds(w, ev);
    if w.store.leaseReleased {
      ReleasedNeverSaves(w, ev);
    } else {
      ExecKeepsDisk(w, ev);
      forall id | id in w.disk && Terminal(w.disk[id])
        ensures id in Exec(w, ev).disk && Exec(w, ev).disk[id] == w.disk[id]
      {
        SaveSparesTerminal(w, ev, id);
      }
    }
  }

  /** The keys on disk are keys in memory, up to the identifier being started. */
  lemma DiskKeys(st: Store, disk: Disk)
    requires DiskAgrees(st, disk) && MemInv(st)
    ensures disk.Keys <= st.records.Keys + StartedIds(st)
  {
  }

  lemma LocalKeepsInv(s: System, r: Name, ev: Event)
    requires Inv(s) && r in s.runtimes && s.runtimes[r].alive && LeaseInv(LocalStep(s, r, ev))
    ensures Inv(LocalStep(s, r, ev)) && Spares(s.disk, LocalStep(s, r, ev).disk)
  {
    hide MemInv;
    hide StartedIds;
    hide DiskAgrees;
    hide LeaseInv;
    hide Exec;
    var rt, s' := s.runtimes[r], LocalStep(s, r, ev);
    assert MemoryInv(s, rt);
    if rt.stage == Open && !(ev.StartOp? && ev.id in s.drawn) {
      var w := World(rt.store, s.disk);
      assert FreshFor(rt.store, ev) by {
        if ev.StartOp? {
          StartedCoverRuns(rt.store);
        }
      }
      LocalKeepsMemory(w, ev);
      if !rt.store.leaseReleased {
        DiskKeys(s'.runtimes[r].store, s'.disk);
      }
      assert MemoryInv(s', s'.runtimes[r]);
      CombineInv(s, s', r);
    }
  }

  lemma StartedCoverRuns(st: Store)
    ensures st.runs.Keys <= StartedIds(st)
  {
  }

  lemma SpawnKeepsInv(s: System, a: Action)
    requires Inv(s) && a.Spawn? && LeaseInv(Step(s, a))
    ensures Inv(Step(s, a)) && Step(s, a).disk == s.disk
  {
    hide MemInv;
    hide StartedIds;
    hide DiskAgrees;
    hide LeaseInv;
    var s' := Step(s, a);
    OpenedKeepsInv(0, map[]);
    forall x | x in s'.runtimes
      ensures MemoryInv(s', s'.runtimes[x])
    {
      assert x != a.r ==> MemoryInv(s, s.runtimes[x]);
    }
  }

  /** An end of scan claims the lease; a crash gives it up. */
  lemma TurnKeepsInv(s: System, a: Action)
    requires Inv(s) && LeaseInv(Step(s, a)) && (a.EndScan? || a.Crash?)
    ensures Inv(Step(s, a)) && Step(s, a).disk == s.disk
  {
    hide Inv;
    hide LeaseInv;
    if a.r in s.runtimes && s.runtimes[a.r].alive && Step(s, a) != s {
      QuietStepKeepsInv(s, Step(s, a), a.r);
    }
  }

  lemma InvGivesMemInv(s: System)
    requires Inv(s)
    ensures LeaseInv(s) && forall r :: r in s.runtimes ==> MemInv(s.runtimes[r].store)
  {
    hide MemInv;
    hide LeaseInv;
    assert forall r :: r in s.runtimes ==> MemoryInv(s, s.runtimes[r]);
  }

  lemma {:induction false} StepKeepsInv(s: System, a: Action)
    requires Inv(s)
    ensures Inv(Step(s, a)) && Spares(s.disk, Step(s, a).disk)
  {
    hide Inv;
    hide LeaseInv;
    hide MemInv;
    InvGivesMemInv(s);
    StepKeepsLease(s, a);
    if a.Spawn? {
      SpawnKeepsInv(s, a);
    } else if a.r in s.runtimes && s.runtimes[a.r].alive {
      match a
      case EndScan(_) => TurnKeepsInv(s, a);
      case Crash(_) => TurnKeepsInv(s, a);
      case RecoverRead(r, id, now) => RecoverReadKeepsInv(s, r, id, now);
      case RecoverWrite(r) => RecoverWriteKeepsInv(s, r);
      case EndRecovery(r, limit) => EndRecoveryKeepsInv(s, r, limit);
      case Local(r, ev) => LocalKeepsInv(s, r, ev);
      case _ => ScanStepKeepsInv(s, a);
    }
  }
}
