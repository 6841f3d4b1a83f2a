/**
 When a directory can be opened: a runtime on its own gets past the lease scan exactly when
 every lease it finds is of its own host, of a process that does not answer, and not of its own
 process id. A dead owner's lease is recoverable in that case, and only then.
 */
module TaskRecovery {
  import opened Options
  import opened TaskRuntime
  import opened TaskSystem
  import opened TaskTheorems

  /** A lease that a runtime of process `pid` on `host` can take for stale. */
  ghost predicate Stale(s: System, owner: Owner, host: nat) {
    owner.Owner? && owner.host == host && !ProcessAlive(s, owner)
  }

  /** Actions of one runtime alone, as one process on one host. */
  ghost predicate OwnRun(actions: seq<Action>, r: Name, host: nat, pid: nat) {
    forall i :: 0 <= i < |actions| ==> actions[i].r == r && (actions[i].Spawn? ==> actions[i] == Spawn(r, host, pid))
  }

  /** The same, once it has started. */
  ghost predicate OwnSteps(actions: seq<Action>, r: Name) {
    forall i :: 0 <= i < |actions| ==> actions[i].r == r && !actions[i].Spawn?
  }

  /** In the middle of a scan that has only stale leases ahead. */
  ghost predicate Scannable(s: System, r: Name) {
    && r in s.runtimes && s.runtimes[r].alive && s.runtimes[r].stage == Scanning
    && s.runtimes[r].done <= s.runtimes[r].listing
    && forall p :: p in s.runtimes[r].listing && p in s.leases ==> Stale(s, s.leases[p], s.runtimes[r].host)
  }

  /** Only what `r` itself has checked off, and the lease behind it, is different. */
  function CheckedOff(s: System, r: Name, p: Name): System
    requires r in s.runtimes
  {
    s.(runtimes := s.runtimes[r := s.runtimes[r].(done := s.runtimes[r].done + {p})], leases := s.leases - {p})
  }

  lemma RunOne(s: System, a: Action)
    ensures Run(s, [a]) == Step(s, a)
  {
    RunOneMore(s, [], a);
    RunStart(s);
    assert [] + [a] == [a];
  }

  lemma {:induction false} ScanGone(s: System, r: Name, p: Name)
    requires Scannable(s, r) && p in s.runtimes[r].listing - s.runtimes[r].done && p !in s.leases
    ensures Step(s, Examine(r, p)) == CheckedOff(s, r, p)
  {
    hide Stale, Exec, ProcessAlive;
    assert s.leases - {p} == s.leases;
  }

  lemma {:induction false} ScanStale(s: System, r: Name, p: Name)
    requires Scannable(s, r) && p in s.runtimes[r].listing - s.runtimes[r].done && p in s.leases
    ensures Step(Step(Step(s, Examine(r, p)), ProbeDead(r)), UnlinkPeer(r)) == CheckedOff(s, r, p)
  {
    hide Exec;
    var s1 := Step(s, Examine(r, p));
    assert s1 == SetStage(s, r, Probing(p, s.leases[p]));
    SameProcesses(s, s1, s.leases[p]);
    hide ProcessAlive;
    var s2 := Step(s1, ProbeDead(r));
    assert s2 == SetStage(s1, r, Unlinking(p));
  }

  /** Whether a process is alive depends on who is alive, and not on how far they are. */
  lemma SameProcesses(s: System, s': System, owner: Owner)
    requires s'.runtimes.Keys == s.runtimes.Keys
    requires forall x :: x in s.runtimes ==>
               && s'.runtimes[x].alive == s.runtimes[x].alive && s'.runtimes[x].host == s.runtimes[x].host
               && s'.runtimes[x].pid == s.runtimes[x].pid
    ensures ProcessAlive(s', owner) == ProcessAlive(s, owner)
  {
    if ProcessAlive(s, owner) {
      var x :| x in s.runtimes && s.runtimes[x].alive && Owner(s.runtimes[x].host, s.runtimes[x].pid) == owner;
      assert s'.runtimes[x].alive;
    }
  }

  lemma CheckedOffIsScannable(s: System, r: Name, p: Name)
    requires Scannable(s, r) && p in s.runtimes[r].listing
    ensures Scannable(CheckedOff(s, r, p), r)
  {
    var s' := CheckedOff(s, r, p);
    forall x | x in s'.leases ensures ProcessAlive(s', s'.leases[x]) == ProcessAlive(s, s.leases[x]) {
      SameProcesses(s, s', s.leases[x]);
    }
    hide ProcessAlive;
  }

  lemma ScanOne(s: System, r: Name, p: Name) returns (more: seq<Action>)
    requires Scannable(s, r) && p in s.runtimes[r].listing - s.runtimes[r].done
    ensures Run(s, more) == CheckedOff(s, r, p) && OwnSteps(more, r)
  {
    hide Step, Scannable, Run;
    if p !in s.leases {
      more := [Examine(r, p)];
      RunOne(s, Examine(r, p));
      ScanGone(s, r, p);
    } else {
      more := [Examine(r, p)] + [ProbeDead(r)] + [UnlinkPeer(r)];
      RunOne(s, Examine(r, p));
      RunOneMore(s, [Examine(r, p)], ProbeDead(r));
      RunOneMore(s, [Examine(r, p)] + [ProbeDead(r)], UnlinkPeer(r));
      ScanStale(s, r, p);
    }
  }

  /** A scan that meets only stale leases comes to its end. */
  lemma {:induction false} ScanFinishes(s: System, r: Name) returns (more: seq<Action>)
    requires Scannable(s, r)
    ensures var s' := Run(s, more);
            && s'.disk == s.disk && r in s'.runtimes
            && s'.runtimes[r] == s.runtimes[r].(done := s.runtimes[r].listing)
    ensures OwnSteps(more, r)
    decreases |s.runtimes[r].listing - s.runtimes[r].done|
  {
    hide ProcessAlive, Step, Run;
    var rt := s.runtimes[r];
    if rt.listing - rt.done == {} {
      assert forall p :: p in rt.listing ==> p in rt.done by {
        forall p | p in rt.listing ensures p in rt.done {
          assert p !in rt.listing - rt.done;
        }
      }
      more := [];
      RunStart(s);
    } else {
      var p :| p in rt.listing - rt.done;
      var first := ScanOne(s, r, p);
      var s1 := CheckedOff(s, r, p);
      CheckedOffIsScannable(s, r, p);
      assert s1.runtimes[r].listing - s1.runtimes[r].done == (rt.listing - rt.done) - {p};
      var rest := ScanFinishes(s1, r);
      more := first + rest;
      RunAppend(s, first, rest);
    }
  }

  // ---------- recovery ----------

  /** In the middle of a recovery, between two records. */
  ghost predicate Recoverable(s: System, r: Name) {
    && r in s.runtimes && s.runtimes[r].alive && s.runtimes[r].stage.Recovering?
    && s.runtimes[r].stage.rewrite == None && s.runtimes[r].stage.todo <= s.disk.Keys
  }

  lemma RecoverOne(s: System, r: Name, id: TaskId, now: nat) returns (more: seq<Action>)
    requires Recoverable(s, r) && id in s.runtimes[r].stage.todo
    ensures var s' := Run(s, more);
            && Recoverable(s', r) && s'.disk.Keys == s.disk.Keys
            && s'.runtimes[r] == s.runtimes[r].(stage := s'.runtimes[r].stage)
            && s'.runtimes[r].stage.todo == s.runtimes[r].stage.todo - {id}
    ensures OwnSteps(more, r)
  {
    hide Exec, ProcessAlive, Run;
    RunOne(s, RecoverRead(r, id, now));
    if Terminal(s.disk[id]) {
      more := [RecoverRead(r, id, now)];
    } else {
      more := [RecoverRead(r, id, now)] + [RecoverWrite(r)];
      RunOneMore(s, [RecoverRead(r, id, now)], RecoverWrite(r));
    }
  }

  lemma {:induction false} RecoveryFinishes(s: System, r: Name, now: nat) returns (more: seq<Action>)
    requires Recoverable(s, r)
    ensures var s' := Run(s, more);
            && Recoverable(s', r) && s'.disk.Keys == s.disk.Keys
            && s'.runtimes[r] == s.runtimes[r].(stage := s'.runtimes[r].stage)
            && s'.runtimes[r].stage.todo == {}
    ensures OwnSteps(more, r)
    decreases |s.runtimes[r].stage.todo|
  {
    hide Run;
    if s.runtimes[r].stage.todo == {} {
      more := [];
      RunStart(s);
    } else {
      var id :| id in s.runtimes[r].stage.todo;
      var first := RecoverOne(s, r, id, now);
      var rest := RecoveryFinishes(Run(s, first), r, now);
      more := first + rest;
      RunAppend(s, first, rest);
    }
  }

  // ---------- opening ----------

  /** Only stale leases are left, and none of them under the process id that is about to open. */
  ghost predicate OnlyStale(s: System, host: nat, pid: nat) {
    forall p :: p in s.leases ==> Stale(s, s.leases[p], host) && s.leases[p].pid != pid
  }

  /** A new runtime gets as far as its scan. */
  lemma CanBeginScan(s: System, r: Name, host: nat, pid: nat)
    requires LeaseInv(s) && r !in s.names && OnlyStale(s, host, pid)
    ensures var s' := Step(Step(Step(s, Spawn(r, host, pid)), Publish(r)), ListPeers(r));
            && s'.disk == s.disk && Scannable(s', r) && !s'.runtimes[r].store.leaseReleased
  {
    hide LeaseInv, Exec;
    assert r !in s.leases by { LeasesHaveNames(s); }
    var s1 := Step(s, Spawn(r, host, pid));
    forall p | p in s.leases ensures Stale(s1, s.leases[p], host) {
      NewcomerElsewhere(s, s1, r, host, pid, s.leases[p]);
    }
    var s3 := Step(Step(s1, Publish(r)), ListPeers(r));
    assert s3.leases == s.leases[r := Owner(host, pid)];
    forall p | p in s.leases ensures Stale(s3, s3.leases[p], host) {
      assert p != r;
      SameProcesses(s1, s3, s.leases[p]);
    }
    hide ProcessAlive;
    assert s3.runtimes[r].listing == s.leases.Keys;
  }

  lemma LeasesHaveNames(s: System)
    requires LeaseInv(s)
    ensures s.leases.Keys <= s.names
  {
  }

  lemma NewcomerElsewhere(s: System, s': System, r: Name, host: nat, pid: nat, owner: Owner)
    requires s'.runtimes == s.runtimes[r := NewRuntime(host, pid)]
    requires owner.Owner? && owner.pid != pid && !ProcessAlive(s, owner)
    ensures !ProcessAlive(s', owner)
  {
    forall x | x in s'.runtimes && s'.runtimes[x].alive ensures Owner(s'.runtimes[x].host, s'.runtimes[x].pid) != owner {
      assert x != r ==> x in s.runtimes && s'.runtimes[x] == s.runtimes[x];
    }
  }

  lemma CanEndScan(s: System, r: Name)
    requires r in s.runtimes && s.runtimes[r].alive && s.runtimes[r].stage == Scanning
    requires s.runtimes[r].done == s.runtimes[r].listing
    ensures var s' := Step(s, EndScan(r));
            s'.disk == s.disk && Recoverable(s', r) && s'.runtimes[r] == s.runtimes[r].(stage := s'.runtimes[r].stage)
  {
    hide Exec, ProcessAlive;
  }

  lemma CanEndRecovery(s: System, r: Name, limit: nat)
    requires Recoverable(s, r) && s.runtimes[r].stage.todo == {}
    ensures var s' := Step(s, EndRecovery(r, limit));
            s' != s && s'.disk == s.disk && r in s'.runtimes && Holds(s'.runtimes[r]) && s'.runtimes[r].stage == Open
  {
    hide Exec, ProcessAlive;
  }

  lemma OpenFrom(s: System, r: Name, host: nat, pid: nat, limit: nat, now: nat) returns (more: seq<Action>)
    requires LeaseInv(s) && r !in s.names && OnlyStale(s, host, pid)
    ensures Recoverable(Run(s, more), r) && Run(s, more).runtimes[r].stage.todo == {} && Run(s, more).disk.Keys == s.disk.Keys
    ensures OwnRun(more, r, host, pid)
  {
    hide LeaseInv, OnlyStale, Step, Run, Scannable, Recoverable;
    var opening := [Spawn(r, host, pid)] + [Publish(r)] + [ListPeers(r)];
    RunOne(s, Spawn(r, host, pid));
    RunOneMore(s, [Spawn(r, host, pid)], Publish(r));
    RunOneMore(s, [Spawn(r, host, pid)] + [Publish(r)], ListPeers(r));
    CanBeginScan(s, r, host, pid);
    var s1 := Run(s, opening);
    var scan := ScanFinishes(s1, r);
    var s2 := Run(s1, scan);
    ScanEnds(s1, s2, r);
    RunOne(s2, EndScan(r));
    var s3 := Run(s2, [EndScan(r)]);
    var recovery := RecoveryFinishes(s3, r, now);
    RunAppend(s, opening, scan);
    RunAppend(s, opening + scan, [EndScan(r)]);
    RunAppend(s, opening + scan + [EndScan(r)], recovery);
    more := opening + scan + [EndScan(r)] + recovery;
  }

  lemma ScanEnds(s1: System, s2: System, r: Name)
    requires Scannable(s1, r) && r in s2.runtimes
    requires s2.runtimes[r] == s1.runtimes[r].(done := s1.runtimes[r].listing)
    ensures Recoverable(Step(s2, EndScan(r)), r) && Step(s2, EndScan(r)).disk == s2.disk
  {
    hide ProcessAlive;
    CanEndScan(s2, r);
  }

  /**
   From every reachable state in which only dead owners' leases are left, a runtime with a new
   process id has a run that opens the directory. It then holds the lease, has loaded every
   record, and all of them are terminal.
   */
  lemma StaleLeasesAreRecoverable(s0: System, actions: seq<Action>, r: Name, host: nat, pid: nat, limit: nat, now: nat)
    returns (more: seq<Action>)
    requires Init(s0) && r !in Run(s0, actions).names && OnlyStale(Run(s0, actions), host, pid)
    ensures var s, s' := Run(s0, actions), Run(s0, actions + more);
            && r in s'.runtimes && Holds(s'.runtimes[r]) && s'.runtimes[r].stage == Open
            && s'.runtimes[r].store.recovered == s'.disk.Keys == s.disk.Keys
            && forall id :: id in s'.disk ==> Terminal(s'.disk[id])
    ensures OwnRun(more, r, host, pid)
  {
    hide Inv, LeaseInv, OnlyStale, Step, Run;
    var s := Run(s0, actions);
    RunKeepsInv(s0, actions);
    assert LeaseInv(s) by { InvGivesMemInv(s); }
    var opening := OpenFrom(s, r, host, pid, limit, now);
    RunAppend(s0, actions, opening);
    CanEndRecovery(Run(s0, actions + opening), r, limit);
    ReopenFinishesEverything(s0, actions + opening, r, limit);
    RunOneMore(s0, actions + opening, EndRecovery(r, limit));
    more := opening + [EndRecovery(r, limit)];
    assert actions + more == actions + opening + [EndRecovery(r, limit)];
  }

  // ---------- what keeps a directory locked ----------

  /** Some process other than a runtime to come answers for `owner`. */
  ghost predicate Answers(s: System, r: Name, owner: Owner) {
    exists x :: x != r && x in s.runtimes && s.runtimes[x].alive && Owner(s.runtimes[x].host, s.runtimes[x].pid) == owner
  }

  /** A lease of `owner` that a runtime on `host` with `pid` can never take for stale. */
  ghost predicate Blocking(s: System, r: Name, owner: Owner, host: nat, pid: nat) {
    owner.Garbage? || owner.host != host || owner.pid == pid || Answers(s, r, owner)
  }

  /** As far as a runtime gets that has `p` ahead of it. */
  ghost predicate Stuck(rt: Runtime, p: Name, owner: Owner, host: nat, pid: nat) {
    && rt.host == host && rt.pid == pid
    && match rt.stage
       case Publishing => true
       case Published => true
       case Refused => true
       case Scanning => p in rt.listing && p !in rt.done
       case Probing(peer, found) =>
         p in rt.listing && p !in rt.done && (peer == p ==> found == owner && owner.Owner? && owner.host == host)
       case Unlinking(peer) => p in rt.listing && p !in rt.done && peer != p
       case _ => false
  }

  /** The lease of `owner` stays, and `r` does not get past it. */
  ghost predicate Locked(s: System, r: Name, p: Name, owner: Owner, host: nat, pid: nat) {
    && p != r && p in s.leases && s.leases[p] == owner && Blocking(s, r, owner, host, pid)
    && (r in s.runtimes ==> Stuck(s.runtimes[r], p, owner, host, pid))
  }

  /** What `r` does changes no other runtime. */
  lemma OwnStepKeepsBlocking(s: System, a: Action, owner: Owner, host: nat, pid: nat)
    requires Blocking(s, a.r, owner, host, pid)
    ensures Blocking(Step(s, a), a.r, owner, host, pid)
  {
    hide Exec, ProcessAlive, Step;
    if Answers(s, a.r, owner) {
      var x :| x != a.r && x in s.runtimes && s.runtimes[x].alive && Owner(s.runtimes[x].host, s.runtimes[x].pid) == owner;
      OthersStay(s, a, x);
    }
  }

  /** A probe of a blocking lease always finds its process: another runtime, or the prober itself. */
  lemma ProbeFindsOwner(s: System, r: Name, owner: Owner, host: nat, pid: nat)
    requires Blocking(s, r, owner, host, pid) && owner.Owner? && owner.host == host
    requires r in s.runtimes && s.runtimes[r].alive && s.runtimes[r].host == host && s.runtimes[r].pid == pid
    ensures ProcessAlive(s, owner)
  {
    if owner.pid == pid {
      assert Owner(s.runtimes[r].host, s.runtimes[r].pid) == owner;
    } else {
      var x :| x != r && x in s.runtimes && s.runtimes[x].alive && Owner(s.runtimes[x].host, s.runtimes[x].pid) == owner;
    }
  }

  lemma {:induction false} StaysLocked(s: System, a: Action, p: Name, owner: Owner, host: nat, pid: nat)
    requires Locked(s, a.r, p, owner, host, pid) && (a.Spawn? ==> a == Spawn(a.r, host, pid))
    ensures Locked(Step(s, a), a.r, p, owner, host, pid)
  {
    OwnStepKeepsBlocking(s, a, owner, host, pid);
    if a.r in s.runtimes && s.runtimes[a.r].alive && s.runtimes[a.r].stage.Probing? && s.runtimes[a.r].stage.peer == p {
      ProbeFindsOwner(s, a.r, owner, host, pid);
    }
    hide Exec, Blocking, ProcessAlive;
  }

  lemma {:induction false} RunStaysLocked(s: System, more: seq<Action>, r: Name, p: Name, owner: Owner, host: nat, pid: nat)
    requires Locked(s, r, p, owner, host, pid) && OwnRun(more, r, host, pid)
    ensures Locked(Run(s, more), r, p, owner, host, pid)
  {
    hide Locked, Step;
    if more != [] {
      RunStaysLocked(s, more[..|more| - 1], r, p, owner, host, pid);
      StaysLocked(Run(s, more[..|more| - 1]), more[|more| - 1], p, owner, host, pid);
    }
  }

  /**
   With any other lease in the directory, an unreadable one, one of another host, one of a
   process that answers, or one under its own process id, no run of the new runtime gets past
   its scan.
   */
  lemma OtherLeasesLock(s: System, r: Name, host: nat, pid: nat, more: seq<Action>)
    requires LeaseInv(s) && r !in s.names && !OnlyStale(s, host, pid) && OwnRun(more, r, host, pid)
    ensures r in Run(s, more).runtimes ==> !PastScan(Run(s, more).runtimes[r])
  {
    var p :| p in s.leases && !(Stale(s, s.leases[p], host) && s.leases[p].pid != pid);
    assert p != r && r !in s.runtimes;
    var owner := s.leases[p];
    if owner.Owner? && owner.host == host && owner.pid != pid {
      assert ProcessAlive(s, owner);
      var x :| x in s.runtimes && s.runtimes[x].alive && Owner(s.runtimes[x].host, s.runtimes[x].pid) == owner;
      assert x != r;
    }
    hide LeaseInv, ProcessAlive, Run;
    RunStaysLocked(s, more, r, p, owner, host, pid);
  }

  ghost predicate Opens(s: System, r: Name, host: nat, pid: nat, more: seq<Action>) {
    OwnRun(more, r, host, pid) && r in Run(s, more).runtimes && Run(s, more).runtimes[r].stage == Open
  }

  /**
   The exact condition. In every reachable state, a new runtime has a run of its own that opens
   the directory if and only if every lease left is of its own host, of a process that does not
   answer, and not of its own process id.
   */
  lemma OpensExactlyWhenStale(s0: System, actions: seq<Action>, r: Name, host: nat, pid: nat)
    requires Init(s0) && r !in Run(s0, actions).names
    ensures var s := Run(s0, actions);
            (exists more :: Opens(s, r, host, pid, more)) <==> OnlyStale(s, host, pid)
  {
    hide Inv, LeaseInv, OnlyStale, OwnRun, Run;
    var s := Run(s0, actions);
    RunKeepsInv(s0, actions);
    assert LeaseInv(s) by { InvGivesMemInv(s); }
    if OnlyStale(s, host, pid) {
      var more := StaleLeasesAreRecoverable(s0, actions, r, host, pid, 0, 0);
      RunAppend(s0, actions, more);
      assert Opens(s, r, host, pid, more);
    } else {
      forall more | OwnRun(more, r, host, pid) ensures !Opens(s, r, host, pid, more) {
        OtherLeasesLock(s, r, host, pid, more);
      }
    }
  }

  /** A directory in which nothing has happened yet. */
  function Empty(): System {
    System(map[], map[], map[], {}, {})
  }

  /**
   A dead owner's lease is not always recoverable: a runtime that crashed right after publishing
   locks out a new one that was given the same process id, though no process answers.
   */
  lemma OwnProcessIdLocks(a: Name, b: Name, host: nat, pid: nat, more: seq<Action>)
    requires a != b && OwnRun(more, b, host, pid)
    ensures var s := Run(Empty(), [Spawn(a, host, pid), Publish(a), Crash(a)]);
            && s.leases == map[a := Owner(host, pid)] && Stale(s, Owner(host, pid), host)
            && (b in Run(s, more).runtimes ==> !PastScan(Run(s, more).runtimes[b]))
  {
    var s1 := Step(Empty(), Spawn(a, host, pid));
    var s2 := Step(s1, Publish(a));
    var s := Step(s2, Crash(a));
    assert Run(Empty(), [Spawn(a, host, pid), Publish(a), Crash(a)]) == s by {
      RunOne(Empty(), Spawn(a, host, pid));
      RunOneMore(Empty(), [Spawn(a, host, pid)], Publish(a));
      RunOneMore(Empty(), [Spawn(a, host, pid)] + [Publish(a)], Crash(a));
      assert [Spawn(a, host, pid)] + [Publish(a)] + [Crash(a)] == [Spawn(a, host, pid), Publish(a), Crash(a)];
    }
    assert s.runtimes.Keys == {a} && !s.runtimes[a].alive && s.names == {a};
    RunKeepsInv(Empty(), [Spawn(a, host, pid), Publish(a), Crash(a)]);
    InvGivesMemInv(s);
    hide LeaseInv, Run, Step;
    assert s.leases[a].pid == pid;
    OtherLeasesLock(s, b, host, pid, more);
  }

  // ---------- a refused open ----------

  lemma RefusedStep(s: System, act: Action, r: Name)
    requires r in Step(s, act).runtimes && Step(s, act).runtimes[r].stage == Refused && r in Step(s, act).leases
    ensures act == OpenFails(r, false) || (r in s.runtimes && s.runtimes[r].stage == Refused && r in s.leases)
  {
    hide Exec, ProcessAlive;
    if act.r != r && r in s.runtimes {
      assert act.Publish? || r in s.leases;
    }
  }

  /** In every run, the lease of a refused open is left behind only if its removal failed. */
  lemma {:induction false} RefusedLeavesNoLease(s0: System, actions: seq<Action>, r: Name)
    requires Init(s0) && r in Run(s0, actions).runtimes && Run(s0, actions).runtimes[r].stage == Refused
    requires r in Run(s0, actions).leases
    ensures OpenFails(r, false) in actions
  {
    hide Step;
    if actions != [] {
      var n := |actions| - 1;
      RefusedStep(Run(s0, actions[..n]), actions[n], r);
      if actions[n] != OpenFails(r, false) {
        RefusedLeavesNoLease(s0, actions[..n], r);
      }
    }
  }

  /** An open that fails has its lease removed, or left where the removal failed too; nobody else's lease is touched. */
  lemma FailedOpen(s: System, r: Name, unlinked: bool)
    requires r in s.runtimes && s.runtimes[r].alive && s.runtimes[r].stage != Open && s.runtimes[r].stage != Refused
    ensures var s' := Step(s, OpenFails(r, unlinked));
            && s'.runtimes[r].stage == Refused && s'.disk == s.disk
            && (unlinked ==> s'.leases.Keys == s.leases.Keys - {r}) && (!unlinked ==> s'.leases == s.leases)
            && forall x :: x in s.leases && x != r ==> x in s'.leases && s'.leases[x] == s.leases[x]
  {
    hide Exec, ProcessAlive;
  }
}
