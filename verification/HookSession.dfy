/**
 The lifecycle of one hooked QQ process (packages/bridge/src/hook-session.ts and
 hook-status.ts): injection, the pipe client, login, and what observers are told.

 Every stretch of code between two awaits is a method. The serialized operation chain
 is `op`: an operation starts only when none is suspended, and resumes from its await.
 Client events, the dispose call and timers fall anywhere in between.
 */
module HookSession {
  import opened Options

  datatype Status = Available | Loading | Connecting | Loaded | Online | Disconnected | Error

  /** The settled status, a function of the flags alone. */
  function StatusFor(injected: bool, connected: bool, loggedIn: bool, wasLoggedIn: bool): Status {
    if !injected then Available
    else if connected then (if loggedIn then Online else Loaded)
    else if wasLoggedIn then Disconnected
    else Connecting
  }

  /** A QQ account number: five to ten digits. */
  predicate IsRealUin(uin: string) {
    5 <= |uin| <= 10 && forall i :: 0 <= i < |uin| ==> '0' <= uin[i] <= '9'
  }

  /** What the session owes its observer. */
  datatype Notice = Login(uin: string) | LoggedOut

  /** The account the observer believes is logged in. */
  function Current(trace: seq<Notice>): Option<string> {
    if trace == [] then None
    else match trace[|trace| - 1]
         case Login(uin) => Some(uin)
         case LoggedOut => None
  }

  /** A logout closes an open login, and a login never repeats the account it is open for. */
  ghost predicate Disciplined(trace: seq<Notice>) {
    forall i :: 0 <= i < |trace| ==>
      match trace[i]
      case Login(uin) => Current(trace[..i]) != Some(uin)
      case LoggedOut => Current(trace[..i]).Some?
  }

  /** Where a login epoch begins: a login while none is open. */
  function Epochs(trace: seq<Notice>): nat {
    if trace == [] then 0
    else
      var before := trace[..|trace| - 1];
      Epochs(before) + if trace[|before|].Login? && Current(before).None? then 1 else 0
  }

  function Logouts(trace: seq<Notice>): nat {
    if trace == [] then 0
    else Logouts(trace[..|trace| - 1]) + if trace[|trace| - 1].LoggedOut? then 1 else 0
  }

  /** Each epoch ends in exactly one logout; the only one not yet ended is the open one. */
  lemma {:induction false} EveryEpochEndsOnce(trace: seq<Notice>)
    requires Disciplined(trace)
    ensures Epochs(trace) == Logouts(trace) + if Current(trace).Some? then 1 else 0
  {
    if trace != [] {
      var before := trace[..|trace| - 1];
      assert forall i :: 0 <= i < |before| ==> before[..i] == trace[..i];
      EveryEpochEndsOnce(before);
    }
  }

  lemma OneMore(trace: seq<Notice>, n: Notice)
    requires Disciplined(trace)
    requires n.Login? ==> Current(trace) != Some(n.uin)
    requires n.LoggedOut? ==> Current(trace).Some?
    ensures Disciplined(trace + [n])
  {
    var more := trace + [n];
    assert more[..|trace|] == trace;
    assert forall i :: 0 <= i < |trace| ==> more[..i] == trace[..i] && more[i] == trace[i];
  }

  /** What the suspended operation waits for. */
  datatype Op =
    | Idle
    | Injecting
    | LoadTick
    | Handshake(client: nat, watch: Option<nat>)
    | UnloadInjector
    | UnloadTick

  /** What can be told of a session from outside, and where its operation stands. */
  datatype View = View(
    status: Status,
    failed: bool,
    uin: string,
    injected: bool,
    hasHandle: bool,
    connected: bool,
    loggedIn: bool,
    client: Option<nat>,
    disposed: bool,
    watch: Option<nat>,
    connectionError: bool,
    hasConnected: bool,
    op: Op,
    nextClient: nat,
    nextWatch: nat,
    trace: seq<Notice>)

  // ------------------------------------------------------------------ the session, event by event

  /** An error outranks the flags; a session that is not connected reads disconnected only if it had reached login. */
  function StatusOf(v: View, wasLoggedIn: bool): Status {
    if v.failed || v.connectionError then Error
    else
      match (v.injected, v.connected)
      case (false, _) => Available
      case (true, true) => if v.loggedIn then Online else Loaded
      case (true, false) => if wasLoggedIn then Disconnected else Connecting
  }

  function Watched(v: View): View {
    if v.disposed || v.hasConnected || v.watch.Some? || v.connectionError then v
    else v.(watch := Some(v.nextWatch), nextWatch := v.nextWatch + 1)
  }

  /** The logout a session owes when its login ends. */
  function Owed(v: View): seq<Notice> {
    if v.loggedIn then [LoggedOut] else []
  }

  /** The client is gone, and with it connection and login; the logout owed is told. */
  function Dropped(v: View, keepFailure: bool): View {
    v.(client := None, connected := false, loggedIn := false, failed := keepFailure && v.failed, trace := v.trace + Owed(v))
  }

  /** What a report tells, given the login before it. */
  function Reported(v: View, reported: bool, account: string): seq<Notice> {
    if !(reported && IsRealUin(account)) then Owed(v)
    else if v.loggedIn && v.uin == account then []
    else [Login(account)]
  }

  function LoginIn(v: View, reported: bool, account: string): View {
    if v.disposed || v.failed then v
    else
      var valid := IsRealUin(account);
      var n := v.(uin := if valid then account else "0", loggedIn := reported && valid, trace := v.trace + Reported(v, reported, account));
      n.(status := if n.connected || n.loggedIn then StatusOf(n, v.loggedIn) else v.status)
  }

  /** The pipe is down: a live connection goes with the logout it owes, and a diagnostic is kept. */
  function DownIn(v: View): View {
    if v.connected then
      var n := Dropped(v, true);
      n.(status := StatusOf(n, v.loggedIn))
    else if v.injected then v.(status := StatusOf(v, v.loggedIn))
    else v
  }

  /** The pipe is up: a handshake starts unless the session is connected. */
  function UpIn(v: View): View {
    var w := Watched(v.(injected := true));
    if w.connected then w.(status := StatusOf(w, w.loggedIn))
    else if w.client.Some? then w.(op := Handshake(w.client.value, w.watch))
    else w.(failed := false, client := Some(w.nextClient), nextClient := w.nextClient + 1, op := Handshake(w.nextClient, w.watch))
  }

  /** The component is there: the watch for the first connection starts over. */
  function LoadedIn(v: View): View {
    if v.disposed then v
    else
      var w := Watched(v.(connectionError := false));
      w.(status := StatusOf(w, w.loggedIn))
  }

  function ExpiredIn(v: View, w: nat): View {
    if v.disposed || v.connected || v.watch != Some(w) then v
    else v.(watch := None, connectionError := true, status := Error)
  }

  function HandshakeIn(v: View, ok: bool, expired: bool, reported: bool, account: string): View
    requires v.op.Handshake?
  {
    var w := v.(op := Idle);
    if v.disposed then w
    else if ok && !v.failed then
      LoginIn(w.(connected := true, hasConnected := true, watch := None, connectionError := false), reported, account)
    else
      var t := Dropped(w, true);
      var x := if v.op.watch.Some? && expired then ExpiredIn(t, v.op.watch.value) else t;
      x.(status := StatusOf(x, v.loggedIn))
  }

  function ForgottenIn(v: View): View {
    v.(injected := false, hasHandle := false, uin := "0", op := UnloadTick)
  }

  function UnloadedIn(v: View): View {
    var t := Dropped(v.(watch := None, connectionError := false, hasConnected := false), false);
    if v.injected && v.hasHandle then t.(op := UnloadInjector) else ForgottenIn(t)
  }

  function GoneIn(v: View): View {
    if v.disposed then v
    else Dropped(v.(watch := None), false).(injected := false, hasHandle := false, status := Available, disposed := true)
  }

  function DisposedIn(v: View): View {
    if v.disposed then v else Dropped(v.(watch := None, disposed := true), false)
  }

  function FailedIn(v: View, c: nat): View {
    if v.disposed || v.client != Some(c) then v
    else v.(failed := true, watch := None, loggedIn := false, status := Error, trace := v.trace + Owed(v))
  }

  function LoadIn(v: View, live: bool): View {
    if v.disposed then v
    else if v.injected || live then LoadedIn(v.(status := Loading, injected := true))
    else v.(status := Loading, op := Injecting)
  }

  function InjectedIn(v: View, ok: bool, handle: bool): View {
    if ok then LoadedIn(v.(op := Idle, injected := true, hasHandle := handle)) else v.(status := Error, op := LoadTick)
  }

  /** After a failed load, the pipe may be up all the same. */
  function RetriedIn(v: View, polled: bool, live: bool): View {
    if polled && live && !v.disposed then UpIn(v.(op := Idle)) else v.(op := Idle)
  }

  function ReleasedIn(v: View, ok: bool): View {
    if ok then ForgottenIn(v) else v.(status := Error, op := Idle)
  }

  function VerifiedIn(v: View, polled: bool, live: bool): View {
    v.(op := Idle, status := if !polled then Error else if live then Connecting else Available)
  }

  /** What the session is after an event: nothing changes where it does not apply. */
  function Next(v: View, e: Event): View {
    match e
    case LoginEvent(reported, account) => if v.client.Some? then LoginIn(v, reported, account) else v
    case FailureEvent(c) => FailedIn(v, c)
    case DisposeEvent => DisposedIn(v)
    case HandshakeEvent(ok, expired, reported, account) =>
      if v.op.Handshake? then HandshakeIn(v, ok, expired, reported, account) else v
    case InjectEvent(ok, handle) => if v.op == Injecting then InjectedIn(v, ok, handle) else v
    case LoadTickEvent(polled, live) => if v.op == LoadTick then RetriedIn(v, polled, live) else v
    case UnloadInjectorEvent(ok) => if v.op == UnloadInjector then ReleasedIn(v, ok) else v
    case UnloadTickEvent(polled, live) => if v.op == UnloadTick then VerifiedIn(v, polled, live) else v
    case _ => if v.op == Idle then FromIdle(v, e) else v
  }

  function FromIdle(v: View, e: Event): View {
    match e
    case LoadEvent(live) => LoadIn(v, live)
    case UnloadEvent => UnloadedIn(v)
    case RefreshEvent(live) => if live then UpIn(v) else DownIn(v)
    case PipeUpEvent => if v.disposed then v else UpIn(v)
    case PipeDownEvent => if v.disposed then v else DownIn(v)
    case ClosedEvent(c) => if v.disposed || v.client != Some(c) then v else DownIn(v)
    case WatchEvent(w) => ExpiredIn(v, w)
    case GoneEvent => GoneIn(v)
    case _ => v
  }

  /** A pipe lost from a session without failure leaves it disconnected if it was logged in, and connecting if not. */
  lemma LostPipeStatus(v: View)
    requires v.op == Idle && !v.disposed && v.injected && v.connected && !v.failed && !v.connectionError
    ensures Next(v, PipeDownEvent).status == if v.loggedIn then Disconnected else Connecting
    ensures v.client.Some? ==> Next(v, ClosedEvent(v.client.value)).status == if v.loggedIn then Disconnected else Connecting
    ensures Next(v, RefreshEvent(false)).status == if v.loggedIn then Disconnected else Connecting
  {
  }

  /** A load that finds or makes the component leaves a session that is not connected connecting. */
  lemma FirstLoadStatus(v: View, handle: bool)
    requires !v.disposed && !v.connected && !v.loggedIn && !v.failed
    ensures v.op == Idle ==> Next(v, LoadEvent(true)).status == Connecting
    ensures v.op == Idle && !v.injected ==> Next(v, LoadEvent(false)).status == Loading
    ensures v.op == Injecting ==> Next(v, InjectEvent(true, handle)).status == Connecting && Next(v, InjectEvent(false, handle)).status == Error
  {
  }

  /** A failed handshake leaves a session connecting, or disconnected if a login had come in; a timed out first one is an error. */
  lemma FailedHandshakeStatus(v: View, expired: bool, reported: bool, account: string)
    requires v.op.Handshake? && !v.disposed && v.injected && !v.connected && !v.failed && !v.connectionError
    ensures var n := Next(v, HandshakeEvent(false, expired, reported, account));
            n.status == if expired && v.op.watch.Some? && v.watch == v.op.watch then Error
                        else if v.loggedIn then Disconnected else Connecting
  {
  }

  /** A handshake that succeeds is online with a real account, and loaded without. */
  lemma HandshakeStatus(v: View, expired: bool, reported: bool, account: string)
    requires v.op.Handshake? && !v.disposed && v.injected && !v.failed
    ensures Next(v, HandshakeEvent(true, expired, reported, account)).status == if reported && IsRealUin(account) then Online else Loaded
  {
  }

  /** Account numbers have five to ten digits. */
  lemma RealUins(uin: string)
    ensures IsRealUin(uin) ==> |uin| in {5, 6, 7, 8, 9, 10} && forall c :: c in uin ==> c in "0123456789"
    ensures |uin| in {5, 6, 7, 8, 9, 10} && (forall c :: c in uin ==> c in "0123456789") ==> IsRealUin(uin)
  {
    var digits := "0123456789";
    assert digits[0] == '0' && digits[1] == '1' && digits[2] == '2' && digits[3] == '3' && digits[4] == '4';
    assert digits[5] == '5' && digits[6] == '6' && digits[7] == '7' && digits[8] == '8' && digits[9] == '9';
    assert forall c: char :: '0' <= c <= '9' <==> c in digits;
    assert forall i :: 0 <= i < |uin| ==> uin[i] in uin;
  }

  // ---------- what every event keeps ----------

  /** The last notice was a login of this account, or nothing is owed; only a session that told something reads disconnected. */
  ghost predicate TraceInv(v: View) {
    && Disciplined(v.trace) && Current(v.trace) == (if v.loggedIn then Some(v.uin) else None)
    && (v.loggedIn || v.status == Disconnected ==> v.trace != [])
  }

  ghost predicate FlagInv(v: View) {
    && (v.client.None? ==> !v.connected && !v.loggedIn)
    && (v.loggedIn ==> IsRealUin(v.uin) && !v.failed)
    && (v.disposed ==> !v.connected && !v.loggedIn)
    && (!v.disposed ==>
          && (v.connected ==> v.injected && v.hasConnected && !v.connectionError && v.op == Idle)
          && (v.op.Handshake? ==> v.client == Some(v.op.client) && v.injected)
          && (!v.op.Handshake? ==> (v.client.Some? <==> v.connected)))
  }

  ghost predicate StatusInv(v: View) {
    !v.disposed ==>
      && (v.connected && !v.failed ==> v.status == StatusFor(v.injected, v.connected, v.loggedIn, v.loggedIn))
      && (v.connected && v.failed ==> v.status == Error)
      && (v.op == Idle ==> v.status != Loading)
      && (v.op == Idle && !v.connected ==> v.status != Online && v.status != Loaded)
      && (v.op.Handshake? ==> v.status != Online && v.status != Loaded && v.status != Loading)
      && (v.op == LoadTick ==> v.status == Error)
  }

  ghost predicate ViewInv(v: View) {
    TraceInv(v) && FlagInv(v) && StatusInv(v)
  }

  /** A notice that fits what the observer knows. */
  ghost predicate Fitting(trace: seq<Notice>, told: seq<Notice>) {
    && |told| <= 1
    && (told != [] && told[0].Login? ==> Current(trace) != Some(told[0].uin))
    && (told != [] && told[0].LoggedOut? ==> Current(trace).Some?)
  }

  lemma TraceGrows(v: View, n: View, told: seq<Notice>)
    requires TraceInv(v) && n.trace == v.trace + told && Fitting(v.trace, told)
    requires told == [] ==> n.loggedIn == v.loggedIn && (n.loggedIn ==> n.uin == v.uin)
    requires told != [] ==> if told[0].Login? then n.loggedIn && n.uin == told[0].uin else !n.loggedIn
    requires n.status == Disconnected ==> v.status == Disconnected || v.loggedIn || told != []
    ensures TraceInv(n)
  {
    if told == [] {
      assert n.trace == v.trace;
    } else {
      assert n.trace == v.trace + [told[0]];
      OneMore(v.trace, told[0]);
    }
  }

  lemma LoginKeepsInv(v: View, reported: bool, account: string)
    requires ViewInv(v) && v.client.Some?
    ensures ViewInv(LoginIn(v, reported, account))
  {
    hide Disciplined, IsRealUin;
    var n := LoginIn(v, reported, account);
    if !v.disposed && !v.failed {
      TraceGrows(v, n, Reported(v, reported, account));
    }
  }

  lemma DropKeepsTrace(v: View, n: View)
    requires TraceInv(v) && n.trace == v.trace + Owed(v) && !n.loggedIn
    requires n.status == Disconnected ==> v.status == Disconnected || v.loggedIn
    ensures TraceInv(n)
  {
    hide Disciplined, IsRealUin;
    TraceGrows(v, n, Owed(v));
  }

  lemma QuietKeepsTrace(v: View, n: View)
    requires TraceInv(v) && n.trace == v.trace && n.loggedIn == v.loggedIn && (n.loggedIn ==> n.uin == v.uin)
    requires n.status == Disconnected ==> v.status == Disconnected || v.loggedIn
    ensures TraceInv(n)
  {
    hide Disciplined, Current, IsRealUin;
  }

  lemma DownKeepsInv(v: View)
    requires ViewInv(v) && v.op == Idle
    ensures ViewInv(DownIn(v))
  {
    hide Disciplined, Current, IsRealUin;
    if v.connected {
      hide TraceInv;
      DropKeepsTrace(v, DownIn(v));
    }
  }

  lemma UpKeepsInv(v: View)
    requires ViewInv(v) && v.op == Idle
    ensures ViewInv(UpIn(v))
  {
    hide Disciplined, Current, IsRealUin, TraceInv;
    QuietKeepsTrace(v, UpIn(v));
  }

  /** Also right after an operation has set `loading` or come back to idle. */
  lemma LoadedKeepsInv(v: View)
    requires TraceInv(v) && FlagInv(v) && v.op == Idle && v.injected
    ensures ViewInv(LoadedIn(v))
  {
    hide Disciplined, Current, IsRealUin, TraceInv;
    QuietKeepsTrace(v, LoadedIn(v));
  }

  lemma HandshakeKeepsInv(v: View, ok: bool, expired: bool, reported: bool, account: string)
    requires ViewInv(v) && v.op.Handshake?
    ensures ViewInv(HandshakeIn(v, ok, expired, reported, account))
  {
    hide Disciplined, Current, IsRealUin;
    var n := HandshakeIn(v, ok, expired, reported, account);
    if !v.disposed && ok && !v.failed {
      SuccessKeepsInv(v, reported, account);
    } else if !v.disposed {
      DropKeepsTrace(v, n);
    }
  }

  lemma HandshakeClient(v: View)
    requires ViewInv(v) && v.op.Handshake? && !v.disposed
    ensures v.client == Some(v.op.client)
  {
  }

  lemma SuccessKeepsInv(v: View, reported: bool, account: string)
    requires ViewInv(v) && v.op.Handshake? && !v.disposed && !v.failed
    ensures ViewInv(LoginIn(v.(op := Idle, connected := true, hasConnected := true, watch := None, connectionError := false), reported, account))
  {
    hide Disciplined, IsRealUin;
    var w := v.(op := Idle, connected := true, hasConnected := true, watch := None, connectionError := false);
    TraceGrows(v, LoginIn(w, reported, account), Reported(v, reported, account));
  }

  lemma FailureKeepsInv(v: View, c: nat)
    requires ViewInv(v)
    ensures ViewInv(FailedIn(v, c))
  {
    hide Disciplined, Current, IsRealUin;
    if !v.disposed && v.client == Some(c) {
      DropKeepsTrace(v, FailedIn(v, c));
    }
  }

  lemma EndKeepsInv(v: View)
    requires ViewInv(v)
    ensures ViewInv(DisposedIn(v)) && ViewInv(GoneIn(v)) && (v.op == Idle ==> ViewInv(UnloadedIn(v)))
  {
    hide Disciplined, Current, IsRealUin;
    if !v.disposed {
      DropKeepsTrace(v, DisposedIn(v));
      DropKeepsTrace(v, GoneIn(v));
    }
    DropKeepsTrace(v, UnloadedIn(v));
  }

  lemma LoadKeepsInv(v: View, live: bool)
    requires ViewInv(v) && v.op == Idle
    ensures ViewInv(LoadIn(v, live))
  {
    hide Disciplined, Current, IsRealUin, LoadedIn;
    if v.injected || live {
      LoadedKeepsInv(v.(status := Loading, injected := true));
    }
  }

  lemma WatchKeepsInv(v: View, w: nat)
    requires ViewInv(v)
    ensures ViewInv(ExpiredIn(v, w))
  {
    hide Disciplined, Current, IsRealUin;
  }

  lemma InjectKeepsInv(v: View, ok: bool, handle: bool)
    requires ViewInv(v) && v.op == Injecting
    ensures ViewInv(InjectedIn(v, ok, handle))
  {
    hide Disciplined, Current, IsRealUin, LoadedIn;
    if ok {
      LoadedKeepsInv(v.(op := Idle, injected := true, hasHandle := handle));
    }
  }

  lemma RetryKeepsInv(v: View, polled: bool, live: bool)
    requires ViewInv(v) && v.op == LoadTick
    ensures ViewInv(RetriedIn(v, polled, live))
  {
    hide Disciplined, Current, IsRealUin, UpIn;
    if polled && live && !v.disposed {
      UpKeepsInv(v.(op := Idle));
    }
  }

  lemma ReleaseKeepsInv(v: View, ok: bool, polled: bool, live: bool)
    requires ViewInv(v)
    ensures v.op == UnloadInjector ==> ViewInv(ReleasedIn(v, ok))
    ensures v.op == UnloadTick ==> ViewInv(VerifiedIn(v, polled, live))
  {
    hide Disciplined, Current, IsRealUin;
  }

  class Session {
    var status: Status
    var runtimeFailure: bool
    var uin: string
    var injected: bool
    var connected: bool
    var loggedIn: bool
    var hasHandle: bool
    var client: Option<nat>
    var hasSender: bool
    var disposed: bool
    var watch: Option<nat>
    var connectionError: bool
    var hasConnected: bool
    var op: Op
    var closedClients: set<nat>
    var nextClient: nat
    var nextWatch: nat
    var trace: seq<Notice>
    /** Every event so far, and what it made the session tell. */
    ghost var handled: seq<(Event, seq<Notice>)>
    /** The session as it was made, and after every event. */
    ghost var views: seq<View>

    ghost function Now(): View
      reads this
    {
      View(status, runtimeFailure, uin, injected, hasHandle, connected, loggedIn, client, disposed, watch,
           connectionError, hasConnected, op, nextClient, nextWatch, trace)
    }

    ghost predicate Valid()
      reads this
    {
      ClientInv() && ViewInv(Now())
    }

    /** The current client is open: only a teardown closes one, and it forgets it too. */
    ghost predicate ClientInv()
      reads this
    {
      && (forall c :: c in closedClients ==> c < nextClient)
      && (client.Some? ==> client.value < nextClient && client.value !in closedClients && hasSender)
      && (client.None? ==> !hasSender)
    }

    constructor ()
      ensures Valid() && handled == [] && views == [Now()]
      ensures Now() == View(Available, false, "0", false, false, false, false, None, false, None, false, false, Idle, 0, 0, [])
    {
      status, runtimeFailure, uin := Available, false, "0";
      injected, connected, loggedIn, hasHandle := false, false, false, false;
      client, hasSender, disposed := None, false, false;
      watch, connectionError, hasConnected := None, false, false;
      op, closedClients, nextClient, nextWatch, trace := Idle, {}, 0, 0, [];
      handled := [];
      new;
      views := [Now()];
    }

    // ---------- pieces of the transitions ----------

    method ApplyStatus(wasLoggedIn: bool)
      modifies `status
      ensures status == StatusOf(Now(), wasLoggedIn) && Now() == old(Now()).(status := status)
    {
      if runtimeFailure {
        status := Error;
        return;
      }
      if connectionError {
        status := Error;
        return;
      }
      status := StatusFor(injected, connected, loggedIn, wasLoggedIn);
    }

    method StartWatch()
      modifies `watch, `nextWatch
      ensures Now() == Watched(old(Now()))
    {
      if disposed || hasConnected || watch.Some? || connectionError {
        return;
      }
      watch, nextWatch := Some(nextWatch), nextWatch + 1;
    }

    method TearDownClient(preserveRuntimeFailure: bool)
      modifies `client, `hasSender, `connected, `loggedIn, `runtimeFailure, `closedClients
      ensures client == None && !hasSender && !connected && !loggedIn
      ensures runtimeFailure == (preserveRuntimeFailure && old(runtimeFailure))
      ensures closedClients == old(closedClients) + if old(client).Some? then {old(client).value} else {}
    {
      if client.Some? {
        closedClients := closedClients + {client.value};
      }
      client := None;
      if !preserveRuntimeFailure {
        runtimeFailure := false;
      }
      hasSender, connected, loggedIn := false, false, false;
    }

    method Notify(n: Notice)
      modifies `trace
      ensures trace == old(trace) + [n]
    {
      trace := trace + [n];
    }

    method Note(e: Event, ghost told: seq<Notice>)
      requires Valid()
      modifies `handled, `views
      ensures Valid() && handled == old(handled) + [(e, told)] && views == old(views) + [Now()] && Now() == old(Now())
    {
      hide ViewInv;
      handled, views := handled + [(e, told)], views + [Now()];
    }

    /** Closes the client and reports the logout it owes. */
    method EndLogin(preserveRuntimeFailure: bool)
      requires ClientInv()
      modifies `client, `hasSender, `connected, `loggedIn, `runtimeFailure, `closedClients, `trace
      ensures ClientInv() && Now() == Dropped(old(Now()), preserveRuntimeFailure)
    {
      var wasLoggedIn := loggedIn;
      TearDownClient(preserveRuntimeFailure);
      if wasLoggedIn {
        Notify(LoggedOut);
      }
    }

    method ExpireConnection(w: nat)
      modifies `watch, `connectionError, `status
      ensures Now() == ExpiredIn(old(Now()), w)
    {
      if disposed || connected || watch != Some(w) {
        return;
      }
      watch := None;
      connectionError := true;
      ApplyStatus(loggedIn);
    }

    method HandleLoginState(reported: bool, account: string)
      requires ClientInv() && (client.Some? || disposed)
      modifies `uin, `loggedIn, `status, `trace
      ensures ClientInv() && Now() == LoginIn(old(Now()), reported, account)
    {
      if disposed || runtimeFailure {
        return;
      }
      var wasLoggedIn, previousUin := loggedIn, uin;
      var validIdentity := IsRealUin(account);
      uin := if validIdentity then account else "0";
      loggedIn := reported && validIdentity;
      if connected || loggedIn {
        ApplyStatus(wasLoggedIn);
      }
      TellLogin(wasLoggedIn, previousUin);
    }

    /** Tells the observer of a login that came, went or changed its account. */
    method TellLogin(wasLoggedIn: bool, previousUin: string)
      requires loggedIn ==> hasSender
      modifies `trace
      ensures trace == old(trace) + if !loggedIn then (if wasLoggedIn then [LoggedOut] else [])
                                    else if wasLoggedIn && previousUin == uin then [] else [Login(uin)]
    {
      hide Disciplined, IsRealUin;
      if !loggedIn {
        if wasLoggedIn {
          Notify(LoggedOut);
        }
        return;
      }
      if !hasSender {
        return;
      }
      if wasLoggedIn && previousUin == uin {
        return;
      }
      Notify(Login(uin));
    }

    /** Tears down a live connection and reports the logout it owes; keeps a diagnostic otherwise. */
    method ReconcilePipeDown()
      requires ClientInv() && op == Idle
      modifies `client, `hasSender, `connected, `loggedIn, `closedClients, `runtimeFailure, `status, `trace
      ensures ClientInv() && Now() == DownIn(old(Now()))
    {
      hide ViewInv;
      if !connected {
        if injected {
          ApplyStatus(loggedIn);
        }
        return;
      }
      var wasLoggedIn := loggedIn;
      EndLogin(true);
      ApplyStatus(wasLoggedIn);
    }

    /** Starts a handshake, on a fresh client unless one is still there. */
    method AttemptConnect()
      requires ClientInv() && op == Idle && !connected
      modifies `client, `hasSender, `runtimeFailure, `nextClient, `op
      ensures ClientInv() && client.Some? && op == Handshake(client.value, watch)
      ensures Now() == if old(client).Some? then old(Now()).(op := op)
                       else old(Now()).(failed := false, client := Some(old(nextClient)), nextClient := old(nextClient) + 1, op := op)
    {
      if connected {
        return;
      }
      if client.Some? && client.value in closedClients {
        assert false; // a teardown here would swallow the logout it owes, but the current client is never closed
      }
      if client.None? {
        runtimeFailure := false;
        client, nextClient := Some(nextClient), nextClient + 1;
        hasSender := true;
      }
      op := Handshake(client.value, watch);
    }

    method ReconcilePipeUp()
      requires ClientInv() && op == Idle
      modifies `injected, `watch, `nextWatch, `client, `hasSender, `runtimeFailure, `nextClient,
               `op, `status
      ensures ClientInv() && Now() == UpIn(old(Now()))
    {
      hide ViewInv, Watched;
      injected := true;
      StartWatch();
      assert Now() == Watched(old(Now()).(injected := true));
      if client.Some? && client.value in closedClients {
        assert false;
      }
      if !connected {
        AttemptConnect();
      } else {
        ApplyStatus(loggedIn);
      }
    }

    // ---------- serialized operations ----------

    /** The part of a load that follows a successful injection. */
    method FinishLoad()
      requires ClientInv()
      modifies `connectionError, `watch, `nextWatch, `status
      ensures ClientInv() && Now() == LoadedIn(old(Now()))
    {
      if disposed {
        return;
      }
      connectionError := false;
      assert Now() == old(Now()).(connectionError := false);
      StartWatch();
      hide Watched;
      ApplyStatus(loggedIn);
    }

    method Load(pipeLive: bool)
      requires ClientInv() && op == Idle
      modifies `status, `injected, `connectionError, `watch, `nextWatch, `op
      ensures ClientInv() && Now() == LoadIn(old(Now()), pipeLive)
    {
      hide StatusOf, ViewInv;
      if disposed {
        return;
      }
      status := Loading;
      if !injected {
        if pipeLive {
          injected := true;
        } else {
          op := Injecting;
          return;
        }
      }
      FinishLoad();
    }

    method InjectDone(ok: bool, handle: bool)
      requires ClientInv() && op == Injecting
      modifies `status, `injected, `hasHandle, `connectionError, `watch, `nextWatch, `op
      ensures ClientInv() && Now() == InjectedIn(old(Now()), ok, handle)
    {
      hide StatusOf, ViewInv, LoadedIn;
      hide Disciplined, Current, IsRealUin, StatusFor, StatusOf, LoadedIn;
      if ok {
        op, injected, hasHandle := Idle, true, handle;
        assert Now() == old(Now()).(op := Idle, injected := true, hasHandle := handle);
        FinishLoad();
      } else {
        status, op := Error, LoadTick;
      }
    }

    /** A failed load polls the pipe once more, and connects if it is up after all. */
    method LoadTickDone(polled: bool, pipeLive: bool)
      requires ClientInv() && op == LoadTick
      modifies `injected, `watch, `nextWatch, `client, `hasSender, `runtimeFailure, `nextClient,
               `op, `status
      ensures ClientInv() && Now() == RetriedIn(old(Now()), polled, pipeLive)
    {
      hide StatusOf, ViewInv;
      op := Idle;
      if polled && !disposed && pipeLive {
        ReconcilePipeUp();
      }
    }

    method Unload()
      requires ClientInv() && op == Idle
      modifies `watch, `connectionError, `hasConnected, `client, `hasSender, `connected, `loggedIn, `runtimeFailure,
               `closedClients, `trace, `injected, `hasHandle, `uin, `op
      ensures ClientInv() && Now() == UnloadedIn(old(Now()))
    {
      hide StatusOf, ViewInv, ForgottenIn, Dropped;
      watch, connectionError, hasConnected := None, false, false;
      assert Now() == old(Now()).(watch := None, connectionError := false, hasConnected := false);
      EndLogin(false);
      StartRelease();
    }

    /** The native component is asked to go if there is a handle to it. */
    method StartRelease()
      modifies `injected, `hasHandle, `uin, `op
      ensures Now() == if old(injected && hasHandle) then old(Now()).(op := UnloadInjector) else ForgottenIn(old(Now()))
    {
      if injected && hasHandle {
        op := UnloadInjector;
      } else {
        ForgetInjection();
      }
    }

    method ForgetInjection()
      modifies `injected, `hasHandle, `uin, `op
      ensures Now() == ForgottenIn(old(Now()))
    {
      injected, hasHandle, uin, op := false, false, "0", UnloadTick;
    }

    method UnloadInjectorDone(ok: bool)
      requires ClientInv() && op == UnloadInjector
      modifies `injected, `hasHandle, `uin, `op, `status
      ensures ClientInv() && Now() == ReleasedIn(old(Now()), ok)
    {
      hide StatusOf, ViewInv;
      if ok {
        ForgetInjection();
      } else {
        status, op := Error, Idle;
      }
    }

    /** A pipe that outlives the unload means the component is still resident. */
    method UnloadTickDone(polled: bool, pipeLive: bool)
      requires ClientInv() && op == UnloadTick
      modifies `status, `op
      ensures ClientInv() && Now() == VerifiedIn(old(Now()), polled, pipeLive)
    {
      hide StatusOf, ViewInv;
      op := Idle;
      status := if !polled then Error else if pipeLive then Connecting else Available;
    }

    method Refresh(pipeLive: bool)
      requires ClientInv() && op == Idle
      modifies this
      ensures handled == old(handled) && views == old(views)
      ensures ClientInv() && Now() == FromIdle(old(Now()), RefreshEvent(pipeLive))
    {
      if pipeLive {
        ReconcilePipeUp();
      } else {
        ReconcilePipeDown();
      }
    }

    method PipeUp()
      requires ClientInv() && op == Idle
      modifies this
      ensures handled == old(handled) && views == old(views)
      ensures ClientInv() && Now() == FromIdle(old(Now()), PipeUpEvent)
    {
      if disposed {
        return;
      }
      ReconcilePipeUp();
    }

    method PipeDown()
      requires ClientInv() && op == Idle
      modifies this
      ensures handled == old(handled) && views == old(views)
      ensures ClientInv() && Now() == FromIdle(old(Now()), PipeDownEvent)
    {
      if disposed {
        return;
      }
      ReconcilePipeDown();
    }

    /** A client's close event, once it reaches the front of the chain. */
    method ClientClosed(c: nat)
      requires ClientInv() && op == Idle
      modifies this
      ensures handled == old(handled) && views == old(views)
      ensures ClientInv() && Now() == FromIdle(old(Now()), ClosedEvent(c))
    {
      if disposed || client != Some(c) {
        return;
      }
      ReconcilePipeDown();
    }

    method WatchExpires(w: nat)
      requires ClientInv() && op == Idle
      modifies `watch, `connectionError, `status
      ensures ClientInv() && Now() == ExpiredIn(old(Now()), w)
    {
      hide StatusOf, ViewInv;
      ExpireConnection(w);
    }

    method Vanish()
      requires ClientInv()
      modifies `injected, `hasHandle, `status, `disposed
      ensures ClientInv() && Now() == old(Now()).(injected := false, hasHandle := false, status := Available, disposed := true)
    {
      injected, hasHandle, status := false, false, Available;
      disposed := true;
    }

    method ProcessGone()
      requires ClientInv() && op == Idle
      modifies `watch, `client, `hasSender, `connected, `loggedIn, `runtimeFailure, `closedClients, `trace,
               `injected, `hasHandle, `status, `disposed
      ensures ClientInv() && Now() == GoneIn(old(Now()))
    {
      hide StatusOf, ViewInv;
      if disposed {
        return;
      }
      watch := None;
      EndLogin(false);
      Vanish();
    }

    /** Drops the half-open client, and revokes a login that came in on one channel alone. */
    method HandshakeFailed(w: Option<nat>, expired: bool)
      requires ClientInv()
      modifies `client, `hasSender, `connected, `loggedIn, `runtimeFailure, `closedClients, `watch, `connectionError,
               `status, `trace
      ensures ClientInv()
      ensures var t := Dropped(old(Now()), true);
              var x := if w.Some? && expired then ExpiredIn(t, w.value) else t;
              Now() == x.(status := StatusOf(x, old(loggedIn)))
    {
      var wasLoggedIn := loggedIn;
      EndLogin(true);
      if w.Some? && expired {
        ExpireConnection(w.value);
      }
      ApplyStatus(wasLoggedIn);
    }

    /** The handshake's race settles: both channels are up, or it failed, timed out or was cancelled. */
    method HandshakeDone(ok: bool, expired: bool, reported: bool, account: string)
      requires ClientInv() && op.Handshake? && (!disposed ==> client == Some(op.client))
      modifies `client, `hasSender, `connected, `loggedIn, `runtimeFailure, `closedClients, `watch, `connectionError,
               `status, `trace, `op, `hasConnected, `uin
      ensures ClientInv() && Now() == HandshakeIn(old(Now()), ok, expired, reported, account)
    {
      hide StatusOf, ViewInv;
      var c, w := op.client, op.watch;
      op := Idle;
      if disposed || client != Some(c) {
        return;
      }
      if ok && !runtimeFailure {
        HandshakeSucceeded(reported, account);
      } else {
        HandshakeFailed(w, expired);
      }
    }

    /** Both channels are up, and the login state is the client's. */
    method HandshakeSucceeded(reported: bool, account: string)
      requires ClientInv() && client.Some?
      modifies `connected, `hasConnected, `watch, `connectionError, `uin, `loggedIn, `status, `trace
      ensures ClientInv()
      ensures Now() == LoginIn(old(Now()).(connected := true, hasConnected := true, watch := None, connectionError := false), reported, account)
    {
      hide LoginIn;
      connected, hasConnected, watch, connectionError := true, true, None, false;
      assert Now() == old(Now()).(connected := true, hasConnected := true, watch := None, connectionError := false);
      HandleLoginState(reported, account);
    }

    // ---------- events outside the chain ----------

    /** Listeners sit on the current client only; a teardown removes them first. */
    method LoginState(reported: bool, account: string)
      requires ClientInv() && client.Some?
      modifies `uin, `loggedIn, `status, `trace
      ensures ClientInv() && Now() == LoginIn(old(Now()), reported, account)
    {
      hide StatusOf, ViewInv;
      HandleLoginState(reported, account);
    }

    method RuntimeError(c: nat)
      requires ClientInv()
      modifies `runtimeFailure, `watch, `loggedIn, `status, `trace
      ensures ClientInv() && Now() == FailedIn(old(Now()), c)
    {
      hide ViewInv;
      if client != Some(c) || disposed {
        return;
      }
      var wasLoggedIn := loggedIn;
      runtimeFailure, watch, loggedIn := true, None, false;
      ApplyStatus(wasLoggedIn);
      if wasLoggedIn {
        Notify(LoggedOut);
      }
    }

    method Dispose()
      requires ClientInv()
      modifies this
      ensures handled == old(handled) && views == old(views)
      ensures ClientInv() && Now() == DisposedIn(old(Now()))
    {
      hide StatusOf, ViewInv;
      if disposed {
        return;
      }
      disposed, watch := true, None;
      EndLogin(false);
    }
  }

  datatype Event =
    | LoadEvent(pipeLive: bool)
    | InjectEvent(ok: bool, handle: bool)
    | LoadTickEvent(polled: bool, pipeLive: bool)
    | UnloadEvent
    | UnloadInjectorEvent(ok: bool)
    | UnloadTickEvent(polled: bool, pipeLive: bool)
    | RefreshEvent(pipeLive: bool)
    | PipeUpEvent
    | PipeDownEvent
    | ClosedEvent(client: nat)
    | WatchEvent(watch: nat)
    | GoneEvent
    | HandshakeEvent(ok: bool, expired: bool, reported: bool, account: string)
    | LoginEvent(reported: bool, account: string)
    | FailureEvent(client: nat)
    | DisposeEvent

  /** What an event may make the session tell: one notice at most, and a login only of the real account just reported. */
  ghost predicate Tells(e: Event, notices: seq<Notice>) {
    && |notices| <= 1
    && forall n :: n in notices && n.Login? ==>
         && IsRealUin(n.uin)
         && (e == LoginEvent(true, n.uin) || (e.HandshakeEvent? && e.ok && e.reported && e.account == n.uin))
  }

  /** Exactly what an event makes the session tell. */
  function Told(v: View, e: Event): seq<Notice> {
    match e
    case LoginEvent(reported, account) =>
      if v.client.None? || v.disposed || v.failed then [] else Reported(v, reported, account)
    case HandshakeEvent(ok, _, reported, account) =>
      if !v.op.Handshake? || v.disposed then []
      else if ok && !v.failed then Reported(v, reported, account)
      else Owed(v)
    case FailureEvent(c) => if !v.disposed && v.client == Some(c) then Owed(v) else []
    case DisposeEvent => if v.disposed then [] else Owed(v)
    case UnloadEvent => if v.op == Idle then Owed(v) else []
    case PipeDownEvent => if v.op == Idle && v.connected && !v.disposed then Owed(v) else []
    case GoneEvent => if v.op == Idle && !v.disposed then Owed(v) else []
    case RefreshEvent(live) => if v.op == Idle && !live && v.connected then Owed(v) else []
    case ClosedEvent(c) => if v.op == Idle && v.client == Some(c) && v.connected && !v.disposed then Owed(v) else []
    case _ => []
  }

  ghost predicate Reacts(v: View, e: Event, n: View) {
    n == Next(v, e)
  }

  /** What is told is told, and nothing else: the trace grows by exactly that. */
  lemma NextTells(v: View, e: Event)
    ensures Next(v, e).trace == v.trace + Told(v, e)
  {
    hide Next, Told;
    if e.HandshakeEvent? || e.LoginEvent? || e.FailureEvent? || e.DisposeEvent? {
      ClientTells(v, e);
    } else if !Starts(e) {
      ResumeTells(v, e);
    } else {
      ChainTells(v, e);
    }
  }

  lemma ClientTells(v: View, e: Event)
    requires e.HandshakeEvent? || e.LoginEvent? || e.FailureEvent? || e.DisposeEvent?
    ensures Next(v, e).trace == v.trace + Told(v, e)
  {
    hide IsRealUin, StatusOf, FromIdle, HandshakeIn, LoginIn, UpIn, LoadedIn, Reported;
    assert v.trace + [] == v.trace;
    if e.HandshakeEvent? && v.op.Handshake? {
      HandshakeTells(v, e.ok, e.expired, e.reported, e.account);
    } else if e.LoginEvent? {
      LoginTells(v, e.reported, e.account);
    }
  }

  lemma ResumeTells(v: View, e: Event)
    requires e.InjectEvent? || e.LoadTickEvent? || e.UnloadInjectorEvent? || e.UnloadTickEvent?
    ensures Next(v, e).trace == v.trace + Told(v, e)
  {
    hide IsRealUin, StatusOf, FromIdle, HandshakeIn, LoginIn, UpIn, LoadedIn, Reported;
    assert v.trace + [] == v.trace;
    QuietTells(v.(op := Idle));
    if e.InjectEvent? {
      QuietTells(v.(op := Idle, injected := true, hasHandle := e.handle));
    }
  }

  lemma ChainTells(v: View, e: Event)
    requires Starts(e)
    ensures Next(v, e).trace == v.trace + Told(v, e)
  {
    hide IsRealUin, StatusOf, FromIdle, HandshakeIn, LoginIn, UpIn, LoadedIn, Reported, DownIn;
    assert v.trace + [] == v.trace;
    if v.op == Idle {
      if e.LoadEvent? || e.UnloadEvent? || e.WatchEvent? || e.GoneEvent? {
        IdleTells(v, e);
      } else {
        PipeTells(v, e);
      }
    }
  }

  lemma QuietTells(v: View)
    ensures LoadedIn(v).trace == UpIn(v).trace == v.trace
  {
    hide StatusOf;
  }

  lemma LoginTells(v: View, reported: bool, account: string)
    ensures LoginIn(v, reported, account).trace == if v.disposed || v.failed then v.trace else v.trace + Reported(v, reported, account)
  {
    hide IsRealUin, StatusOf;
  }

  lemma HandshakeTells(v: View, ok: bool, expired: bool, reported: bool, account: string)
    requires v.op.Handshake?
    ensures HandshakeIn(v, ok, expired, reported, account).trace
         == v.trace + if v.disposed then [] else if ok && !v.failed then Reported(v, reported, account) else Owed(v)
  {
    hide IsRealUin, StatusOf, LoginIn;
    var w := v.(op := Idle, connected := true, hasConnected := true, watch := None, connectionError := false);
    LoginTells(w, reported, account);
    assert Reported(w, reported, account) == Reported(v, reported, account);
    assert v.trace + [] == v.trace;
  }

  lemma IdleTells(v: View, e: Event)
    requires v.op == Idle && (e.LoadEvent? || e.UnloadEvent? || e.WatchEvent? || e.GoneEvent?)
    ensures FromIdle(v, e).trace == v.trace + Told(v, e)
  {
    hide IsRealUin, StatusOf, UpIn, LoadedIn, Reported, DownIn;
    assert v.trace + [] == v.trace;
    QuietTells(v.(status := Loading, injected := true));
  }

  lemma DownTells(v: View)
    ensures DownIn(v).trace == v.trace + if v.connected then Owed(v) else []
  {
    hide StatusOf;
  }

  lemma PipeTells(v: View, e: Event)
    requires v.op == Idle && (e.RefreshEvent? || e.PipeUpEvent? || e.PipeDownEvent? || e.ClosedEvent?)
    ensures FromIdle(v, e).trace == v.trace + Told(v, e)
  {
    hide IsRealUin, StatusOf, UpIn, LoadedIn, Reported, DownIn;
    assert v.trace + [] == v.trace;
    QuietTells(v);
    DownTells(v);
  }

  /** What an event tells is at most one notice, and a login only of the real account just reported. */
  lemma ToldIsAllowed(v: View, e: Event)
    ensures Tells(e, Told(v, e))
  {
  }

  /** Each event reacts to the view that the one before it left, and told what it had to. */
  ghost predicate Chain(views: seq<View>, handled: seq<(Event, seq<Notice>)>) {
    && |views| == |handled| + 1
    && forall i :: 0 <= i < |handled| ==>
         Reacts(views[i], handled[i].0, views[i + 1]) && handled[i].1 == Told(views[i], handled[i].0)
  }

  function EventsOf(handled: seq<(Event, seq<Notice>)>): seq<Event> {
    seq(|handled|, i requires 0 <= i < |handled| => handled[i].0)
  }

  function NoticesOf(handled: seq<(Event, seq<Notice>)>): seq<Notice> {
    if handled == [] then [] else NoticesOf(handled[..|handled| - 1]) + handled[|handled| - 1].1
  }

  /** Each event told what it may, and nothing was told once disposal was asked for. */
  ghost predicate Sound(handled: seq<(Event, seq<Notice>)>) {
    && (forall i :: 0 <= i < |handled| ==> Tells(handled[i].0, handled[i].1))
    && (forall i, j :: 0 <= i < j < |handled| && handled[i].0 == DisposeEvent ==> handled[j].1 == [])
  }

  /** The operation under way goes on after an injection, an unload or a poll. */
  method ResumeOperation(s: Session, e: Event)
    requires s.ClientInv() && (e.InjectEvent? || e.LoadTickEvent? || e.UnloadInjectorEvent? || e.UnloadTickEvent?)
    modifies s
    ensures s.ClientInv() && s.handled == old(s.handled) && s.views == old(s.views) && Reacts(old(s.Now()), e, s.Now())
  {
    hide IsRealUin, StatusOf, LoadedIn, UpIn;
    match e
    case InjectEvent(ok, handle) => if s.op == Injecting { s.InjectDone(ok, handle); }
    case LoadTickEvent(polled, live) => if s.op == LoadTick { s.LoadTickDone(polled, live); }
    case UnloadInjectorEvent(ok) => if s.op == UnloadInjector { s.UnloadInjectorDone(ok); }
    case UnloadTickEvent(polled, live) => if s.op == UnloadTick { s.UnloadTickDone(polled, live); }
  }

  /** What the client and the disposer bring about, at any point of the chain. */
  method HandleClient(s: Session, e: Event)
    requires s.ClientInv() && (e.LoginEvent? || e.FailureEvent? || e.DisposeEvent? || e.HandshakeEvent?)
    requires s.op.Handshake? && !s.disposed ==> s.client == Some(s.op.client)
    modifies s
    ensures s.ClientInv() && s.handled == old(s.handled) && s.views == old(s.views) && Reacts(old(s.Now()), e, s.Now())
  {
    hide IsRealUin, StatusOf, LoginIn, HandshakeIn, DisposedIn, FailedIn;
    match e
    case LoginEvent(reported, account) => if s.client.Some? { s.LoginState(reported, account); }
    case FailureEvent(c) => s.RuntimeError(c);
    case DisposeEvent => s.Dispose();
    case HandshakeEvent(ok, expired, reported, account) =>
      if s.op.Handshake? { s.HandshakeDone(ok, expired, reported, account); }
  }

  predicate Starts(e: Event) {
    e.LoadEvent? || e.UnloadEvent? || e.RefreshEvent? || e.PipeUpEvent? || e.PipeDownEvent? || e.ClosedEvent?
    || e.WatchEvent? || e.GoneEvent?
  }

  /** An operation that reaches the front of the idle chain. */
  method StartOperation(s: Session, e: Event)
    requires s.ClientInv() && s.op == Idle && Starts(e)
    modifies s
    ensures s.ClientInv() && s.handled == old(s.handled) && s.views == old(s.views) && Reacts(old(s.Now()), e, s.Now())
  {
    hide IsRealUin, StatusOf, LoadIn, UnloadedIn, UpIn, DownIn, ExpiredIn, GoneIn;
    match e
    case LoadEvent(live) => s.Load(live);
    case UnloadEvent => s.Unload();
    case RefreshEvent(live) => s.Refresh(live);
    case PipeUpEvent => s.PipeUp();
    case PipeDownEvent => s.PipeDown();
    case ClosedEvent(c) => s.ClientClosed(c);
    case WatchEvent(w) => s.WatchExpires(w);
    case GoneEvent => s.ProcessGone();
  }

  /** Every event keeps what a session promises. */
  lemma NextKeepsInv(v: View, e: Event)
    requires ViewInv(v)
    ensures ViewInv(Next(v, e))
  {
    hide ViewInv, IsRealUin, StatusOf, LoadIn, UnloadedIn, UpIn, DownIn, ExpiredIn, GoneIn, LoginIn, HandshakeIn, DisposedIn, FailedIn;
    hide InjectedIn, RetriedIn, ReleasedIn, VerifiedIn;
    EndKeepsInv(v);
    match e
    case LoginEvent(reported, account) =>
      if v.client.Some? {
        LoginKeepsInv(v, reported, account);
      }
    case HandshakeEvent(ok, expired, reported, account) =>
      if v.op.Handshake? {
        HandshakeKeepsInv(v, ok, expired, reported, account);
      }
    case FailureEvent(c) => FailureKeepsInv(v, c);
    case InjectEvent(ok, handle) =>
      if v.op == Injecting {
        InjectKeepsInv(v, ok, handle);
      }
    case LoadTickEvent(polled, live) =>
      if v.op == LoadTick {
        RetryKeepsInv(v, polled, live);
      }
    case UnloadInjectorEvent(ok) => ReleaseKeepsInv(v, ok, false, false);
    case UnloadTickEvent(polled, live) => ReleaseKeepsInv(v, false, polled, live);
    case WatchEvent(w) => WatchKeepsInv(v, w);
    case LoadEvent(live) =>
      if v.op == Idle {
        LoadKeepsInv(v, live);
      }
    case _ =>
      if v.op == Idle {
        UpKeepsInv(v);
        DownKeepsInv(v);
      }
  }

  /** One event, or nothing when the chain is busy or no client is there to raise it. */
  method Handle(s: Session, e: Event) returns (ghost told: seq<Notice>)
    requires s.Valid()
    modifies s
    ensures s.Valid() && Reacts(old(s.Now()), e, s.Now()) && told == Told(old(s.Now()), e)
    ensures s.handled == old(s.handled) + [(e, told)] && s.views == old(s.views) + [s.Now()]
    ensures old(s.disposed) || e == DisposeEvent ==> s.disposed
    ensures old(s.disposed) ==> told == []
  {
    hide Told, Next, ViewInv;
    told := Told(s.Now(), e);
    NextKeepsInv(s.Now(), e);
    DisposedStays(s.Now(), e);
    assert s.op.Handshake? && !s.disposed ==> s.client == Some(s.op.client) by {
      if s.op.Handshake? && !s.disposed {
        HandshakeClient(s.Now());
      }
    }
    if e.HandshakeEvent? || e.LoginEvent? || e.FailureEvent? || e.DisposeEvent? {
      HandleClient(s, e);
    } else if !Starts(e) {
      ResumeOperation(s, e);
    } else if s.op == Idle {
      StartOperation(s, e);
    } else {
      ChainIsBusy(s.Now(), e);
    }
    s.Note(e, told);
  }

  /** A disposed session tells nothing more, and stays disposed. */
  lemma DisposedStays(v: View, e: Event)
    requires ViewInv(v)
    ensures (v.disposed || e == DisposeEvent ==> Next(v, e).disposed) && (v.disposed ==> Told(v, e) == [])
  {
    hide IsRealUin, StatusOf, TraceInv, StatusInv;
    if v.disposed {
      DisposedTellsNothing(v, e);
    }
  }

  lemma DisposedTellsNothing(v: View, e: Event)
    requires v.disposed && !v.loggedIn
    ensures Told(v, e) == []
  {
    hide IsRealUin;
  }

  /** Behind an operation under way, another one waits. */
  lemma ChainIsBusy(v: View, e: Event)
    requires Starts(e) && v.op != Idle
    ensures Reacts(v, e, v)
  {
    hide IsRealUin;
  }

  lemma EmptyChain(v: View)
    ensures Chain([v], []) && Sound([]) && NoticesOf([]) == [] && EventsOf([]) == []
  {
  }

  /** With no operation in flight, flags and public status agree. */
  lemma StatusAgrees(s: Session)
    requires s.Valid()
    ensures Disciplined(s.trace) && Current(s.trace) == if s.loggedIn then Some(s.uin) else None
    ensures s.loggedIn ==> !s.disposed && !s.runtimeFailure && IsRealUin(s.uin)
    ensures s.op == Idle && !s.disposed ==>
              && (s.connected ==> s.injected)
              && (s.client.Some? <==> s.connected)
              && (s.loggedIn ==> s.connected)
              && (s.status == Online <==> s.connected && s.loggedIn)
              && (s.connected && !s.runtimeFailure ==>
                    s.status == StatusFor(s.injected, s.connected, s.loggedIn, s.loggedIn))
              && s.status != Loading
    ensures s.status == Disconnected ==> s.trace != []
  {
    hide Disciplined, Current, IsRealUin;
  }

  lemma {:induction false} ChainGrows(views: seq<View>, handled: seq<(Event, seq<Notice>)>, e: Event, n: View)
    requires Chain(views, handled) && Reacts(views[|handled|], e, n)
    ensures Chain(views + [n], handled + [(e, Told(views[|handled|], e))])
  {
    hide Reacts, Told;
  }

  lemma {:induction false} SoundGrows(handled: seq<(Event, seq<Notice>)>, e: Event, told: seq<Notice>)
    requires Sound(handled) && Tells(e, told)
    requires (exists i :: 0 <= i < |handled| && handled[i].0 == DisposeEvent) ==> told == []
    ensures var more := handled + [(e, told)];
            Sound(more) && EventsOf(more) == EventsOf(handled) + [e] && NoticesOf(more) == NoticesOf(handled) + told
  {
    hide Tells;
    var more := handled + [(e, told)];
    assert more[..|handled|] == handled;
    assert forall i :: 0 <= i < |handled| ==> more[i] == handled[i];
  }

  /**
   Any run of a session. It handled exactly these events, from the session as it was made to the
   one it ends as: each took it where it may and told exactly what it had to, a login only of the
   account just reported, and nothing once disposal was asked for. What the
   observer was told is disciplined, the last notice is a login exactly while logged in, every
   login epoch has ended in exactly one logout, and with no operation in flight the flags and
   the public status agree.
   */
  method Drive(events: seq<Event>) returns (s: Session)
    ensures fresh(s) && s.Valid() && Disciplined(s.trace)
    ensures EventsOf(s.handled) == events && NoticesOf(s.handled) == s.trace && Sound(s.handled)
    ensures Chain(s.views, s.handled) && s.views[|s.views| - 1] == s.Now()
    ensures s.views[0] == View(Available, false, "0", false, false, false, false, None, false, None, false, false, Idle, 0, 0, [])
    ensures Current(s.trace) == (if s.loggedIn then Some(s.uin) else None) && (s.status == Disconnected ==> s.trace != [])
    ensures Epochs(s.trace) == Logouts(s.trace) + if s.loggedIn then 1 else 0
    ensures s.loggedIn ==> !s.disposed && !s.runtimeFailure && IsRealUin(s.uin)
    ensures s.op == Idle && !s.disposed ==>
              && (s.connected ==> s.injected)
              && (s.client.Some? <==> s.connected)
              && (s.loggedIn ==> s.connected)
              && (s.status == Online <==> s.connected && s.loggedIn)
              && (s.connected && !s.runtimeFailure ==>
                    s.status == StatusFor(s.injected, s.connected, s.loggedIn, s.loggedIn))
              && s.status != Loading
  {
    hide Sound, NoticesOf, Tells, Disciplined, Current, IsRealUin, Told, Next, Chain, StatusFor, Epochs, Logouts, ViewInv;
    s := new Session();
    EmptyChain(s.Now());
    ghost var first := s.Now();
    for i := 0 to |events|
      invariant fresh(s) && s.Valid() && Sound(s.handled) && |s.views| > 0 && s.views[0] == first
      invariant Chain(s.views, s.handled) && |s.views| == i + 1 == |s.handled| + 1 && s.views[i] == s.Now()
      invariant EventsOf(s.handled) == events[..i] && NoticesOf(s.handled) == s.trace
      invariant (exists k :: 0 <= k < |s.handled| && s.handled[k].0 == DisposeEvent) ==> s.disposed
    {
      ghost var was, seen := s.handled, s.views;
      ToldIsAllowed(s.Now(), events[i]);
      NextTells(s.Now(), events[i]);
      ghost var told := Handle(s, events[i]);
      SoundGrows(was, events[i], told);
      ChainGrows(seen, was, events[i], s.Now());
      assert events[..i + 1] == events[..i] + [events[i]];
    }
    assert events[..|events|] == events;
    StatusAgrees(s);
    EveryEpochEndsOnce(s.trace);
  }
}
