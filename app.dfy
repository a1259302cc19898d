/**
 * The application lifecycle orchestrator of app.go: a registry of services,
 * exit handlers and shutdown waiters, and the Run sequence that configures
 * the services, starts the runnable ones, serves signals and tears down.
 *
 * Calls into services, handlers and channels are recorded in a trace of
 * `Call`s; goroutines and OS signals become the `RunEvent`s given to Run.
 */
module App {
  import opened Wrappers
  import opened Lifecycle

  /**
   * A registered service instance. `id` is its identity: Go compares the
   * interface values, which for the SDK's services, held by address, is that address.
   * `runnable` and `reloadable` say whether it also implements
   * RunnableService and ReloadableService.
   */
  datatype Service = Service(id: nat, runnable: bool, reloadable: bool)

  datatype ServiceInfo = ServiceInfo(service: Service, critical: bool)

  /** How beginRun watches a runnable service it starts. */
  datatype Watch = MainWatch | CriticalWatch | Unwatched

  /** The calls the application makes, in the order it makes them. */
  datatype Call =
    | InitFlags(svc: nat)
    | Configure(svc: nat)
    | Reload(svc: nat)
    | Start(svc: nat, watch: Watch)
    | Stop(svc: nat)
    | Cleanup(svc: nat)
    | ExitHandler(handler: nat)
    | ShutdownRequested
    | ReleaseWaiter(chan: nat)

  datatype Signal = SigHup | SigInt | SigTerm

  /**
   * What reaches the Run loop: an OS signal, or a service goroutine started
   * by beginRun returning from its Run, with or without an error.
   */
  datatype RunEvent = OsSignal(sig: Signal) | ServiceReturned(svc: nat, failed: bool)

  datatype RunOutcome =
    | NoMainService          // log.Fatal: no main service registered
    | StillRunning           // the signal loop is still waiting
    | Finished(failed: bool) // teardown done; `failed` leads to os.Exit(1)

  datatype RegOutcome = Registered | FatalDuplicate

  datatype LogConfig = LogConfig(flagPrefix: string, basePrefix: string, defaultLevel: string)

  // ------------------------------------------------------------------
  // Specification functions

  function Ids(s: seq<ServiceInfo>): (ids: seq<nat>)
    ensures |ids| == |s|
  {
    seq(|s|, k requires 0 <= k < |s| => s[k].service.id)
  }

  predicate Distinct(ids: seq<nat>)
  {
    forall i, j :: 0 <= i < j < |ids| ==> ids[i] != ids[j]
  }

  /** initLogging's defaults: an empty field gets "core-", "core" or "info". */
  function WithLogDefaults(c: LogConfig): (r: LogConfig)
    ensures r.flagPrefix == (if c.flagPrefix == "" then "core-" else c.flagPrefix)
    ensures r.basePrefix == (if c.basePrefix == "" then "core" else c.basePrefix)
    ensures r.defaultLevel == (if c.defaultLevel == "" then "info" else c.defaultLevel)
  {
    LogConfig(
      if c.flagPrefix == "" then "core-" else c.flagPrefix,
      if c.basePrefix == "" then "core" else c.basePrefix,
      if c.defaultLevel == "" then "info" else c.defaultLevel)
  }

  /** The defaults never leave a field empty and never override a set one. */
  lemma LogDefaultsFilled(c: LogConfig)
    ensures var r := WithLogDefaults(c);
      r.flagPrefix != "" && r.basePrefix != "" && r.defaultLevel != ""
      && (c.flagPrefix != "" ==> r.flagPrefix == c.flagPrefix)
      && WithLogDefaults(r) == r
  {
  }

  function ConfigureCalls(ids: seq<nat>): (calls: seq<Call>)
    ensures |calls| == |ids|
    ensures forall k :: 0 <= k < |ids| ==> calls[k] == Configure(ids[k])
  {
    seq(|ids|, k requires 0 <= k < |ids| => Configure(ids[k]))
  }

  /** Reload calls on the reloadable services, in registration order. */
  function ReloadCalls(s: seq<ServiceInfo>): (calls: seq<Call>)
    ensures |calls| <= |s|
    ensures forall c :: c in calls ==>
      c.Reload? && exists k :: 0 <= k < |s| && s[k].service.reloadable && s[k].service.id == c.svc
    ensures forall k :: 0 <= k < |s| && s[k].service.reloadable ==> Reload(s[k].service.id) in calls
  {
    if s == [] then []
    else
      var init := s[..|s| - 1];
      var last := s[|s| - 1];
      assert forall k :: 0 <= k < |init| ==> init[k] == s[k];
      ReloadCalls(init) + (if last.service.reloadable then [Reload(last.service.id)] else [])
  }

  /**
   * Registration order: the reload calls of the services before position
   * `k` all come before those of the services from `k` on, and a single
   * service gets one call exactly when it is reloadable.
   */
  lemma {:induction false} ReloadCallsSplit(s: seq<ServiceInfo>, k: nat)
    requires k <= |s|
    ensures ReloadCalls(s) == ReloadCalls(s[..k]) + ReloadCalls(s[k..])
    ensures |s| == 1 ==> ReloadCalls(s) == (if s[0].service.reloadable then [Reload(s[0].service.id)] else [])
    decreases |s|
  {
    if |s| == 1 {
      assert s[..|s| - 1] == [];
    }
    if k == |s| {
      assert s[..k] == s && s[k..] == [];
    } else {
      var init, last := s[..|s| - 1], s[|s| - 1];
      ReloadCallsSplit(init, k);
      assert init[..k] == s[..k];
      var tail := s[k..];
      assert tail[..|tail| - 1] == init[k..] && tail[|tail| - 1] == last;
      var tl := if last.service.reloadable then [Reload(last.service.id)] else [];
      assert ReloadCalls(tail) == ReloadCalls(init[k..]) + tl;
      CallsAssoc3(ReloadCalls(s[..k]), ReloadCalls(init[k..]), tl);
    }
  }

  lemma CallsAssoc3(a: seq<Call>, b: seq<Call>, c: seq<Call>)
    ensures a + b + c == a + (b + c)
  {
  }

  /** How beginRun watches a service: the main one, a critical one, or neither. */
  function WatchOf(info: ServiceInfo, main: Option<nat>): Watch
  {
    if main == Some(info.service.id) then MainWatch
    else if info.critical then CriticalWatch
    else Unwatched
  }

  /** The goroutines beginRun starts: one per runnable service, in order. */
  function StartCalls(s: seq<ServiceInfo>, main: Option<nat>): (calls: seq<Call>)
    ensures |calls| <= |s|
    ensures forall c :: c in calls ==>
      c.Start? && exists k :: 0 <= k < |s| && s[k].service.runnable && c == Start(s[k].service.id, WatchOf(s[k], main))
    ensures forall k :: 0 <= k < |s| && s[k].service.runnable ==>
      Start(s[k].service.id, WatchOf(s[k], main)) in calls
  {
    if s == [] then []
    else
      var init := s[..|s| - 1];
      var last := s[|s| - 1];
      assert forall k :: 0 <= k < |init| ==> init[k] == s[k];
      StartCalls(init, main)
      + (if last.service.runnable then [Start(last.service.id, WatchOf(last, main))] else [])
  }

  /**
   * Registration order: the goroutines of the services before position `k`
   * are all started before those of the services from `k` on, and a single
   * service is started exactly when it is runnable, with its watch kind.
   */
  lemma {:induction false} StartCallsSplit(s: seq<ServiceInfo>, main: Option<nat>, k: nat)
    requires k <= |s|
    ensures StartCalls(s, main) == StartCalls(s[..k], main) + StartCalls(s[k..], main)
    ensures |s| == 1 ==> StartCalls(s, main) == (if s[0].service.runnable then [Start(s[0].service.id, WatchOf(s[0], main))] else [])
    decreases |s|
  {
    if |s| == 1 {
      StartCallsSnoc(s, main);
      assert s[..0] == [];
    }
    if k == |s| {
      assert s[..k] == s && s[k..] == [];
    } else {
      var init := s[..|s| - 1];
      StartCallsSplit(init, main, k);
      assert init[..k] == s[..k];
      var tail := s[k..];
      assert tail[..|tail| - 1] == init[k..] && tail[|tail| - 1] == s[|s| - 1];
      StartCallsSnoc(s, main);
      StartCallsSnoc(tail, main);
      CallsAssoc3(StartCalls(s[..k], main), StartCalls(init[k..], main), LastStart(s, main));
    }
  }

  /** The start call of the last service of `s`, if it is runnable. */
  function LastStart(s: seq<ServiceInfo>, main: Option<nat>): seq<Call>
    requires |s| > 0
  {
    var last := s[|s| - 1];
    if last.service.runnable then [Start(last.service.id, WatchOf(last, main))] else []
  }

  lemma StartCallsSnoc(s: seq<ServiceInfo>, main: Option<nat>)
    requires |s| > 0
    ensures StartCalls(s, main) == StartCalls(s[..|s| - 1], main) + LastStart(s, main)
  {
  }

  /**
   * The number of app.Shutdown calls a started service's goroutine makes
   * when its Run returns: one from runService when Run failed, and one more
   * from the wrapper of the main service and of critical services. So a
   * watched service always asks for shutdown, an unwatched one only on error.
   */
  function ShutdownCount(w: Watch, failed: bool): (n: nat)
    ensures n <= 2
    ensures n >= 1 <==> failed || w != Unwatched
    ensures w == Unwatched && !failed ==> n == 0
  {
    (if failed then 1 else 0) + (if w != Unwatched then 1 else 0)
  }

  /** The Stop calls of stop: runnable services only, last registered first. */
  function ReverseStops(s: seq<ServiceInfo>): (calls: seq<Call>)
    ensures |calls| <= |s|
    ensures forall c :: c in calls ==>
      c.Stop? && exists k :: 0 <= k < |s| && s[k].service.runnable && s[k].service.id == c.svc
    ensures forall k :: 0 <= k < |s| && s[k].service.runnable ==> Stop(s[k].service.id) in calls
  {
    if s == [] then []
    else
      assert forall k :: 0 <= k < |s| - 1 ==> s[1..][k] == s[k + 1];
      ReverseStops(s[1..]) + (if s[0].service.runnable then [Stop(s[0].service.id)] else [])
  }

  /**
   * Reverse order: every service registered at or after position `k` is
   * stopped before every service registered before it.
   */
  lemma {:induction false} ReverseStopsSplit(s: seq<ServiceInfo>, k: nat)
    requires k <= |s|
    ensures ReverseStops(s) == ReverseStops(s[k..]) + ReverseStops(s[..k])
  {
    if k == 0 {
      assert s[0..] == s;
    } else {
      ReverseStopsSplit(s[1..], k - 1);
      assert s[1..][k - 1..] == s[k..];
      assert s[..k][1..] == s[1..][..k - 1];
      assert s[..k][0] == s[0];
    }
  }

  /** The Cleanup calls of cleanup: every service, last registered first. */
  function ReverseCleanups(s: seq<ServiceInfo>): (calls: seq<Call>)
    ensures |calls| == |s|
    ensures forall k :: 0 <= k < |s| ==> calls[k] == Cleanup(s[|s| - 1 - k].service.id)
  {
    if s == [] then []
    else ReverseCleanups(s[1..]) + [Cleanup(s[0].service.id)]
  }

  function HandlerCalls(hs: seq<nat>): (calls: seq<Call>)
    ensures |calls| == |hs|
    ensures forall k :: 0 <= k < |hs| ==> calls[k] == ExitHandler(hs[k])
  {
    seq(|hs|, k requires 0 <= k < |hs| => ExitHandler(hs[k]))
  }

  function ReleaseCalls(ws: seq<nat>): (calls: seq<Call>)
    ensures |calls| == |ws|
    ensures forall k :: 0 <= k < |ws| ==> calls[k] == ReleaseWaiter(ws[k])
  {
    seq(|ws|, k requires 0 <= k < |ws| => ReleaseWaiter(ws[k]))
  }

  /**
   * The teardown after the SHUTDOWN label: exit handlers in registration
   * order, then stop and cleanup in reverse, then every waiter released.
   */
  function TeardownCalls(hs: seq<nat>, s: seq<ServiceInfo>, ws: seq<nat>): seq<Call>
  {
    HandlerCalls(hs) + ReverseStops(s) + ReverseCleanups(s) + ReleaseCalls(ws)
  }

  /** The registered entry of a runnable service, if there is one. */
  function RunnableEntry(s: seq<ServiceInfo>, id: nat): (r: Option<ServiceInfo>)
    ensures r.Some? ==> r.value in s && r.value.service.id == id && r.value.service.runnable
    ensures r.None? ==> forall k :: 0 <= k < |s| && s[k].service.id == id ==> !s[k].service.runnable
  {
    if s == [] then None
    else if s[0].service.id == id && s[0].service.runnable then Some(s[0])
    else
      var r := RunnableEntry(s[1..], id);
      assert forall k :: 1 <= k < |s| ==> s[k] == s[1..][k - 1];
      r
  }

  /** The number of Shutdown calls an event makes; signals make none. */
  function EventShutdowns(e: RunEvent, s: seq<ServiceInfo>, main: Option<nat>): (n: nat)
    ensures n <= 2
    ensures e.OsSignal? ==> n == 0
  {
    match e
    case OsSignal(_) => 0
    case ServiceReturned(id, failed) =>
      match RunnableEntry(s, id)
      case None => 0
      case Some(info) => ShutdownCount(WatchOf(info, main), failed)
  }

  /** An event that makes the Run loop go to SHUTDOWN. */
  predicate Terminates(e: RunEvent, s: seq<ServiceInfo>, main: Option<nat>)
  {
    (e.OsSignal? && e.sig != SigHup) || EventShutdowns(e, s, main) > 0
  }

  /** The position of the first event that ends the loop, or |es|. */
  function FirstTerminating(es: seq<RunEvent>, s: seq<ServiceInfo>, main: Option<nat>): (t: nat)
    ensures t <= |es|
    ensures forall j :: 0 <= j < t ==> !Terminates(es[j], s, main)
    ensures t < |es| ==> Terminates(es[t], s, main)
  {
    if es == [] then 0
    else if Terminates(es[0], s, main) then 0
    else 1 + FirstTerminating(es[1..], s, main)
  }

  /** The calls made while serving events that do not end the loop: a reload per SIGHUP. */
  function LoopCalls(es: seq<RunEvent>, s: seq<ServiceInfo>): seq<Call>
  {
    if es == [] then []
    else
      LoopCalls(es[..|es| - 1], s)
      + (if es[|es| - 1] == OsSignal(SigHup) then ReloadCalls(s) else [])
  }

  function Repeat(c: Call, n: nat): (r: seq<Call>)
    ensures |r| == n && forall k :: 0 <= k < n ==> r[k] == c
  {
    seq(n, k => c)
  }

  /**
   * How many of `n` Shutdown calls, one after the other, block on chSignal,
   * from a Run loop that has ended or not and a channel that is full or
   * not. Every call leaves the loop ended, and the channel full exactly
   * when the loop had ended before it. So from a running loop two calls
   * get through and every later one blocks.
   */
  function StuckShutdowns(ended: bool, queued: bool, n: nat): (stuck: nat)
    ensures stuck <= n
    ensures ended && queued ==> stuck == n
    ensures ended && !queued ==> stuck == if n >= 1 then n - 1 else 0
    ensures !ended ==> stuck == if n >= 2 then n - 2 else 0
    decreases n
  {
    if n == 0 then 0
    else (if ended && queued then 1 else 0) + StuckShutdowns(true, ended, n - 1)
  }

  // ------------------------------------------------------------------
  // The application

  class Application {
    var services: seq<ServiceInfo>
    var mainSvc: Option<nat>
    var isShutdown: bool
    var exitHandlers: seq<nat>
    var shutWaiters: seq<nat>
    var logConfig: LogConfig
    /** The next unused channel identity; Shutdown makes a fresh channel. */
    var nextChan: nat
    /** Every call the application has made so far. */
    var trace: seq<Call>
    /**
     * The Run loop over chSignal has been handed the signal that ends it
     * (read already, or waiting in the channel for it), so it reads no more.
     */
    var loopEnded: bool
    /** chSignal, of capacity 1, holds a SIGTERM that nobody will read. */
    var signalQueued: bool

    ghost predicate Valid()
      reads this
    {
      Distinct(Ids(services))
      && (mainSvc.Some? ==> mainSvc.value in Ids(services))
      && (forall w :: w in shutWaiters ==> w < nextChan)
      && (signalQueued ==> loopEnded)
    }

    /**
     * NewApp with its initLogging step: the logging defaults are filled in
     * and the logging service is the first one registered.
     */
    constructor (config: LogConfig, logSvc: Service)
      ensures Valid()
      ensures logConfig == WithLogDefaults(config)
      ensures services == [ServiceInfo(logSvc, false)]
      ensures trace == [InitFlags(logSvc.id)]
      ensures mainSvc == None && !isShutdown
      ensures exitHandlers == [] && shutWaiters == []
      ensures !loopEnded && !signalQueued
    {
      logConfig := WithLogDefaults(config);
      services := [ServiceInfo(logSvc, false)];
      trace := [InitFlags(logSvc.id)];
      mainSvc := None;
      isShutdown := false;
      exitHandlers := [];
      shutWaiters := [];
      nextChan := 0;
      loopEnded := false;
      signalQueued := false;
    }

    /**
     * RegService: registering an instance already present is fatal and
     * changes nothing; otherwise its InitFlags is called and it is appended,
     * not critical.
     */
    method RegService(svc: Service) returns (r: RegOutcome)
      requires Valid()
      modifies this`services, this`trace
      ensures Valid()
      ensures r == FatalDuplicate <==> svc.id in Ids(old(services))
      ensures r == FatalDuplicate ==> services == old(services) && trace == old(trace)
      ensures r == Registered ==>
        services == old(services) + [ServiceInfo(svc, false)]
        && trace == old(trace) + [InitFlags(svc.id)]
    {
      var i := 0;
      while i < |services|
        invariant 0 <= i <= |services|
        invariant svc.id !in Ids(services)[..i]
      {
        if services[i].service.id == svc.id {
          assert Ids(services)[i] == svc.id;
          return FatalDuplicate;
        }
        i := i + 1;
      }
      assert Ids(services)[..i] == Ids(services);
      trace := trace + [InitFlags(svc.id)];
      ghost var before := services;
      services := services + [ServiceInfo(svc, false)];
      assert Ids(services) == Ids(before) + [svc.id];
      r := Registered;
    }

    /** RegMainService: RegService, then the service becomes the main one. */
    method RegMainService(svc: Service) returns (r: RegOutcome)
      requires Valid()
      modifies this`services, this`trace, this`mainSvc
      ensures Valid()
      ensures r == FatalDuplicate <==> svc.id in Ids(old(services))
      ensures r == FatalDuplicate ==> unchanged(this)
      ensures r == Registered ==>
        services == old(services) + [ServiceInfo(svc, false)]
        && trace == old(trace) + [InitFlags(svc.id)]
        && mainSvc == Some(svc.id)
    {
      r := RegService(svc);
      if r == Registered {
        assert svc.id == Ids(services)[|services| - 1];
        mainSvc := Some(svc.id);
      }
    }

    /**
     * SetCriticalService: every entry of the service is marked critical;
     * other entries, and the order, stay as they were.
     */
    method SetCriticalService(id: nat)
      requires Valid()
      modifies this`services
      ensures Valid()
      ensures |services| == |old(services)|
      ensures forall k :: 0 <= k < |services| ==>
        services[k].service == old(services[k].service)
        && services[k].critical == (old(services[k].critical) || services[k].service.id == id)
      ensures id !in Ids(old(services)) ==> services == old(services)
    {
      var i := 0;
      while i < |services|
        invariant 0 <= i <= |services| == |old(services)|
        invariant forall k :: 0 <= k < |services| ==> services[k].service == old(services[k].service)
        invariant forall k :: 0 <= k < i ==>
          services[k].critical == (old(services[k].critical) || services[k].service.id == id)
        invariant forall k :: i <= k < |services| ==> services[k] == old(services[k])
        invariant Ids(services) == Ids(old(services))
      {
        if services[i].service.id == id {
          services := services[i := services[i].(critical := true)];
        }
        i := i + 1;
      }
      if id !in Ids(old(services)) {
        assert forall k :: 0 <= k < |services| ==> Ids(old(services))[k] == old(services[k]).service.id;
        assert forall k :: 0 <= k < |services| ==> services[k].service.id != id;
      }
    }

    /** RegisterExitHandler appends the handler. */
    method RegisterExitHandler(h: nat)
      modifies this`exitHandlers
      ensures exitHandlers == old(exitHandlers) + [h]
    {
      exitHandlers := exitHandlers + [h];
    }

    /** IsShutdown. */
    method IsShutdown() returns (b: bool)
      ensures b == isShutdown
    {
      b := isShutdown;
    }

    /**
     * configure: Configure on every service in registration order, stopping
     * at the first error, which is returned.
     */
    method ConfigureAll(result: nat -> Option<string>) returns (err: Option<string>)
      modifies this`trace
      ensures err == ConfigureError(Ids(services), result)
      ensures trace == old(trace) + ConfigureCalls(ConfiguredIds(Ids(services), result))
    {
      ghost var ids := Ids(services);
      ghost var k := FirstFailure(ids, result);
      var i := 0;
      while i < |services|
        invariant 0 <= i <= k
        invariant trace == old(trace) + ConfigureCalls(ids[..i])
      {
        assert ids[i] == services[i].service.id;
        trace := trace + [Configure(services[i].service.id)];
        assert ids[..i + 1] == ids[..i] + [ids[i]];
        err := result(services[i].service.id);
        if err.Some? {
          assert i == k;
          return;
        }
        i := i + 1;
      }
      assert ids[..i] == ids;
      err := None;
    }

    /** Reload: Reload on every reloadable service, in registration order. */
    method ReloadAll()
      modifies this`trace
      ensures trace == old(trace) + ReloadCalls(services)
    {
      var i := 0;
      while i < |services|
        invariant 0 <= i <= |services|
        invariant trace == old(trace) + ReloadCalls(services[..i])
      {
        assert services[..i + 1][..i] == services[..i];
        if services[i].service.reloadable {
          trace := trace + [Reload(services[i].service.id)];
        }
        i := i + 1;
      }
      assert services[..i] == services;
    }

    /** beginRun: one goroutine per runnable service, watched as WatchOf says. */
    method BeginRun()
      modifies this`trace
      ensures trace == old(trace) + StartCalls(services, mainSvc)
    {
      var i := 0;
      while i < |services|
        invariant 0 <= i <= |services|
        invariant trace == old(trace) + StartCalls(services[..i], mainSvc)
      {
        assert services[..i + 1][..i] == services[..i];
        if services[i].service.runnable {
          trace := trace + [Start(services[i].service.id, WatchOf(services[i], mainSvc))];
        }
        i := i + 1;
      }
      assert services[..i] == services;
    }

    /** stop: Stop on the runnable services, last registered first. */
    method StopAll()
      modifies this`trace
      ensures trace == old(trace) + ReverseStops(services)
    {
      var i := |services|;
      while i > 0
        invariant 0 <= i <= |services|
        invariant trace == old(trace) + ReverseStops(services[i..])
      {
        i := i - 1;
        assert services[i..][1..] == services[i + 1..];
        if services[i].service.runnable {
          trace := trace + [Stop(services[i].service.id)];
        }
      }
    }

    /** cleanup: Cleanup on every service, last registered first. */
    method CleanupAll()
      modifies this`trace
      ensures trace == old(trace) + ReverseCleanups(services)
    {
      var i := |services|;
      while i > 0
        invariant 0 <= i <= |services|
        invariant trace == old(trace) + ReverseCleanups(services[i..])
      {
        i := i - 1;
        assert services[i..][1..] == services[i + 1..];
        trace := trace + [Cleanup(services[i].service.id)];
      }
    }

    /**
     * Shutdown: SIGTERM is sent on chSignal and a fresh channel is
     * returned, already signalled once the application is shut down and
     * otherwise queued as a waiter. The first SIGTERM goes to the Run loop,
     * which ends on it; once the loop has ended, one more SIGTERM fits in
     * the channel, and a send after that never completes (`blocked`): the
     * caller hangs before making its channel.
     */
    method Shutdown() returns (ch: nat, signalled: bool, blocked: bool)
      requires Valid()
      modifies this`trace, this`shutWaiters, this`nextChan, this`loopEnded, this`signalQueued
      ensures Valid()
      ensures trace == old(trace) + [ShutdownRequested]
      ensures blocked <==> old(loopEnded) && old(signalQueued)
      ensures loopEnded && signalQueued == old(loopEnded)
      ensures blocked ==> !signalled && nextChan == old(nextChan) && shutWaiters == old(shutWaiters)
      ensures !blocked ==>
        && ch == old(nextChan) && nextChan == ch + 1
        && signalled == isShutdown
        && shutWaiters == if isShutdown then old(shutWaiters) else old(shutWaiters) + [ch]
    {
      trace := trace + [ShutdownRequested];
      ch := nextChan;
      blocked := signalQueued;
      if blocked {
        signalled := false;
        return;
      }
      signalQueued := loopEnded;
      loopEnded := true;
      nextChan := nextChan + 1;
      if isShutdown {
        signalled := true;
      } else {
        shutWaiters := shutWaiters + [ch];
        signalled := false;
      }
    }

    /**
     * The SHUTDOWN part of Run: exit handlers, stop, cleanup, then the
     * application is marked shut down and every queued waiter released.
     */
    method Teardown()
      requires Valid()
      modifies this`trace, this`isShutdown
      ensures Valid()
      ensures isShutdown
      ensures trace == old(trace) + TeardownCalls(exitHandlers, services, shutWaiters)
    {
      ghost var t0 := trace;
      RunExitHandlers();
      StopAll();
      CleanupAll();
      isShutdown := true;
      ReleaseWaiters();
      CallsAssoc(t0, HandlerCalls(exitHandlers), ReverseStops(services), ReverseCleanups(services),
                 ReleaseCalls(shutWaiters));
    }

    /** The exit handlers, called in registration order. */
    method RunExitHandlers()
      modifies this`trace
      ensures trace == old(trace) + HandlerCalls(exitHandlers)
    {
      var i := 0;
      while i < |exitHandlers|
        invariant 0 <= i <= |exitHandlers|
        invariant trace == old(trace) + HandlerCalls(exitHandlers[..i])
      {
        trace := trace + [ExitHandler(exitHandlers[i])];
        assert HandlerCalls(exitHandlers[..i + 1]) == HandlerCalls(exitHandlers[..i]) + [ExitHandler(exitHandlers[i])];
        i := i + 1;
      }
      assert exitHandlers[..i] == exitHandlers;
    }

    /** Every queued Shutdown caller released, in the order they queued. */
    method ReleaseWaiters()
      modifies this`trace
      ensures trace == old(trace) + ReleaseCalls(shutWaiters)
    {
      var j := 0;
      while j < |shutWaiters|
        invariant 0 <= j <= |shutWaiters|
        invariant trace == old(trace) + ReleaseCalls(shutWaiters[..j])
      {
        trace := trace + [ReleaseWaiter(shutWaiters[j])];
        assert ReleaseCalls(shutWaiters[..j + 1]) == ReleaseCalls(shutWaiters[..j]) + [ReleaseWaiter(shutWaiters[j])];
        j := j + 1;
      }
      assert shutWaiters[..j] == shutWaiters;
    }

    /**
     * The signal loop of Run after beginRun: a SIGHUP reloads, any other
     * signal ends the loop, and a returning service goroutine calls
     * Shutdown as ShutdownCount says, whose SIGTERM ends the loop. `t` is
     * the position of the event that ended it, or |events|.
     */
    method ServeEvents(events: seq<RunEvent>) returns (t: nat, stuck: nat)
      requires Valid() && !loopEnded
      modifies this`trace, this`shutWaiters, this`nextChan, this`loopEnded, this`signalQueued
      ensures Valid()
      ensures loopEnded <==> t < |events|
      ensures t < |events| ==> (signalQueued <==> EventShutdowns(events[t], services, mainSvc) == 2)
      ensures stuck == 0
      ensures t == FirstTerminating(events, services, mainSvc)
      ensures t < |events| ==>
        trace == old(trace) + LoopCalls(events[..t], services)
          + Repeat(ShutdownRequested, EventShutdowns(events[t], services, mainSvc))
      ensures t == |events| ==> trace == old(trace) + LoopCalls(events, services)
      ensures isShutdown ==> shutWaiters == old(shutWaiters)
      ensures !isShutdown ==> |shutWaiters| >= |old(shutWaiters)| && shutWaiters[..|old(shutWaiters)|] == old(shutWaiters)
    {
      t := 0;
      while t < |events|
        invariant Valid()
        invariant 0 <= t <= |events|
        invariant forall j :: 0 <= j < t ==> !Terminates(events[j], services, mainSvc)
        invariant trace == old(trace) + LoopCalls(events[..t], services)
        invariant shutWaiters == old(shutWaiters)
        invariant !loopEnded && !signalQueued
      {
        assert events[..t + 1][..t] == events[..t];
        var e := events[t];
        var n := EventShutdowns(e, services, mainSvc);
        if Terminates(e, services, mainSvc) {
          if n == 0 {
            // an OS signal other than SIGHUP, read by the loop
            loopEnded := true;
          }
          stuck := RequestShutdowns(n);
          FirstTerminatingAt(events, services, mainSvc, t);
          return;
        }
        if e == OsSignal(SigHup) {
          ReloadAll();
        }
        t := t + 1;
      }
      assert events[..t] == events;
      FirstTerminatingAt(events, services, mainSvc, t);
      stuck := 0;
    }

    /**
     * `n` calls of Shutdown, one after the other, by the goroutines of
     * returning services; `stuck` of them block on chSignal.
     */
    method RequestShutdowns(n: nat) returns (stuck: nat)
      requires Valid()
      modifies this`trace, this`shutWaiters, this`nextChan, this`loopEnded, this`signalQueued
      ensures Valid()
      ensures trace == old(trace) + Repeat(ShutdownRequested, n)
      ensures stuck == StuckShutdowns(old(loopEnded), old(signalQueued), n)
      ensures loopEnded <==> old(loopEnded) || n >= 1
      ensures signalQueued <==> old(signalQueued) || (old(loopEnded) && n >= 1) || n >= 2
      ensures isShutdown ==> shutWaiters == old(shutWaiters)
      ensures !isShutdown ==> |shutWaiters| >= |old(shutWaiters)| && shutWaiters[..|old(shutWaiters)|] == old(shutWaiters)
    {
      ghost var waiters := shutWaiters;
      stuck := 0;
      var j := 0;
      while j < n
        invariant Valid()
        invariant 0 <= j <= n
        invariant trace == old(trace) + Repeat(ShutdownRequested, j)
        invariant stuck + StuckShutdowns(loopEnded, signalQueued, n - j) == StuckShutdowns(old(loopEnded), old(signalQueued), n)
        invariant loopEnded <==> old(loopEnded) || j >= 1
        invariant signalQueued <==> old(signalQueued) || (old(loopEnded) && j >= 1) || j >= 2
        invariant isShutdown ==> shutWaiters == waiters
        invariant !isShutdown ==> |shutWaiters| >= |waiters| && shutWaiters[..|waiters|] == waiters
      {
        ghost var w0 := shutWaiters;
        var _, _, blocked := Shutdown();
        if blocked {
          stuck := stuck + 1;
        }
        assert Repeat(ShutdownRequested, j + 1) == Repeat(ShutdownRequested, j) + [ShutdownRequested];
        assert !isShutdown ==> shutWaiters[..|waiters|] == w0[..|waiters|];
        j := j + 1;
      }
    }

    /**
     * Run. Without a main service it is fatal and nothing happens. A
     * configure error skips beginRun and goes straight to teardown, and the
     * process then exits with status 1. Otherwise the services are started
     * and events are served until one ends the loop, followed by teardown;
     * while no event has ended the loop the application keeps running.
     */
    method Run(result: nat -> Option<string>, events: seq<RunEvent>) returns (outcome: RunOutcome)
      requires Valid()
      modifies this`trace, this`shutWaiters, this`nextChan, this`isShutdown, this`loopEnded, this`signalQueued
      ensures Valid()
      ensures old(mainSvc).None? <==> outcome == NoMainService
      ensures outcome == NoMainService ==> unchanged(this)
      ensures old(mainSvc).Some? && FirstFailure(Ids(services), result) < |services| ==>
        outcome == Finished(true)
        && trace == old(trace) + ConfigureCalls(ConfiguredIds(Ids(services), result))
          + TeardownCalls(exitHandlers, services, shutWaiters)
        && shutWaiters == old(shutWaiters)
      ensures old(mainSvc).Some? && FirstFailure(Ids(services), result) == |services| && old(loopEnded) ==>
        outcome == Finished(false)
        && trace == old(trace) + ConfigureCalls(Ids(services)) + StartCalls(services, mainSvc)
          + TeardownCalls(exitHandlers, services, shutWaiters)
      ensures old(mainSvc).Some? && FirstFailure(Ids(services), result) == |services| && !old(loopEnded) ==>
        var t := FirstTerminating(events, services, mainSvc);
        && (outcome == if t < |events| then Finished(false) else StillRunning)
        && (t < |events| ==>
          trace == old(trace) + ConfigureCalls(Ids(services)) + StartCalls(services, mainSvc)
            + LoopCalls(events[..t], services)
            + Repeat(ShutdownRequested, EventShutdowns(events[t], services, mainSvc))
            + TeardownCalls(exitHandlers, services, shutWaiters))
        && (t == |events| ==>
          trace == old(trace) + ConfigureCalls(Ids(services)) + StartCalls(services, mainSvc)
            + LoopCalls(events, services))
      ensures outcome.Finished? ==> isShutdown
      ensures outcome == StillRunning ==> !loopEnded
    {
      if mainSvc.None? {
        return NoMainService;
      }
      var err := ConfigureAll(result);
      if err.Some? {
        Teardown();
        return Finished(true);
      }
      outcome := ServeAndTeardown(events);
    }

    /** The rest of Run once every service is configured: beginRun, the signal loop, then teardown if it ended. */
    method ServeAndTeardown(events: seq<RunEvent>) returns (outcome: RunOutcome)
      requires Valid()
      modifies this`trace, this`shutWaiters, this`nextChan, this`isShutdown, this`loopEnded, this`signalQueued
      ensures Valid()
      ensures old(loopEnded) ==>
        outcome == Finished(false)
        && trace == old(trace) + StartCalls(services, mainSvc) + TeardownCalls(exitHandlers, services, shutWaiters)
      ensures !old(loopEnded) ==> var t := FirstTerminating(events, services, mainSvc);
        && (outcome == if t < |events| then Finished(false) else StillRunning)
        && (t < |events| ==>
          trace == old(trace) + StartCalls(services, mainSvc)
            + LoopCalls(events[..t], services)
            + Repeat(ShutdownRequested, EventShutdowns(events[t], services, mainSvc))
            + TeardownCalls(exitHandlers, services, shutWaiters))
        && (t == |events| ==> trace == old(trace) + StartCalls(services, mainSvc) + LoopCalls(events, services))
      ensures outcome.Finished? ==> isShutdown
      ensures outcome == StillRunning ==> !loopEnded
    {
      BeginRun();
      if loopEnded {
        // a SIGTERM sent by an earlier Shutdown is the loop's first read
        Teardown();
        return Finished(false);
      }
      var t, _ := ServeEvents(events);
      if t < |events| {
        Teardown();
        outcome := Finished(false);
      } else {
        outcome := StillRunning;
      }
    }
  }

  lemma {:induction false} FirstTerminatingAt(es: seq<RunEvent>, s: seq<ServiceInfo>, main: Option<nat>, t: nat)
    requires t <= |es|
    requires forall j :: 0 <= j < t ==> !Terminates(es[j], s, main)
    requires t < |es| ==> Terminates(es[t], s, main)
    ensures FirstTerminating(es, s, main) == t
  {
    if t > 0 {
      assert forall j :: 0 <= j < t - 1 ==> es[1..][j] == es[j + 1];
      FirstTerminatingAt(es[1..], s, main, t - 1);
    }
  }

  /** Calls appended one part after another are the parts appended together. */
  lemma CallsAssoc(t: seq<Call>, a: seq<Call>, b: seq<Call>, c: seq<Call>, d: seq<Call>)
    ensures t + a + b + c + d == t + (a + b + c + d)
  {
  }
}
