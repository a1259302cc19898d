/**
 * The service mux of service_mux.go: a runnable service made of child
 * runnable services, run in parallel; the first child to return ends it.
 * Children are identified by number and every call made on them is
 * recorded in the mux's trace.
 */
module ServiceMux {
  import opened Wrappers
  import opened Lifecycle

  /** The lifecycle method the mux calls on a child. */
  datatype Phase = InitFlagsPhase | ConfigurePhase | RunPhase | StopPhase | CleanupPhase

  datatype Call = Call(phase: Phase, child: nat)

  /**
   * The result of Run: the error (or nil) of the first child to return, or
   * Blocked when there are no children and the receive never completes.
   */
  datatype RunResult = Blocked | Returned(err: Option<string>)

  /** One call of the given method on each child, in the children's order. */
  function Calls(ids: seq<nat>, p: Phase): (r: seq<Call>)
    ensures |r| == |ids|
    ensures forall k :: 0 <= k < |ids| ==> r[k] == Call(p, ids[k])
  {
    seq(|ids|, k requires 0 <= k < |ids| => Call(p, ids[k]))
  }

  lemma CallsSnoc(ids: seq<nat>, i: nat, p: Phase)
    requires i < |ids|
    ensures Calls(ids[..i + 1], p) == Calls(ids[..i], p) + [Call(p, ids[i])]
  {
  }

  class Mux {
    /** The children, as given to NewServiceMux. */
    const services: seq<nat>
    var trace: seq<Call>

    /** NewServiceMux. */
    constructor (children: seq<nat>)
      ensures services == children && trace == []
    {
      services := children;
      trace := [];
    }

    /** InitFlags: every child's InitFlags, in order. */
    method InitFlags()
      modifies this`trace
      ensures trace == old(trace) + Calls(services, InitFlagsPhase)
    {
      var i := 0;
      while i < |services|
        invariant 0 <= i <= |services|
        invariant trace == old(trace) + Calls(services[..i], InitFlagsPhase)
      {
        CallsSnoc(services, i, InitFlagsPhase);
        trace := trace + [Call(InitFlagsPhase, services[i])];
        i := i + 1;
      }
      assert services[..i] == services;
    }

    /**
     * Configure: the children in order until one fails; that error is
     * returned and the later children are not configured.
     */
    method Configure(result: nat -> Option<string>) returns (err: Option<string>)
      modifies this`trace
      ensures err == ConfigureError(services, result)
      ensures trace == old(trace) + Calls(ConfiguredIds(services, result), ConfigurePhase)
    {
      ghost var k := FirstFailure(services, result);
      var i := 0;
      while i < |services|
        invariant 0 <= i <= k
        invariant trace == old(trace) + Calls(services[..i], ConfigurePhase)
      {
        CallsSnoc(services, i, ConfigurePhase);
        trace := trace + [Call(ConfigurePhase, services[i])];
        err := result(services[i]);
        if err.Some? {
          return;
        }
        i := i + 1;
      }
      assert services[..i] == services;
      err := None;
    }

    /**
     * Run: every child is started in its own goroutine, and the result of
     * whichever child returns first (`first`, returning `results(first)`)
     * is the mux's result. With no children the receive blocks.
     */
    method Run(first: nat, results: nat -> Option<string>) returns (r: RunResult)
      requires |services| > 0 ==> first in services
      modifies this`trace
      ensures trace == old(trace) + Calls(services, RunPhase)
      ensures |services| == 0 <==> r == Blocked
      ensures |services| > 0 ==> r == Returned(results(first))
    {
      var i := 0;
      while i < |services|
        invariant 0 <= i <= |services|
        invariant trace == old(trace) + Calls(services[..i], RunPhase)
      {
        CallsSnoc(services, i, RunPhase);
        trace := trace + [Call(RunPhase, services[i])];
        i := i + 1;
      }
      assert services[..i] == services;
      if |services| == 0 {
        r := Blocked;
      } else {
        r := Returned(results(first));
      }
    }

    /**
     * Stop: every child's Stop; the mux returns once all of them have
     * returned. The calls run in parallel; the trace lists them in child
     * order.
     */
    method Stop()
      modifies this`trace
      ensures trace == old(trace) + Calls(services, StopPhase)
      ensures forall id :: id in services ==> Call(StopPhase, id) in trace[|old(trace)|..]
    {
      var i := 0;
      while i < |services|
        invariant 0 <= i <= |services|
        invariant trace == old(trace) + Calls(services[..i], StopPhase)
      {
        CallsSnoc(services, i, StopPhase);
        trace := trace + [Call(StopPhase, services[i])];
        i := i + 1;
      }
      assert services[..i] == services;
      assert trace[|old(trace)|..] == Calls(services, StopPhase);
    }

    /** Cleanup: every child's Cleanup, in order. */
    method Cleanup()
      modifies this`trace
      ensures trace == old(trace) + Calls(services, CleanupPhase)
    {
      var i := 0;
      while i < |services|
        invariant 0 <= i <= |services|
        invariant trace == old(trace) + Calls(services[..i], CleanupPhase)
      {
        CallsSnoc(services, i, CleanupPhase);
        trace := trace + [Call(CleanupPhase, services[i])];
        i := i + 1;
      }
      assert services[..i] == services;
    }

    /** GetServices: the children exactly as given. */
    method GetServices() returns (s: seq<nat>)
      ensures s == services
    {
      s := services;
    }
  }
}
