/**
 * What the application and the service mux share about configuring a list
 * of services in order: the first error stops the walk.
 */
module Lifecycle {
  import opened Wrappers

  /**
   * The position of the first service whose Configure fails, or |ids| when
   * none does: every service before it was configured without error.
   */
  function FirstFailure(ids: seq<nat>, result: nat -> Option<string>): (k: nat)
    ensures k <= |ids|
    ensures forall j :: 0 <= j < k ==> result(ids[j]).None?
    ensures k < |ids| ==> result(ids[k]).Some?
  {
    if ids == [] then 0
    else if result(ids[0]).Some? then 0
    else 1 + FirstFailure(ids[1..], result)
  }

  /** The services whose Configure is called: up to and including the failing one. */
  function ConfiguredIds(ids: seq<nat>, result: nat -> Option<string>): (r: seq<nat>)
    ensures |r| <= |ids| && r == ids[..|r|]
    ensures FirstFailure(ids, result) == |ids| ==> r == ids
    ensures FirstFailure(ids, result) < |ids| ==> |r| == FirstFailure(ids, result) + 1
  {
    var k := FirstFailure(ids, result);
    ids[..if k < |ids| then k + 1 else k]
  }

  /** The error a configure walk returns: the failing service's, or none. */
  function ConfigureError(ids: seq<nat>, result: nat -> Option<string>): (err: Option<string>)
    ensures err.Some? <==> exists j :: 0 <= j < |ids| && result(ids[j]).Some?
  {
    var k := FirstFailure(ids, result);
    if k < |ids| then result(ids[k]) else None
  }
}
