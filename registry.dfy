/**
 * The Consul registry of new/registry/consul.go: the same service map as
 * the older discovery service, plus the periodic read of the main
 * service's configuration key and the "configuration changed" signal.
 *
 * The code as written signals when the value read is the SAME as the one
 * held, and stays silent when it differs (consul.go:202). The comparison is
 * evidently meant the other way round. `FetchKvAsWritten` models the code,
 * `FetchKv` the intended comparison, and `SteadyConfiguration` and
 * `ChangeMissed` show the difference.
 */
module Registry {
  import opened Wrappers
  import opened ConsulAgent

  type Bytes = seq<bv8>

  /** What the key/value read returned: an error, no such key, or the key's value (None: nil). */
  datatype KvReply = ReadFailed | KeyMissing | Found(value: Option<Bytes>)

  /** The bytes of a possibly nil slice: bytes.Compare treats nil as empty. */
  function BytesOf(b: Option<Bytes>): Bytes
  {
    if b.Some? then b.value else []
  }

  /**
   * Whether a fetch signals a change, given the value held before (None: nil,
   * which is the first load) and the value read: never on the first load,
   * otherwise as the comparison says.
   */
  predicate Signals(held: Option<Bytes>, read: Option<Bytes>, asWritten: bool)
  {
    held.Some? && (if asWritten then BytesOf(held) == BytesOf(read) else BytesOf(held) != BytesOf(read))
  }

  /** The number of signals over a run of successful reads, starting from `held`. */
  function SignalCount(held: Option<Bytes>, values: seq<Option<Bytes>>, asWritten: bool): nat
    decreases |values|
  {
    if values == [] then 0
    else (if Signals(held, values[0], asWritten) then 1 else 0) + SignalCount(values[0], values[1..], asWritten)
  }

  /** The number of positions at which a run of reads differs from the value before it. */
  function Changes(held: Bytes, values: seq<Bytes>): (n: nat)
    ensures n <= |values|
    ensures n == 0 <==> forall k :: 0 <= k < |values| ==> values[k] == held
    decreases |values|
  {
    if values == [] then 0
    else (if held != values[0] then 1 else 0) + Changes(values[0], values[1..])
  }

  function Wrap(values: seq<Bytes>): (r: seq<Option<Bytes>>)
    ensures |r| == |values| && forall k :: 0 <= k < |values| ==> r[k] == Some(values[k])
  {
    if values == [] then [] else [Some(values[0])] + Wrap(values[1..])
  }

  /** After the first load, the intended comparison signals exactly once per change of the value. */
  lemma {:induction false} SignalsCountChanges(held: Bytes, values: seq<Bytes>)
    ensures SignalCount(Some(held), Wrap(values), false) == Changes(held, values)
    decreases |values|
  {
    if values != [] {
      SignalsCountChanges(values[0], values[1..]);
      assert Wrap(values)[1..] == Wrap(values[1..]);
    }
  }

  /** A configuration that never changes: the code as written signals on every read, the intended one never. */
  lemma {:induction false} SteadyConfiguration(held: Bytes, n: nat)
    ensures SignalCount(Some(held), seq(n, _ => Some(held)), true) == n
    ensures SignalCount(Some(held), seq(n, _ => Some(held)), false) == 0
  {
    if n > 0 {
      SteadyConfiguration(held, n - 1);
      assert seq(n, _ => Some(held))[1..] == seq(n - 1, _ => Some(held));
    }
  }

  /** A configuration changed from [1] to [2]: the code as written does not signal it. */
  lemma ChangeMissed()
    ensures SignalCount(Some([1]), [Some([2])], true) == 0
    ensures SignalCount(Some([1]), [Some([2])], false) == 1
  {
    assert [1 as bv8] != [2 as bv8] by {
      assert [1 as bv8][0] != [2 as bv8][0];
    }
  }

  class Consul {
    var mainServiceName: string
    var consulUri: string
    var serviceIp: string
    var servicePrefix: string
    var tags: string
    /** Whether Configure created a client. */
    var hasClient: bool
    /** The configuration value last read (None: nil). */
    var currentKvs: Option<Bytes>
    var services: map<string, ServiceStatus>
    /** The agent calls, in order. */
    var agentCalls: seq<AgentCall>
    /** The signals sent on the sync channel. */
    var signals: nat

    /** Every service is stored under its own ID. */
    predicate Valid()
      reads this
    {
      forall id :: id in services ==> services[id].svc.id == id
    }

    /** NewConsul followed by InitFlags: each flag as given, or its default. */
    constructor(name: string, uri: Option<string>, ip: Option<string>, prefix: Option<string>,
                tagList: Option<string>)
      ensures mainServiceName == name
      ensures consulUri == (if uri.Some? then uri.value else "0")
      ensures serviceIp == (if ip.Some? then ip.value else "auto")
      ensures servicePrefix == (if prefix.Some? then prefix.value else "")
      ensures tags == (if tagList.Some? then tagList.value else "")
      ensures !hasClient && currentKvs == None && services == map[] && agentCalls == [] && signals == 0
      ensures Valid()
    {
      mainServiceName := name;
      consulUri := if uri.Some? then uri.value else "0";
      serviceIp := if ip.Some? then ip.value else "auto";
      servicePrefix := if prefix.Some? then prefix.value else "";
      tags := if tagList.Some? then tagList.value else "";
      hasClient := false;
      currentKvs := None;
      services := map[];
      agentCalls := [];
      signals := 0;
    }

    /** IsRunning: a client has been created. */
    function IsRunning(): (b: bool)
      reads this
      ensures b <==> hasClient
    {
      hasClient
    }

    /**
     * RegisterService: "" and no change when disabled; otherwise the
     * registration is normalised, sent to the agent and stored under its
     * ID, which is returned.
     */
    method RegisterService(asr: Registration, build: Option<BuildInfo>, registerOk: bool)
      returns (id: string, r: Registration)
      requires Valid()
      modifies this`services, this`agentCalls
      ensures Valid()
      ensures IsDisabled(consulUri) ==>
                id == "" && r == asr && services == old(services) && agentCalls == old(agentCalls)
      ensures !IsDisabled(consulUri) ==>
                && Normalized(asr, r, servicePrefix, serviceIp, tags, build)
                && id == r.id && id != ""
                && services == old(services)[id := ServiceStatus(r, registerOk)]
                && agentCalls == old(agentCalls) + [ServiceRegister(r)]
    {
      if IsDisabled(consulUri) {
        return "", asr;
      }
      r := Normalize(asr, servicePrefix, serviceIp, tags, build);
      agentCalls := agentCalls + [ServiceRegister(r)];
      services := services[r.id := ServiceStatus(r, registerOk)];
      id := r.id;
    }

    /** DeregisterService: an empty ID is ignored; otherwise it leaves the map and is deregistered. */
    method DeregisterService(serviceId: string)
      requires Valid()
      modifies this`services, this`agentCalls
      ensures Valid()
      ensures serviceId == "" ==> services == old(services) && agentCalls == old(agentCalls)
      ensures serviceId != "" ==>
                && services == old(services) - {serviceId}
                && agentCalls == old(agentCalls) + [ServiceDeregister(serviceId)]
    {
      if serviceId == "" {
        return;
      }
      services := services - {serviceId};
      agentCalls := agentCalls + [ServiceDeregister(serviceId)];
    }

    /** RemoveAll: every stored service is deregistered once, in map order, and the map is emptied. */
    method RemoveAll()
      requires Valid()
      modifies this`services, this`agentCalls
      ensures Valid()
      ensures services == map[]
      ensures |agentCalls| == |old(agentCalls)| + |old(services).Keys|
      ensures agentCalls[..|old(agentCalls)|] == old(agentCalls)
      ensures AllDeregisters(agentCalls, |old(agentCalls)|)
      ensures DeregisteredFrom(agentCalls, |old(agentCalls)|) == old(services).Keys
    {
      ghost var s0 := services;
      while services != map[]
        invariant Valid()
        invariant DeregisterProgress(agentCalls, old(agentCalls), s0.Keys, services.Keys)
        decreases |services.Keys|
      {
        var k :| k in services;
        DeregisterProgressStep(agentCalls, old(agentCalls), s0.Keys, services.Keys, k);
        agentCalls := agentCalls + [ServiceDeregister(services[k].svc.id)];
        assert (services - {k}).Keys == services.Keys - {k};
        services := services - {k};
      }
      assert services.Keys == {};
    }

    /**
     * fetchKV with the intended comparison: a failed read or a missing key
     * changes nothing; otherwise a change is signalled unless this is the
     * first load, and the value read is kept.
     */
    method FetchKv(reply: KvReply)
      modifies this`currentKvs, this`signals
      ensures !reply.Found? ==> currentKvs == old(currentKvs) && signals == old(signals)
      ensures reply.Found? ==>
                && currentKvs == reply.value
                && signals == old(signals) + (if Signals(old(currentKvs), reply.value, false) then 1 else 0)
    {
      var firstTimeLoading := currentKvs.None?;
      if !reply.Found? {
        return;
      }
      if !firstTimeLoading {
        if BytesOf(currentKvs) != BytesOf(reply.value) {
          signals := signals + 1;
        }
      }
      currentKvs := reply.value;
    }

    /** fetchKV as written: the signal is sent when the value read equals the one held. */
    method FetchKvAsWritten(reply: KvReply)
      modifies this`currentKvs, this`signals
      ensures !reply.Found? ==> currentKvs == old(currentKvs) && signals == old(signals)
      ensures reply.Found? ==>
                && currentKvs == reply.value
                && signals == old(signals) + (if Signals(old(currentKvs), reply.value, true) then 1 else 0)
    {
      var firstTimeLoading := currentKvs.None?;
      if !reply.Found? {
        return;
      }
      if !firstTimeLoading {
        if BytesOf(currentKvs) == BytesOf(reply.value) {
          currentKvs := reply.value;
          signals := signals + 1;
        }
      }
      currentKvs := reply.value;
    }
  }
}
