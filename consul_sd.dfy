/**
 * The Consul service discovery of ssd/sd_consul.go: the map of registered
 * services keyed by ID, the per-name service configurations, and what the
 * service sends to the Consul agent and key/value store, as traces.
 *
 * The agent's replies are parameters (whether a registration succeeded,
 * whether a key/value read or write succeeded); the agent itself is not
 * part of this model.
 */
module ConsulSd {
  import opened Wrappers
  import opened ConsulAgent

  /** ServiceConfig: how the gateway routes requests to a service. */
  datatype ServiceConfig = ServiceConfig(name: string, prefix: string, regex: string, protocol: string)

  /**
   * The document stored for a configuration: json.Marshal writes the prefix,
   * regex and protocol and leaves the name out, so two configurations give
   * the same document exactly when these three agree.
   */
  datatype ConfigDocument = ConfigDocument(prefix: string, regex: string, protocol: string)

  function Document(cfg: ServiceConfig): (d: ConfigDocument)
    ensures d.prefix == cfg.prefix && d.regex == cfg.regex && d.protocol == cfg.protocol
  {
    ConfigDocument(cfg.prefix, cfg.regex, cfg.protocol)
  }

  /** The key a configuration is stored under: service-configs/<name>/default. */
  function ConfigKey(name: string): string
  {
    "service-configs/" + name + "/default"
  }

  /** Different service names are stored under different keys. */
  lemma ConfigKeyInjective(a: string, b: string)
    requires ConfigKey(a) == ConfigKey(b)
    ensures a == b
  {
    var n := |"service-configs/"|;
    assert |a| == |b|;
    assert a == ConfigKey(a)[n..n + |a|];
    assert b == ConfigKey(b)[n..n + |b|];
  }

  class ConsulService {
    var consulUri: string
    var serviceIp: string
    var servicePrefix: string
    var tags: string
    var services: map<string, ServiceStatus>
    var svcConfigs: map<string, ServiceConfig>
    /** The agent calls, in order. */
    var agentCalls: seq<AgentCall>
    /** The key/value store as this service last saw it. */
    var kv: map<string, ConfigDocument>
    /** The keys written to the key/value store, in order. */
    var kvPuts: seq<string>

    /** Every service is stored under its own ID. */
    predicate Valid()
      reads this
    {
      forall id :: id in services ==> services[id].svc.id == id
    }

    /** NewConsul followed by InitFlags: each flag as given, or its default. */
    constructor(uri: Option<string>, ip: Option<string>, prefix: Option<string>, tagList: Option<string>)
      ensures consulUri == (if uri.Some? then uri.value else "0")
      ensures serviceIp == (if ip.Some? then ip.value else "auto")
      ensures servicePrefix == (if prefix.Some? then prefix.value else "")
      ensures tags == (if tagList.Some? then tagList.value else "")
      ensures services == map[] && svcConfigs == map[] && agentCalls == [] && kv == map[] && kvPuts == []
      ensures Valid()
    {
      consulUri := if uri.Some? then uri.value else "0";
      serviceIp := if ip.Some? then ip.value else "auto";
      servicePrefix := if prefix.Some? then prefix.value else "";
      tags := if tagList.Some? then tagList.value else "";
      services := map[];
      svcConfigs := map[];
      agentCalls := [];
      kv := map[];
      kvPuts := [];
    }

    /**
     * Add: nothing when disabled; otherwise the registration is normalised,
     * sent to the agent, and stored under its ID with the agent's verdict.
     * The caller's registration is updated in place, which `r` returns.
     */
    method Add(asr: Registration, build: Option<BuildInfo>, registerOk: bool) returns (r: Registration)
      requires Valid()
      modifies this`services, this`agentCalls
      ensures Valid()
      ensures IsDisabled(consulUri) ==> r == asr && services == old(services) && agentCalls == old(agentCalls)
      ensures !IsDisabled(consulUri) ==>
                && Normalized(asr, r, servicePrefix, serviceIp, tags, build)
                && services == old(services)[r.id := ServiceStatus(r, registerOk)]
                && agentCalls == old(agentCalls) + [ServiceRegister(r)]
    {
      if IsDisabled(consulUri) {
        return asr;
      }
      r := Normalize(asr, servicePrefix, serviceIp, tags, build);
      agentCalls := agentCalls + [ServiceRegister(r)];
      services := services[r.id := ServiceStatus(r, registerOk)];
    }

    /** Remove: an empty ID is ignored; otherwise it leaves the map and is deregistered. */
    method Remove(serviceId: string)
      requires Valid()
      modifies this`services, this`agentCalls
      ensures Valid()
      ensures serviceId == "" ==> services == old(services) && agentCalls == old(agentCalls)
      ensures serviceId != "" ==>
                && services == old(services) - {serviceId}
                && agentCalls == old(agentCalls) + [ServiceDeregister(serviceId)]
    {
      if serviceId == "" {
        return;
      }
      services := services - {serviceId};
      agentCalls := agentCalls + [ServiceDeregister(serviceId)];
    }

    /**
     * RemoveAll: every stored service is deregistered, once each, in the
     * map's (unspecified) order, and the map is left empty.
     */
    method RemoveAll()
      requires Valid()
      modifies this`services, this`agentCalls
      ensures Valid()
      ensures services == map[]
      ensures |agentCalls| == |old(agentCalls)| + |old(services).Keys|
      ensures agentCalls[..|old(agentCalls)|] == old(agentCalls)
      ensures AllDeregisters(agentCalls, |old(agentCalls)|)
      ensures DeregisteredFrom(agentCalls, |old(agentCalls)|) == old(services).Keys
    {
      ghost var s0 := services;
      while services != map[]
        invariant Valid()
        invariant DeregisterProgress(agentCalls, old(agentCalls), s0.Keys, services.Keys)
        decreases |services.Keys|
      {
        var k :| k in services;
        DeregisterProgressStep(agentCalls, old(agentCalls), s0.Keys, services.Keys, k);
        agentCalls := agentCalls + [ServiceDeregister(services[k].svc.id)];
        assert (services - {k}).Keys == services.Keys - {k};
        services := services - {k};
      }
      assert services.Keys == {};
    }

    /** UpdateServiceConfig: nothing when disabled; otherwise stored by name and written out. */
    method UpdateServiceConfig(cfg: ServiceConfig, readOk: bool, writeOk: bool)
      modifies this`svcConfigs, this`kv, this`kvPuts
      ensures IsDisabled(consulUri) ==>
                svcConfigs == old(svcConfigs) && kv == old(kv) && kvPuts == old(kvPuts)
      ensures !IsDisabled(consulUri) ==>
                && svcConfigs == old(svcConfigs)[cfg.name := cfg]
                && kv == WrittenKv(old(kv), cfg, readOk, writeOk)
                && kvPuts == old(kvPuts) + (if Unchanged(old(kv), cfg, readOk) then [] else [ConfigKey(cfg.name)])
    {
      if IsDisabled(consulUri) {
        return;
      }
      svcConfigs := svcConfigs[cfg.name := cfg];
      WriteServiceConfig(cfg, readOk, writeOk);
    }

    /**
     * writeServiceConfig: the document is written unless reading the key
     * succeeded and found the same document already there.
     */
    method WriteServiceConfig(cfg: ServiceConfig, readOk: bool, writeOk: bool)
      modifies this`kv, this`kvPuts
      ensures kv == WrittenKv(old(kv), cfg, readOk, writeOk)
      ensures kvPuts == old(kvPuts) + (if Unchanged(old(kv), cfg, readOk) then [] else [ConfigKey(cfg.name)])
    {
      var key := ConfigKey(cfg.name);
      var value := Document(cfg);
      if readOk && key in kv && kv[key] == value {
        return;
      }
      kvPuts := kvPuts + [key];
      if writeOk {
        kv := kv[key := value];
      }
    }
  }

  /** The store already holds this configuration's document, as far as the read can tell. */
  predicate Unchanged(kv: map<string, ConfigDocument>, cfg: ServiceConfig, readOk: bool)
  {
    readOk && ConfigKey(cfg.name) in kv && kv[ConfigKey(cfg.name)] == Document(cfg)
  }

  /** The store after writeServiceConfig. */
  function WrittenKv(kv: map<string, ConfigDocument>, cfg: ServiceConfig, readOk: bool, writeOk: bool)
    : map<string, ConfigDocument>
  {
    if Unchanged(kv, cfg, readOk) || !writeOk then kv else kv[ConfigKey(cfg.name) := Document(cfg)]
  }

  /**
   * After a write that succeeds, or that is skipped, the store holds the
   * configuration's document under its key and every other key as before;
   * writing the same configuration again then puts nothing.
   */
  lemma WriteStoresDocument(kv: map<string, ConfigDocument>, cfg: ServiceConfig, readOk: bool)
    ensures var after := WrittenKv(kv, cfg, readOk, true);
            && ConfigKey(cfg.name) in after && after[ConfigKey(cfg.name)] == Document(cfg)
            && (forall k :: k in kv && k != ConfigKey(cfg.name) ==> k in after && after[k] == kv[k])
            && Unchanged(after, cfg, true)
  {
  }

  /** Configurations of different services are stored apart: writing one leaves the other's document. */
  lemma WriteKeepsOtherServices(kv: map<string, ConfigDocument>, cfg: ServiceConfig, other: string,
                                readOk: bool, writeOk: bool)
    requires other != cfg.name && ConfigKey(other) in kv
    ensures var after := WrittenKv(kv, cfg, readOk, writeOk);
            ConfigKey(other) in after && after[ConfigKey(other)] == kv[ConfigKey(other)]
  {
    if ConfigKey(other) == ConfigKey(cfg.name) {
      ConfigKeyInjective(other, cfg.name);
    }
  }
}
