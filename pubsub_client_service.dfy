/**
 * The pub/sub client service of spubsub/pubsub_client_service.go: the
 * publish and subscribe token maps filled by InitFlags, the token getters,
 * and the pub/sub client created once on first use.
 */
module PubsubClientService {
  import opened Wrappers
  import opened PubsubTokens

  /** The config name the panics mention. */
  const ConfigName: string := "ClientConfig"

  /** The events of a list up to (not including) its first repeat. */
  function EventsBefore(events: seq<string>, k: nat): set<string>
    requires k <= |events|
  {
    set i | 0 <= i < k :: events[i]
  }

  class ClientService {
    const publishEvents: seq<string>
    const subscribeEvents: seq<string>
    /** The command-line flag values once parsed. */
    const parsed: map<string, string>
    /** What GetConnection returns for the pubsub endpoint: a connection id or an error. */
    const connection: Result<nat, string>

    var pubTokens: map<string, string>
    var subTokens: map<string, string>
    /** Whether initOnce has run initClient, and how many times it has. */
    var initDone: bool
    var inits: nat
    /** The client: the connection it wraps, or nil. */
    var cli: Option<nat>

    ghost predicate Valid()
      reads this
    {
      && inits == (if initDone then 1 else 0)
      && (!initDone ==> cli == None)
    }

    /** NewPubsubClientService: empty token maps, no client yet. */
    constructor (publishEvents: seq<string>, subscribeEvents: seq<string>,
                 parsed: map<string, string>, connection: Result<nat, string>)
      ensures this.publishEvents == publishEvents && this.subscribeEvents == subscribeEvents
      ensures this.parsed == parsed && this.connection == connection
      ensures pubTokens == map[] && subTokens == map[]
      ensures !initDone && cli == None && Valid()
    {
      this.publishEvents := publishEvents;
      this.subscribeEvents := subscribeEvents;
      this.parsed := parsed;
      this.connection := connection;
      pubTokens := map[];
      subTokens := map[];
      initDone := false;
      inits := 0;
      cli := None;
    }

    /**
     * InitFlags: one flag per publish event, then one per subscribe event;
     * the first repeated name in either list panics. The maps start empty:
     * a second InitFlags would redefine the flags, which panics in Go.
     */
    method InitFlags() returns (panicked: Option<string>)
      requires pubTokens == map[] && subTokens == map[]
      modifies this`pubTokens, this`subTokens
      ensures pubTokens.Keys == EventsBefore(publishEvents, FirstDuplicate(publishEvents))
      ensures forall e :: e in pubTokens ==> pubTokens[e] == FlagName(Pub, e)
      ensures !Unique(publishEvents) ==> subTokens == map[]
      ensures Unique(publishEvents) ==>
                subTokens.Keys == EventsBefore(subscribeEvents, FirstDuplicate(subscribeEvents))
      ensures forall e :: e in subTokens ==> subTokens[e] == FlagName(Sub, e)
      ensures panicked.None? <==> Unique(publishEvents) && Unique(subscribeEvents)
      ensures !Unique(publishEvents) ==>
                panicked == Some(DuplicatePanic(ConfigName, Pub, publishEvents[FirstDuplicate(publishEvents)]))
      ensures Unique(publishEvents) && !Unique(subscribeEvents) ==>
                panicked == Some(DuplicatePanic(ConfigName, Sub, subscribeEvents[FirstDuplicate(subscribeEvents)]))
    {
      FirstDuplicateUnique(publishEvents);
      FirstDuplicateUnique(subscribeEvents);
      pubTokens, panicked := FillTokenMap(publishEvents, Pub, ConfigName);
      if panicked.Some? {
        return;
      }
      subTokens, panicked := FillTokenMap(subscribeEvents, Sub, ConfigName);
    }

    /** GetPubToken: the flag value for a configured publish event; other events panic. */
    function GetPubToken(e: string): (r: Result<string, string>)
      reads this
      ensures r.Ok? <==> e in pubTokens
      ensures r.Ok? ==> r.value == FlagValue(parsed, pubTokens[e])
      ensures r.Err? ==> r.error == MissingPanic(ConfigName, Pub, e)
    {
      GetToken(pubTokens, parsed, ConfigName, Pub, e)
    }

    /** GetSubToken: the flag value for a configured subscribe event; other events panic. */
    function GetSubToken(e: string): (r: Result<string, string>)
      reads this
      ensures r.Ok? <==> e in subTokens
      ensures r.Ok? ==> r.value == FlagValue(parsed, subTokens[e])
      ensures r.Err? ==> r.error == MissingPanic(ConfigName, Sub, e)
    {
      GetToken(subTokens, parsed, ConfigName, Sub, e)
    }

    /**
     * GetPubsubClient: the first call runs initClient, which panics when
     * the connection fails and otherwise wraps it; sync.Once counts a
     * panicking run as done, so later calls return the (possibly nil)
     * client without retrying.
     */
    method GetPubsubClient() returns (r: Result<Option<nat>, string>)
      requires Valid()
      modifies this`initDone, this`inits, this`cli
      ensures Valid() && initDone && inits == 1
      ensures old(initDone) ==> r == Ok(old(cli)) && cli == old(cli)
      ensures !old(initDone) && connection.Err? ==> r == Err(connection.error) && cli == old(cli)
      ensures !old(initDone) && connection.Ok? ==> r == Ok(Some(connection.value)) && cli == Some(connection.value)
    {
      if !initDone {
        initDone := true;
        inits := inits + 1;
        if connection.Err? {
          return Err(connection.error);
        }
        cli := Some(connection.value);
      }
      r := Ok(cli);
    }
  }

  /**
   * After a successful InitFlags on distinct event names, a token exists
   * for exactly the configured subscribe events, read from that event's flag.
   */
  lemma SubTokensAfterInit(svc: ClientService, e: string)
    requires Unique(svc.subscribeEvents)
    requires svc.subTokens.Keys == EventsBefore(svc.subscribeEvents, FirstDuplicate(svc.subscribeEvents))
    requires forall x :: x in svc.subTokens ==> svc.subTokens[x] == FlagName(Sub, x)
    ensures svc.GetSubToken(e).Ok? <==> e in svc.subscribeEvents
    ensures e in svc.subscribeEvents ==> svc.GetSubToken(e).value == FlagValue(svc.parsed, FlagName(Sub, e))
  {
    TokensForConfiguredEvents(svc.subscribeEvents, svc.subTokens, Sub, svc.parsed, ConfigName, e);
  }
}
