/**
 * The broker of new/broker: the placeholder notSetBroker (broker.go) and
 * the gRPC-backed broker service (broker_service.go, broker_client.go).
 * The broker's stream and messages follow the same delivery-tag protocol as
 * the pub/sub client and are modelled by PubsubStream; this module adds the
 * broker's own configuration, its disabled state and its guards.
 */
module Broker {
  import opened Wrappers
  import opened PubsubTokens
  import PubsubStream

  const NotSetError: string := "not set broker"
  const NotConnectedError: string := "Broker is not connected"

  /** The config name the panics mention. */
  const ConfigName: string := "Config"

  // ------------------------------------------------------------------
  // notSetBroker: the broker used when none is configured

  function NotSetPublish(pub: PubsubStream.Publishing): (r: Result<string, string>)
    ensures r.Err? && r.error == NotSetError
  {
    Err(NotSetError)
  }

  function NotSetSubscribe(opt: PubsubStream.SubscribeOption): (r: Result<seq<PubsubStream.Message>, string>)
    ensures r.Err? && r.error == NotSetError
  {
    Err(NotSetError)
  }

  function NotSetIsConnected(): (b: bool)
    ensures !b
  {
    false
  }

  function NotSetGetToken(e: string): (t: string)
    ensures t == ""
  {
    ""
  }

  // ------------------------------------------------------------------
  // The broker service

  class BrokerService {
    const publishEvents: seq<string>
    const subscribeEvents: seq<string>
    /** The value of -grpc-endpoint-pubsub once flags are parsed. */
    const pubsubAddr: string
    /** The command-line flag values once parsed. */
    const parsed: map<string, string>
    /** What grpc.Dial returns for pubsubAddr: a connection id or an error (with a nil connection). */
    const dial: Result<nat, string>

    var pubTokens: map<string, string>
    var subTokens: map<string, string>
    var clientConn: Option<nat>
    /** The connections Stop has closed, in order. */
    var closedConns: seq<nat>

    /** New: empty token maps, no connection. */
    constructor (publishEvents: seq<string>, subscribeEvents: seq<string>, pubsubAddr: string,
                 parsed: map<string, string>, dial: Result<nat, string>)
      ensures this.publishEvents == publishEvents && this.subscribeEvents == subscribeEvents
      ensures this.pubsubAddr == pubsubAddr && this.parsed == parsed && this.dial == dial
      ensures pubTokens == map[] && subTokens == map[] && clientConn == None && closedConns == []
    {
      this.publishEvents := publishEvents;
      this.subscribeEvents := subscribeEvents;
      this.pubsubAddr := pubsubAddr;
      this.parsed := parsed;
      this.dial := dial;
      pubTokens := map[];
      subTokens := map[];
      clientConn := None;
      closedConns := [];
    }

    /** isDisabled: no pub/sub endpoint was given. */
    predicate IsDisabled()
    {
      pubsubAddr == ""
    }

    /**
     * InitFlags: one token flag per publish event, then one per subscribe
     * event; the first repeated name in either list panics.
     */
    method InitFlags() returns (panicked: Option<string>)
      requires pubTokens == map[] && subTokens == map[]
      modifies this`pubTokens, this`subTokens
      ensures pubTokens.Keys == (set i | 0 <= i < FirstDuplicate(publishEvents) :: publishEvents[i])
      ensures forall e :: e in pubTokens ==> pubTokens[e] == FlagName(Pub, e)
      ensures !Unique(publishEvents) ==> subTokens == map[]
      ensures Unique(publishEvents) ==>
                subTokens.Keys == (set i | 0 <= i < FirstDuplicate(subscribeEvents) :: subscribeEvents[i])
      ensures forall e :: e in subTokens ==> subTokens[e] == FlagName(Sub, e)
      ensures panicked.None? <==> Unique(publishEvents) && Unique(subscribeEvents)
      ensures !Unique(publishEvents) ==>
                panicked == Some(DuplicatePanic(ConfigName, Pub, publishEvents[FirstDuplicate(publishEvents)]))
      ensures Unique(publishEvents) && !Unique(subscribeEvents) ==>
                panicked == Some(DuplicatePanic(ConfigName, Sub, subscribeEvents[FirstDuplicate(subscribeEvents)]))
    {
      FirstDuplicateUnique(publishEvents);
      FirstDuplicateUnique(subscribeEvents);
      pubTokens, panicked := FillTokenMap(publishEvents, Pub, ConfigName);
      if panicked.Some? {
        return;
      }
      subTokens, panicked := FillTokenMap(subscribeEvents, Sub, ConfigName);
    }

    /** Configure: nothing to configure, whether disabled or not. */
    method Configure() returns (err: Option<string>)
      ensures err == None
    {
      if IsDisabled() {
        return None;
      }
      return None;
    }

    /**
     * Run: when enabled, dials the endpoint and keeps whatever connection
     * Dial returned (nil on error), returning Dial's error.
     */
    method Run() returns (err: Option<string>)
      modifies this`clientConn
      ensures IsDisabled() ==> err == None && clientConn == old(clientConn)
      ensures !IsDisabled() ==> (err.None? <==> dial.Ok?) && (clientConn.Some? <==> dial.Ok?)
      ensures !IsDisabled() && dial.Err? ==> err == Some(dial.error)
      ensures !IsDisabled() && dial.Ok? ==> clientConn == Some(dial.value)
    {
      if IsDisabled() {
        return None;
      }
      if dial.Ok? {
        clientConn := Some(dial.value);
        err := None;
      } else {
        clientConn := None;
        err := Some(dial.error);
      }
    }

    /**
     * Stop: closes the connection when there is one and signals completion;
     * the connection is not cleared, so IsConnected still holds afterwards.
     */
    method Stop() returns (done: bool)
      modifies this`closedConns
      ensures done
      ensures closedConns == old(closedConns) + (if clientConn.Some? then [clientConn.value] else [])
      ensures IsConnected() == old(IsConnected())
    {
      if clientConn.Some? {
        closedConns := closedConns + [clientConn.value];
      }
      done := true;
    }

    /** IsConnected: a connection is held. */
    function IsConnected(): (b: bool)
      reads this
      ensures b <==> clientConn != None
    {
      clientConn.Some?
    }

    function GetPubToken(e: string): (r: Result<string, string>)
      reads this
      ensures r.Ok? <==> e in pubTokens
      ensures r.Ok? ==> r.value == FlagValue(parsed, pubTokens[e])
      ensures r.Err? ==> r.error == MissingPanic(ConfigName, Pub, e)
    {
      GetToken(pubTokens, parsed, ConfigName, Pub, e)
    }

    function GetSubToken(e: string): (r: Result<string, string>)
      reads this
      ensures r.Ok? <==> e in subTokens
      ensures r.Ok? ==> r.value == FlagValue(parsed, subTokens[e])
      ensures r.Err? ==> r.error == MissingPanic(ConfigName, Sub, e)
    {
      GetToken(subTokens, parsed, ConfigName, Sub, e)
    }

    /** Publish: refused without any call when disabled, otherwise the pub/sub Publish. */
    function Publish(pub: PubsubStream.Publishing,
                     reply: PubsubStream.PublishReq -> Result<string, string>): (r: Result<string, string>)
      ensures IsDisabled() ==> r == Err(NotConnectedError)
      ensures !IsDisabled() ==> exists req :: PubsubStream.RequestFor(req, pub) && r == reply(req)
    {
      if IsDisabled() then Err(NotConnectedError) else PubsubStream.Publish(pub, reply)
    }

    /** Subscribe: refused without touching the stream when disabled, otherwise the pub/sub Subscribe. */
    method Subscribe(opt: PubsubStream.SubscribeOption, stream: PubsubStream.Stream,
                     openErr: Option<string>, sendErr: Option<string>, endsWithinWait: bool)
      returns (r: Result<seq<PubsubStream.Message>, PubsubStream.SubscribeError>)
      modifies stream`pending, stream`sent, stream`cancelled, stream`closed
      ensures IsDisabled() ==> r == Err(PubsubStream.NotConnected) && unchanged(stream)
      ensures !IsDisabled() && openErr.Some? ==> r == Err(PubsubStream.OpenFailed(openErr.value)) && unchanged(stream)
      ensures !IsDisabled() && openErr.None? && sendErr.Some? ==>
                r == Err(PubsubStream.SendFailed(sendErr.value)) && unchanged(stream)
      ensures !IsDisabled() && openErr.None? && sendErr.None? ==>
                && stream.sent == old(stream.sent) + [PubsubStream.OptionFrame(opt.event, opt.token, opt.maxConcurrent)]
                && stream.cancelled && stream.closed
                && (r.Err? <==> endsWithinWait && PubsubStream.Delivered(old(stream.pending)) == 0)
                && (r.Err? ==> r.error == PubsubStream.EarlyStreamError(PubsubStream.StopReason(old(stream.pending))))
                && (r.Ok? ==> |r.value| == PubsubStream.Delivered(old(stream.pending)))
      ensures !IsDisabled() && r.Ok? ==> forall k :: 0 <= k < |r.value| ==>
                fresh(r.value[k]) && r.value[k].tag == k + 1 && r.value[k].stream == stream
                && !r.value[k].hadAck && r.value[k].Carries(old(stream.pending)[k].msg)
    {
      if IsDisabled() {
        return Err(PubsubStream.NotConnected);
      }
      r := PubsubStream.Subscribe(opt, stream, openErr, sendErr, endsWithinWait);
    }
  }
}
