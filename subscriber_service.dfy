/**
 * The subscriber service of spubsub/subscriber_service.go: a runnable
 * service that subscribes to one event and hands every message to a
 * process function, which must ack or redeliver it.
 *
 * The process function is the `process` parameter: for the message with a
 * given tag it decides to ack, to redeliver or to do neither. Messages are
 * processed one after another in delivery order (the source starts a
 * goroutine per message).
 */
module SubscriberService {
  import opened Wrappers
  import opened PubsubStream
  import opened PubsubClientService

  /** The fields of SubscriberConfig, with the two nil-able ones as flags. */
  datatype SubscriberConfig = SubscriberConfig(
    event: string, maxConcurrent: int,
    hasClientService: bool, hasProcessFunc: bool, waitForProcessFunc: bool)

  datatype PanicReason =
    | ClientPanic(msg: string)          // initClient could not connect
    | TokenPanic(msg: string)           // GetSubToken on an unconfigured event
    | NilClient                         // the client was never created
    | SubscribeFailed(err: SubscribeError)
    | NotAcked(tag: nat)                // ProcessFunc returned without Ack or Redeliver

  datatype RunOutcome = Returned | Panicked(reason: PanicReason)

  /** What the service does to the subscription besides sending frames. */
  datatype SvcEvent = CancelSubscription | WaitInFlight

  const NotAckedPanic: string := "ProcessFunc must call Message.Ack or Message.Redeliver!"

  /** NewSubscriberService's checks, in order: the panic it raises, if any. */
  function ConfigPanic(cfg: SubscriberConfig): (r: Option<string>)
    ensures r.None? <==> cfg.event != "" && cfg.hasClientService && cfg.hasProcessFunc
    ensures cfg.event == "" ==> r == Some("SubscriberConfig.Event is not set")
    ensures cfg.event != "" && !cfg.hasClientService ==> r == Some("SubscriberConfig.ClientService is not set")
    ensures cfg.event != "" && cfg.hasClientService && !cfg.hasProcessFunc ==>
              r == Some("SubscriberConfig.ProcessFunc is not set")
  {
    if cfg.event == "" then Some("SubscriberConfig.Event is not set")
    else if !cfg.hasClientService then Some("SubscriberConfig.ClientService is not set")
    else if !cfg.hasProcessFunc then Some("SubscriberConfig.ProcessFunc is not set")
    else None
  }

  /** The tag of the first of the messages 1..n that the process function leaves unacked, or n + 1. */
  function FirstUnacked(n: nat, process: nat -> Decision): (t: nat)
    ensures 1 <= t <= n + 1
    ensures forall k :: 1 <= k < t ==> !process(k).NoAck?
    ensures t <= n ==> process(t).NoAck?
  {
    if n == 0 then 1
    else
      var t := FirstUnacked(n - 1, process);
      if t <= n - 1 then t
      else if process(n).NoAck? then n
      else n + 1
  }

  /** The frames that processing the messages with tags 1..n sends, in order. */
  function Replies(n: nat, process: nat -> Decision): seq<Frame>
  {
    if n == 0 then [] else Replies(n - 1, process) + Reply(n, process(n))
  }

  /**
   * When every one of the messages 1..n is acked or redelivered, there is
   * one frame per message, the k-th carrying tag k.
   */
  lemma {:induction false} RepliesOnePerMessage(n: nat, process: nat -> Decision)
    requires forall k :: 1 <= k <= n ==> !process(k).NoAck?
    ensures |Replies(n, process)| == n
    ensures forall k :: 0 <= k < n ==> !Replies(n, process)[k].OptionFrame? && Replies(n, process)[k].tag == k + 1
  {
    if n > 0 {
      RepliesOnePerMessage(n - 1, process);
      assert |Reply(n, process(n))| == 1;
    }
  }

  /** Only acks and redeliveries: processing never sends another option frame. */
  lemma {:induction false} RepliesCarryTags(n: nat, process: nat -> Decision)
    ensures forall f :: f in Replies(n, process) ==> !f.OptionFrame? && 1 <= f.tag <= n
  {
    if n > 0 {
      RepliesCarryTags(n - 1, process);
    }
  }

  class Subscriber {
    const event: string
    const maxConcurrent: int
    const waitForProcessFunc: bool
    const clientService: ClientService
    /** Whether Run has set cancelSub. */
    var hasCancel: bool
    var log: seq<SvcEvent>

    /** NewSubscriberService with a config that passes its checks. */
    constructor (cfg: SubscriberConfig, clientService: ClientService)
      requires ConfigPanic(cfg) == None
      ensures event == cfg.event && maxConcurrent == cfg.maxConcurrent
      ensures waitForProcessFunc == cfg.waitForProcessFunc
      ensures this.clientService == clientService
      ensures !hasCancel && log == []
    {
      event := cfg.event;
      maxConcurrent := cfg.maxConcurrent;
      waitForProcessFunc := cfg.waitForProcessFunc;
      this.clientService := clientService;
      hasCancel := false;
      log := [];
    }

    /**
     * Run: gets the client, subscribes with the event's subscribe token and
     * processes every message until the channel closes; a failed subscribe
     * or an unacked message panics. The deferred cancel runs on every exit
     * after the context is created.
     */
    method Run(stream: Stream, openErr: Option<string>, sendErr: Option<string>,
               endsWithinWait: bool, process: nat -> Decision)
      returns (outcome: RunOutcome)
      requires clientService.Valid()
      modifies this`hasCancel, this`log
      modifies clientService`initDone, clientService`inits, clientService`cli
      modifies stream`pending, stream`sent, stream`cancelled, stream`closed
      ensures old(clientService.initDone) || clientService.connection.Ok? ==>
                hasCancel && log == old(log) + [CancelSubscription]
      ensures !old(clientService.initDone) && clientService.connection.Err? ==>
                outcome == Panicked(ClientPanic(clientService.connection.error)) && unchanged(stream)
      ensures clientService.GetSubToken(event).Err? && (old(clientService.initDone) || clientService.connection.Ok?) ==>
                outcome == Panicked(TokenPanic(clientService.GetSubToken(event).error)) && unchanged(stream)
      ensures outcome == Returned || outcome.Panicked?
      ensures (old(clientService.initDone) || clientService.connection.Ok?) && clientService.GetSubToken(event).Ok?
              && clientService.cli.None? ==>
                outcome == Panicked(NilClient) && unchanged(stream)
      ensures clientService.cli.Some? && clientService.GetSubToken(event).Ok? && openErr.Some? ==>
                outcome == Panicked(SubscribeFailed(OpenFailed(openErr.value))) && unchanged(stream)
      ensures clientService.cli.Some? && clientService.GetSubToken(event).Ok? && openErr.None? && sendErr.Some? ==>
                outcome == Panicked(SubscribeFailed(SendFailed(sendErr.value))) && unchanged(stream)
      ensures clientService.cli.Some? && clientService.GetSubToken(event).Ok? && openErr.None? && sendErr.None?
              && endsWithinWait && Delivered(old(stream.pending)) == 0 ==>
                outcome == Panicked(SubscribeFailed(EarlyStreamError(StopReason(old(stream.pending)))))
      ensures openErr.None? && sendErr.None? && clientService.cli.Some? && clientService.GetSubToken(event).Ok?
              && !(endsWithinWait && Delivered(old(stream.pending)) == 0) ==>
                var n := Delivered(old(stream.pending));
                var t := FirstUnacked(n, process);
                && stream.sent == old(stream.sent)
                     + [OptionFrame(event, clientService.GetSubToken(event).value, maxConcurrent)]
                     + Replies(if t <= n then t else n, process)
                && outcome == (if t <= n then Panicked(NotAcked(t)) else Returned)
    {
      var c := clientService.GetPubsubClient();
      if c.Err? {
        return Panicked(ClientPanic(c.error));
      }
      hasCancel := true;
      var token := clientService.GetSubToken(event);
      if token.Err? {
        log := log + [CancelSubscription];
        return Panicked(TokenPanic(token.error));
      }
      if c.value.None? {
        log := log + [CancelSubscription];
        return Panicked(NilClient);
      }
      var opt := SubscribeOption(event, token.value, maxConcurrent);
      var r := Subscribe(opt, stream, openErr, sendErr, endsWithinWait);
      if r.Err? {
        log := log + [CancelSubscription];
        return Panicked(SubscribeFailed(r.error));
      }
      outcome := ProcessMessages(r.value, stream, process);
      log := log + [CancelSubscription];
    }

    /**
     * The range loop over the message channel with processMessage on each
     * message: the first message left unacked panics.
     */
    method ProcessMessages(msgs: seq<Message>, stream: Stream, process: nat -> Decision)
      returns (outcome: RunOutcome)
      requires forall k :: 0 <= k < |msgs| ==> msgs[k].tag == k + 1 && msgs[k].stream == stream && !msgs[k].hadAck
      modifies stream`sent, set m | m in msgs
      ensures var n := |msgs|;
              var t := FirstUnacked(n, process);
              && stream.sent == old(stream.sent) + Replies(if t <= n then t else n, process)
              && outcome == (if t <= n then Panicked(NotAcked(t)) else Returned)
    {
      ghost var n := |msgs|;
      var i := 0;
      while i < |msgs|
        invariant 0 <= i <= |msgs|
        invariant i < FirstUnacked(n, process)
        invariant stream.sent == old(stream.sent) + Replies(i, process)
        invariant forall k :: i <= k < |msgs| ==> !msgs[k].hadAck
      {
        var m := msgs[i];
        m.Handle(process(m.tag));
        if !m.hadAck {
          return Panicked(NotAcked(m.tag));
        }
        i := i + 1;
      }
      outcome := Returned;
    }

    /**
     * Stop: cancels the subscription if Run has created it, and waits for
     * messages still being processed only when waitForProcessFunc is set.
     */
    method Stop()
      modifies this`log
      ensures log == old(log) + (if hasCancel then [CancelSubscription] else [])
                              + (if waitForProcessFunc then [WaitInFlight] else [])
    {
      if hasCancel {
        log := log + [CancelSubscription];
      }
      if waitForProcessFunc {
        log := log + [WaitInFlight];
      }
    }
  }
}
