/**
 * The delivery-tag protocol of the pub/sub client (spubsub/pubsub_client.go;
 * new/broker/broker_client.go and new/broker/broker.go hold the same code).
 *
 * A subscription stream is a sequence of frames the client sends (the
 * subscribe option, then acks and redeliveries) and a sequence of results
 * it receives. The receive loop gives the n-th delivered message the tag n,
 * and a message's Ack and Redeliver send a frame carrying its own tag.
 */
module PubsubStream {
  import opened Wrappers

  const NanosPerSecond: int := 1_000_000_000

  /** The earliest and (exclusive) latest seconds a protobuf Timestamp may hold: 0001-01-01 and 10000-01-01. */
  const MinValidSeconds: int := -62135596800
  const MaxValidSeconds: int := 253402300800

  /** A protobuf Duration. */
  datatype DurationPb = DurationPb(seconds: int, nanos: int)

  /** A protobuf Timestamp as received on the wire. */
  datatype TimestampPb = TimestampPb(seconds: int, nanos: int)

  /** A Go time.Time, as seconds and nanoseconds since the Unix epoch. */
  datatype Time = Time(seconds: int, nanos: int)

  datatype TimestampError = NilTimestamp | BeforeMinimum | AfterMaximum | NanosOutOfRange

  /** Why the receive loop stopped: Recv failed, or a message carried a bad timestamp. */
  datatype StreamError = RecvFailed(msg: string) | BadTimestamp(reason: TimestampError)

  /** The frames a subscriber sends on the stream. */
  datatype Frame =
    | OptionFrame(event: string, token: string, maxConcurrent: int)
    | AckFrame(tag: nat, note: string)
    | RedeliverFrame(tag: nat, note: string, delay: DurationPb)

  /** A message as the broker delivers it; `created` is nil when absent. */
  datatype Delivery = Delivery(id: string, data: seq<bv8>, deliveredCount: int, created: Option<TimestampPb>)

  /** What one call of Recv on the stream yields. */
  datatype RecvResult = Received(msg: Delivery) | RecvError(err: string)

  datatype SubscribeOption = SubscribeOption(event: string, token: string, maxConcurrent: int)

  datatype Publishing = Publishing(event: string, token: string, data: seq<bv8>, delay: int)

  datatype PublishReq = PublishReq(event: string, token: string, data: seq<bv8>, delay: DurationPb)

  /** Why Subscribe returned an error. */
  datatype SubscribeError =
    | OpenFailed(msg: string)
    | SendFailed(msg: string)
    | EarlyStreamError(cause: StreamError)
    | NotConnected

  // ------------------------------------------------------------------
  // Protobuf time conversions

  /** Go's `/` on integers: the quotient truncated toward zero. */
  function TruncDiv(a: int, b: int): (q: int)
    requires b > 0
    ensures a >= 0 ==> 0 <= a - q * b < b
    ensures a < 0 ==> -b < a - q * b <= 0
  {
    if a >= 0 then a / b else -((-a) / b)
  }

  /** The duration, in nanoseconds, that a protobuf Duration stands for. */
  function DurationValue(p: DurationPb): int
  {
    p.seconds * NanosPerSecond + p.nanos
  }

  /**
   * DurationProto: whole seconds truncated toward zero, the remainder in
   * nanoseconds with the sign of the duration.
   */
  function DurationProto(d: int): (p: DurationPb)
    ensures DurationValue(p) == d
    ensures -NanosPerSecond < p.nanos < NanosPerSecond
    ensures d >= 0 ==> p.seconds >= 0 && p.nanos >= 0
    ensures d < 0 ==> p.seconds <= 0 && p.nanos <= 0
  {
    var secs := TruncDiv(d, NanosPerSecond);
    DurationPb(secs, d - secs * NanosPerSecond)
  }

  predicate ValidTimestamp(ts: TimestampPb)
  {
    MinValidSeconds <= ts.seconds < MaxValidSeconds && 0 <= ts.nanos < NanosPerSecond
  }

  /** TimestampFromProto: the checks of validateTimestamp, in its order. */
  function TimestampFromProto(ts: Option<TimestampPb>): (r: Result<Time, TimestampError>)
    ensures r.Ok? <==> ts.Some? && ValidTimestamp(ts.value)
    ensures r.Ok? ==> r.value == Time(ts.value.seconds, ts.value.nanos)
    ensures ts.Some? && ts.value.seconds < MinValidSeconds ==> r == Err(BeforeMinimum)
    ensures ts.Some? && MinValidSeconds <= ts.value.seconds < MaxValidSeconds ==>
              (r.Err? <==> r == Err(NanosOutOfRange))
  {
    match ts
    case None => Err(NilTimestamp)
    case Some(t) =>
      if t.seconds < MinValidSeconds then Err(BeforeMinimum)
      else if t.seconds >= MaxValidSeconds then Err(AfterMaximum)
      else if t.nanos < 0 || t.nanos >= NanosPerSecond then Err(NanosOutOfRange)
      else Ok(Time(t.seconds, t.nanos))
  }

  // ------------------------------------------------------------------
  // Specification of the receive loop

  /** Whether the receive loop turns this result into a message. */
  predicate Deliverable(r: RecvResult)
  {
    r.Received? && TimestampFromProto(r.msg.created).Ok?
  }

  /** How many messages the receive loop delivers from these results before it stops. */
  function Delivered(rs: seq<RecvResult>): (n: nat)
    ensures n <= |rs|
    ensures forall k :: 0 <= k < n ==> Deliverable(rs[k])
    ensures n < |rs| ==> !Deliverable(rs[n])
  {
    if |rs| == 0 || !Deliverable(rs[0]) then 0 else 1 + Delivered(rs[1..])
  }

  /**
   * Why the receive loop stops: the first failed Recv or bad timestamp;
   * when the stream has nothing more to give, Recv fails with "EOF".
   */
  function StopReason(rs: seq<RecvResult>): StreamError
  {
    var n := Delivered(rs);
    if n == |rs| then RecvFailed("EOF")
    else match rs[n]
      case RecvError(e) => RecvFailed(e)
      case Received(m) => BadTimestamp(TimestampFromProto(m.created).error)
  }

  /** The frames a message's handler sends: its Ack or Redeliver, or none. */
  datatype Decision = AckWith(note: string) | RedeliverWith(note: string, delay: int) | NoAck

  function Reply(tag: nat, d: Decision): (fs: seq<Frame>)
    ensures |fs| <= 1
    ensures |fs| == 1 <==> !d.NoAck?
    ensures forall f :: f in fs ==> !f.OptionFrame? && f.tag == tag
  {
    match d
    case AckWith(note) => [AckFrame(tag, note)]
    case RedeliverWith(note, delay) => [RedeliverFrame(tag, note, DurationProto(delay))]
    case NoAck => []
  }

  // ------------------------------------------------------------------
  // The stream and its messages

  /**
   * A subscription stream: `pending` is what the broker has still to send
   * (Recv returns it front first), `sent` the frames sent so far.
   * `cancelled` and `closed` are the subscription's context and message
   * channel, which the receive goroutine cancels and closes on exit.
   */
  class Stream {
    var pending: seq<RecvResult>
    var sent: seq<Frame>
    var cancelled: bool
    var closed: bool

    constructor (inbox: seq<RecvResult>)
      ensures pending == inbox && sent == []
      ensures !cancelled && !closed
    {
      pending := inbox;
      sent := [];
      cancelled := false;
      closed := false;
    }

    /** Recv: the next result, or an "EOF" error once the broker has sent everything. */
    method Recv() returns (r: RecvResult)
      modifies this`pending
      ensures old(pending) != [] ==> r == old(pending)[0] && pending == old(pending)[1..]
      ensures old(pending) == [] ==> r == RecvError("EOF") && pending == []
    {
      if pending != [] {
        r := pending[0];
        pending := pending[1..];
      } else {
        r := RecvError("EOF");
      }
    }

    method Send(f: Frame)
      modifies this`sent
      ensures sent == old(sent) + [f]
    {
      sent := sent + [f];
    }
  }

  /**
   * A delivered message. `tag` is the receive loop's counter when the
   * message arrived, captured by its ack and redeliver closures.
   */
  class Message {
    const id: string
    const data: seq<bv8>
    const deliveredCount: int
    const created: Time
    const tag: nat
    const stream: Stream
    var hadAck: bool

    constructor (d: Delivery, created: Time, tag: nat, stream: Stream)
      ensures id == d.id && data == d.data && deliveredCount == d.deliveredCount
      ensures this.created == created && this.tag == tag && this.stream == stream
      ensures !hadAck
    {
      id := d.id;
      data := d.data;
      deliveredCount := d.deliveredCount;
      this.created := created;
      this.tag := tag;
      this.stream := stream;
      hadAck := false;
    }

    /** Whether this message carries what the broker delivered. */
    predicate Carries(d: Delivery)
    {
      id == d.id && data == d.data && deliveredCount == d.deliveredCount
      && d.created.Some? && created == Time(d.created.value.seconds, d.created.value.nanos)
    }

    /** Ack: an ack frame with this message's tag and the note, then hadAck. */
    method Ack(note: string)
      modifies this`hadAck, stream`sent
      ensures stream.sent == old(stream.sent) + [AckFrame(tag, note)]
      ensures hadAck
    {
      stream.Send(AckFrame(tag, note));
      hadAck := true;
    }

    /** Redeliver: a redeliver frame with this message's tag, the note and the delay, then hadAck. */
    method Redeliver(note: string, delay: int)
      modifies this`hadAck, stream`sent
      ensures stream.sent == old(stream.sent) + [RedeliverFrame(tag, note, DurationProto(delay))]
      ensures hadAck
    {
      stream.Send(RedeliverFrame(tag, note, DurationProto(delay)));
      hadAck := true;
    }

    /** What a ProcessFunc that decides `d` does to this message. */
    method Handle(d: Decision)
      modifies this`hadAck, stream`sent
      ensures stream.sent == old(stream.sent) + Reply(tag, d)
      ensures hadAck == (old(hadAck) || !d.NoAck?)
    {
      match d
      case AckWith(note) => Ack(note);
      case RedeliverWith(note, delay) => Redeliver(note, delay);
      case NoAck =>
    }
  }

  /**
   * processSubscribeStream: receives until the first failed Recv or bad
   * timestamp. The n-th delivered message gets tag n.
   */
  method ProcessSubscribeStream(stream: Stream) returns (msgs: seq<Message>, err: StreamError)
    modifies stream`pending
    ensures |msgs| == Delivered(old(stream.pending))
    ensures err == StopReason(old(stream.pending))
    ensures forall k :: 0 <= k < |msgs| ==>
              fresh(msgs[k]) && msgs[k].tag == k + 1 && msgs[k].stream == stream
              && !msgs[k].hadAck && msgs[k].Carries(old(stream.pending)[k].msg)
  {
    ghost var rest := stream.pending;
    var counter: nat := 0;
    msgs := [];
    while true
      invariant counter == |msgs| <= Delivered(rest)
      invariant stream.pending == rest[counter..]
      invariant forall k :: 0 <= k < |msgs| ==>
                  fresh(msgs[k]) && msgs[k].tag == k + 1 && msgs[k].stream == stream
                  && !msgs[k].hadAck && msgs[k].Carries(rest[k].msg)
      decreases |stream.pending|
    {
      var m := ReceiveNext(stream, rest, counter);
      if m.Err? {
        return msgs, m.error;
      }
      counter := counter + 1;
      msgs := msgs + [m.value];
    }
  }

  /**
   * One turn of the receive loop after `counter` messages: Recv, then the
   * timestamp check; a new message with the next tag, or why the loop ends.
   */
  method ReceiveNext(stream: Stream, ghost rest: seq<RecvResult>, counter: nat) returns (m: Result<Message, StreamError>)
    requires counter <= Delivered(rest) && stream.pending == rest[counter..]
    modifies stream`pending
    ensures m.Err? ==> counter == Delivered(rest) && m.error == StopReason(rest)
    ensures m.Ok? ==> && counter < Delivered(rest) && stream.pending == rest[counter + 1..]
                        && fresh(m.value) && m.value.tag == counter + 1 && m.value.stream == stream
                        && !m.value.hadAck && m.value.Carries(rest[counter].msg)
  {
    var r := stream.Recv();
    if r.RecvError? {
      return Err(RecvFailed(r.err));
    }
    var t := TimestampFromProto(r.msg.created);
    if t.Err? {
      return Err(BadTimestamp(t.error));
    }
    var msg := new Message(r.msg, t.value, counter + 1, stream);
    return Ok(msg);
  }

  /**
   * The canonical protobuf form of a duration of `d` nanoseconds, as
   * ptypes.DurationProto gives it: the same value, fewer than a second of
   * nanoseconds, and both parts with the duration's sign.
   */
  predicate IsDurationOf(p: DurationPb, d: int)
  {
    && DurationValue(p) == d
    && -NanosPerSecond < p.nanos < NanosPerSecond
    && (d >= 0 ==> p.seconds >= 0 && p.nanos >= 0)
    && (d < 0 ==> p.seconds <= 0 && p.nanos <= 0)
  }

  /** A duration has one canonical protobuf form. */
  lemma DurationOfUnique(p: DurationPb, q: DurationPb, d: int)
    requires IsDurationOf(p, d) && IsDurationOf(q, d)
    ensures p == q
  {
  }

  /** The request for a publishing: its event, token and data, and its delay in canonical form. */
  predicate RequestFor(req: PublishReq, pub: Publishing)
  {
    && req.event == pub.event && req.token == pub.token && req.data == pub.data
    && IsDurationOf(req.delay, pub.delay)
  }

  /**
   * Publish: the request carries the event, token, data and the delay as a
   * protobuf Duration; `reply` is the broker's answer to it. Go's ("", err)
   * becomes Err(err).
   */
  function Publish(pub: Publishing, reply: PublishReq -> Result<string, string>): (r: Result<string, string>)
    ensures exists req :: RequestFor(req, pub) && r == reply(req)
  {
    var req := PublishReq(pub.event, pub.token, pub.data, DurationProto(pub.delay));
    assert RequestFor(req, pub);
    reply(req)
  }

  /** What Publish answers is the broker's reply to the one request for the publishing, whatever the reply. */
  lemma PublishSendsRequestFor(pub: Publishing, reply: PublishReq -> Result<string, string>, req: PublishReq)
    requires RequestFor(req, pub)
    ensures Publish(pub, reply) == reply(req)
  {
    var sent := PublishReq(pub.event, pub.token, pub.data, DurationProto(pub.delay));
    DurationOfUnique(sent.delay, req.delay, pub.delay);
    assert sent == req;
  }

  /**
   * Subscribe: opens the stream (`openErr`), sends the option frame
   * (`sendErr`), then starts the receive loop and waits one second for it.
   * The loop can only end within that second when it delivers nothing
   * (the unbuffered channel has no reader yet); `endsWithinWait` says
   * whether it did. On success the channel yields the returned messages
   * in order and is then closed.
   */
  method Subscribe(opt: SubscribeOption, stream: Stream, openErr: Option<string>,
                   sendErr: Option<string>, endsWithinWait: bool)
    returns (r: Result<seq<Message>, SubscribeError>)
    modifies stream`pending, stream`sent, stream`cancelled, stream`closed
    ensures openErr.Some? ==> r == Err(OpenFailed(openErr.value)) && unchanged(stream)
    ensures openErr.None? && sendErr.Some? ==>
              r == Err(SendFailed(sendErr.value)) && unchanged(stream)
    ensures openErr.None? && sendErr.None? ==>
              && stream.sent == old(stream.sent) + [OptionFrame(opt.event, opt.token, opt.maxConcurrent)]
              && stream.cancelled && stream.closed
              && (r.Err? <==> endsWithinWait && Delivered(old(stream.pending)) == 0)
              && (r.Err? ==> r.error == EarlyStreamError(StopReason(old(stream.pending))))
              && (r.Ok? ==> |r.value| == Delivered(old(stream.pending)))
    ensures r.Ok? ==> forall k :: 0 <= k < |r.value| ==>
              fresh(r.value[k]) && r.value[k].tag == k + 1 && r.value[k].stream == stream
              && !r.value[k].hadAck && r.value[k].Carries(old(stream.pending)[k].msg)
  {
    if openErr.Some? {
      return Err(OpenFailed(openErr.value));
    }
    if sendErr.Some? {
      return Err(SendFailed(sendErr.value));
    }
    stream.Send(OptionFrame(opt.event, opt.token, opt.maxConcurrent));
    var msgs, err := ProcessSubscribeStream(stream);
    stream.cancelled := true;
    stream.closed := true;
    if endsWithinWait && |msgs| == 0 {
      r := Err(EarlyStreamError(err));
    } else {
      r := Ok(msgs);
    }
  }

  // ------------------------------------------------------------------
  // Properties

  /** The frames of an Ack or Redeliver identify their message: distinct messages' frames differ. */
  lemma RepliesDistinguishMessages(t1: nat, d1: Decision, t2: nat, d2: Decision)
    requires t1 != t2
    ensures forall f :: f in Reply(t1, d1) ==> f !in Reply(t2, d2)
  {
  }

  /** Delivery over a concatenation: everything of a fully deliverable prefix, then the rest. */
  lemma {:induction false} DeliveredAppend(a: seq<RecvResult>, b: seq<RecvResult>)
    requires Delivered(a) == |a|
    ensures Delivered(a + b) == |a| + Delivered(b)
  {
    if |a| > 0 {
      assert (a + b)[1..] == a[1..] + b;
      assert Deliverable(a[0]);
      assert Delivered(a[1..]) == |a| - 1;
      DeliveredAppend(a[1..], b);
    } else {
      assert a + b == b;
    }
  }
}
