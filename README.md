# golang-sdk v2.2.1: a verified model of its sequential core

This project models, in Dafny, the parts of Sendo's Go microservice SDK
(golang-sdk v2.2.1) that are sequential bookkeeping or small pure helpers,
and proves properties of them:

- the application lifecycle of `app.go` and the service mux of `service_mux.go`;
- the pub/sub delivery-tag protocol of `spubsub` and `new/broker`;
- the worker pool of `new/util/worker-pool`;
- the database-range parser, the shard configuration and the SQL service of `ssql`;
- the route helpers of the gRPC and gin servers (`sgrpc`, `sgin`);
- the Consul service registration of `ssd` and `new/registry`;
- the gorm driver type mapping and the storage prefix lookup of `new/storage`;
- the command line of `sdms-cli`, and the Redis note storage of its gRPC skeleton;
- the handlers, repository and error codes of the note example in `new/examples/note`.

Every call into a service, a channel, a network client or the operating
system is either recorded in a trace of calls or given to the model as a
parameter (the answer the call returns). Go's goroutines and signals become
explicit event sequences. Go's integer widths are modelled where they matter
(int32 and uint32 conversions in the note example). Elsewhere integers are
unbounded.

One Dafny module lives in each file:

- `wrappers.dfy` holds Option and Result.
- `gostrings.dfy`, `go_regexp.dfy` and `stringsort.dfy` model the parts of Go's
  strings, strconv, regexp and sort packages that the core uses.
- `lifecycle.dfy` holds the configure walk that the application and the mux share.
- `pubsub_tokens.dfy` holds the token maps that the spubsub client service and the
  broker service share.
- `consul_agent.dfy` holds the registration normalisation that both Consul clients share.
- `net_addr.dfy` holds formatBindAddr, which both servers share.

## Model

| member | source | states |
|---|---|---|
| App.WithLogDefaults | pkg/mod/gitlab.sendo.vn/core/golang-sdk@v2.2.1+incompatible/app.go:123-135 | an empty flag prefix, base prefix or default level becomes "core-", "core" or "info"; a field already set is kept |
| App.LogDefaultsFilled | pkg/mod/gitlab.sendo.vn/core/golang-sdk@v2.2.1+incompatible/app.go:123-135 | after initLogging no logging field is empty, a set flag prefix is kept, and applying the defaults again changes nothing |
| App.ConfigureCalls | pkg/mod/gitlab.sendo.vn/core/golang-sdk@v2.2.1+incompatible/app.go:284-288 | configure calls Configure once per service id, in registration order |
| App.ReloadCalls | pkg/mod/gitlab.sendo.vn/core/golang-sdk@v2.2.1+incompatible/app.go:292-301 | Reload is called on exactly the reloadable services, in registration order |
| App.ReloadCallsSplit | pkg/mod/gitlab.sendo.vn/core/golang-sdk@v2.2.1+incompatible/app.go:292-301 | the reload calls of the services follow their order: those of any first part, then those of the rest; one service gives one Reload exactly when it is reloadable |
| App.StartCalls | pkg/mod/gitlab.sendo.vn/core/golang-sdk@v2.2.1+incompatible/app.go:303-335 | beginRun starts exactly the runnable services, one goroutine each, in registration order |
| App.StartCallsSplit | pkg/mod/gitlab.sendo.vn/core/golang-sdk@v2.2.1+incompatible/app.go:303-335 | the start calls of the services follow their order: those of any first part, then those of the rest; one service gives one Start, with its watch, exactly when it is runnable |
| App.ShutdownCount | pkg/mod/gitlab.sendo.vn/core/golang-sdk@v2.2.1+incompatible/app.go:308-330 | a main or critical service asks for shutdown whenever its Run returns; any other service asks only when Run fails |
| App.StuckShutdowns | pkg/mod/gitlab.sendo.vn/core/golang-sdk@v2.2.1+incompatible/app.go:245-246 | of successive Shutdown calls on a Run loop still reading, the first two get through and every later one blocks; once the loop has ended only one more gets through, and none does once the channel is full (with line 95 and lines 209-216 of the same file) |
| App.ReverseStops | pkg/mod/gitlab.sendo.vn/core/golang-sdk@v2.2.1+incompatible/app.go:337-347 | stop calls Stop on exactly the runnable services |
| App.ReverseStopsSplit | pkg/mod/gitlab.sendo.vn/core/golang-sdk@v2.2.1+incompatible/app.go:341-346 | every service registered at or after a position is stopped before every service registered before it |
| App.ReverseCleanups | pkg/mod/gitlab.sendo.vn/core/golang-sdk@v2.2.1+incompatible/app.go:349-359 | cleanup calls Cleanup on every service, last registered first |
| App.HandlerCalls | pkg/mod/gitlab.sendo.vn/core/golang-sdk@v2.2.1+incompatible/app.go:220-227 | the exit handlers run in registration order |
| App.ReleaseCalls | pkg/mod/gitlab.sendo.vn/core/golang-sdk@v2.2.1+incompatible/app.go:232-236 | every queued shutdown waiter is signalled, in queue order |
| App.FirstTerminating | pkg/mod/gitlab.sendo.vn/core/golang-sdk@v2.2.1+incompatible/app.go:208-216 | the signal loop ends at the first event that is not a SIGHUP, and no event before it ends the loop |
| App.FirstTerminatingAt | pkg/mod/gitlab.sendo.vn/core/golang-sdk@v2.2.1+incompatible/app.go:208-216 | that first ending event is unique: any position with no ending event before it and an ending event at it is FirstTerminating |
| App.Application.constructor | pkg/mod/gitlab.sendo.vn/core/golang-sdk@v2.2.1+incompatible/app.go:93-144 | NewApp fills in the logging defaults and registers the logging service first, calling its InitFlags; there is no main service and the application is not shut down |
| App.Application.RegService | pkg/mod/gitlab.sendo.vn/core/golang-sdk@v2.2.1+incompatible/app.go:156-170 | a service already registered is fatal and changes nothing; otherwise its InitFlags is called and it is appended, not critical |
| App.Application.RegMainService | pkg/mod/gitlab.sendo.vn/core/golang-sdk@v2.2.1+incompatible/app.go:175-182 | RegService, then the service becomes the main one; a duplicate is fatal and changes nothing |
| App.Application.SetCriticalService | pkg/mod/gitlab.sendo.vn/core/golang-sdk@v2.2.1+incompatible/app.go:388-397 | every entry of the service is marked critical, other entries and the order are kept, and an unregistered service changes nothing |
| App.Application.RegisterExitHandler | pkg/mod/gitlab.sendo.vn/core/golang-sdk@v2.2.1+incompatible/app.go:399-404 | the handler is appended to the exit handlers |
| App.Application.IsShutdown | pkg/mod/gitlab.sendo.vn/core/golang-sdk@v2.2.1+incompatible/app.go:361-365 | answers whether the application has been shut down |
| App.Application.ConfigureAll | pkg/mod/gitlab.sendo.vn/core/golang-sdk@v2.2.1+incompatible/app.go:280-290 | Configure runs in registration order up to and including the first failing service, and that service's error is returned |
| App.Application.ReloadAll | pkg/mod/gitlab.sendo.vn/core/golang-sdk@v2.2.1+incompatible/app.go:292-301 | the trace grows by the Reload calls of the reloadable services, in order |
| App.Application.BeginRun | pkg/mod/gitlab.sendo.vn/core/golang-sdk@v2.2.1+incompatible/app.go:303-335 | the trace grows by one start per runnable service, each watched as the main one, a critical one, or neither |
| App.Application.StopAll | pkg/mod/gitlab.sendo.vn/core/golang-sdk@v2.2.1+incompatible/app.go:337-347 | the trace grows by Stop on the runnable services, last registered first |
| App.Application.CleanupAll | pkg/mod/gitlab.sendo.vn/core/golang-sdk@v2.2.1+incompatible/app.go:349-359 | the trace grows by Cleanup on every service, last registered first |
| App.Application.Shutdown | pkg/mod/gitlab.sendo.vn/core/golang-sdk@v2.2.1+incompatible/app.go:245-259 | a SIGTERM is sent on the signal channel: the first reaches the Run loop and ends it, one more fits in the channel of capacity 1 once the loop has ended, and any later one blocks, registering nothing; a call that does not block returns a fresh channel, signalled at once when the application is shut down and otherwise queued as a waiter |
| App.Application.Teardown | pkg/mod/gitlab.sendo.vn/core/golang-sdk@v2.2.1+incompatible/app.go:218-237 | exit handlers, then stop and cleanup in reverse order, then the application is marked shut down and every waiter released |
| App.Application.ServeEvents | pkg/mod/gitlab.sendo.vn/core/golang-sdk@v2.2.1+incompatible/app.go:208-216 | SIGHUPs reload, service returns ask for shutdown as ShutdownCount says, and the loop ends at the first event that is not a SIGHUP; none of those Shutdown calls blocks, and the channel is left holding a SIGTERM exactly when that event made two |
| App.Application.RequestShutdowns | pkg/mod/gitlab.sendo.vn/core/golang-sdk@v2.2.1+incompatible/app.go:245-259 | the trace grows by one request per call; the calls that block are counted as StuckShutdowns says; the loop is ended after any call and the channel left full as the calls fill it; waiters only grow |
| App.Application.Run | pkg/mod/gitlab.sendo.vn/core/golang-sdk@v2.2.1+incompatible/app.go:189-242 | no main service is fatal; a configure error skips beginRun and tears down with failure; a SIGTERM sent before Run ends the loop at once after beginRun; otherwise the services start, events are served, and teardown follows the event that ends the loop |
| Lifecycle.FirstFailure | pkg/mod/gitlab.sendo.vn/core/golang-sdk@v2.2.1+incompatible/app.go:284-288 | the position of the first service whose Configure fails; every service before it configured without error |
| Lifecycle.ConfiguredIds | pkg/mod/gitlab.sendo.vn/core/golang-sdk@v2.2.1+incompatible/service_mux.go:26-33 | the services configured are a prefix of the list: all of them, or up to and including the first failure |
| Lifecycle.ConfigureError | pkg/mod/gitlab.sendo.vn/core/golang-sdk@v2.2.1+incompatible/service_mux.go:26-33 | the walk returns an error exactly when some service fails to configure |
| ServiceMux.Calls | pkg/mod/gitlab.sendo.vn/core/golang-sdk@v2.2.1+incompatible/service_mux.go:20-24 | one call of a phase per child, in the children's order |
| ServiceMux.Mux.constructor | pkg/mod/gitlab.sendo.vn/core/golang-sdk@v2.2.1+incompatible/service_mux.go:16-18 | NewServiceMux keeps the children as given, with no calls made |
| ServiceMux.Mux.InitFlags | pkg/mod/gitlab.sendo.vn/core/golang-sdk@v2.2.1+incompatible/service_mux.go:20-24 | InitFlags is called on every child, in order |
| ServiceMux.Mux.Configure | pkg/mod/gitlab.sendo.vn/core/golang-sdk@v2.2.1+incompatible/service_mux.go:26-33 | children are configured in order up to and including the first failing one, and its error is returned; later children are not configured |
| ServiceMux.Mux.Run | pkg/mod/gitlab.sendo.vn/core/golang-sdk@v2.2.1+incompatible/service_mux.go:36-46 | every child is started; the result is whatever the child that returns first returned; with no children the receive blocks |
| ServiceMux.Mux.Stop | pkg/mod/gitlab.sendo.vn/core/golang-sdk@v2.2.1+incompatible/service_mux.go:49-59 | Stop is called on every child, and the mux returns only after all of them |
| ServiceMux.Mux.Cleanup | pkg/mod/gitlab.sendo.vn/core/golang-sdk@v2.2.1+incompatible/service_mux.go:61-65 | Cleanup is called on every child, in order |
| ServiceMux.Mux.GetServices | pkg/mod/gitlab.sendo.vn/core/golang-sdk@v2.2.1+incompatible/service_mux.go:67-69 | the children are returned as given |
| PubsubStream.TruncDiv | pkg/mod/gitlab.sendo.vn/core/golang-sdk@v2.2.1+incompatible/spubsub/pubsub_client.go:70 | Go's integer division truncates toward zero: the remainder has the sign of the dividend and is smaller than the divisor |
| PubsubStream.DurationProto | pkg/mod/gitlab.sendo.vn/core/golang-sdk@v2.2.1+incompatible/spubsub/pubsub_client.go:70 | the protobuf Duration of a delay stands for exactly that delay, its nanoseconds are below one second, and seconds and nanoseconds share the delay's sign |
| PubsubStream.TimestampFromProto | pkg/mod/gitlab.sendo.vn/core/golang-sdk@v2.2.1+incompatible/spubsub/pubsub_client.go:98-101 | a message's created time converts exactly when it is present and within 0001-01-01 to 10000-01-01 with nanoseconds in range; otherwise the failing check is named |
| PubsubStream.Delivered | pkg/mod/gitlab.sendo.vn/core/golang-sdk@v2.2.1+incompatible/spubsub/pubsub_client.go:90-101 | the receive loop delivers every result before the first failed Recv or bad timestamp, and none after it |
| PubsubStream.Reply | pkg/mod/gitlab.sendo.vn/core/golang-sdk@v2.2.1+incompatible/spubsub/pubsub_client.go:109-135 | a handler's decision sends at most one frame, an ack or a redeliver, carrying its message's tag |
| PubsubStream.Stream.Recv | pkg/mod/gitlab.sendo.vn/core/golang-sdk@v2.2.1+incompatible/spubsub/pubsub_client.go:91 | Recv yields the broker's next result, and an EOF error once it has sent everything |
| PubsubStream.Stream.Send | pkg/mod/gitlab.sendo.vn/core/golang-sdk@v2.2.1+incompatible/spubsub/pubsub_client.go:113 | Send appends the frame to the frames sent |
| PubsubStream.Message.constructor | pkg/mod/gitlab.sendo.vn/core/golang-sdk@v2.2.1+incompatible/spubsub/pubsub_client.go:102-108 | a delivered message carries the delivery's id, data and count, its created time and its tag, not yet acknowledged |
| PubsubStream.Message.Ack | pkg/mod/gitlab.sendo.vn/core/golang-sdk@v2.2.1+incompatible/spubsub/pubsub_client.go:49-52 | Ack sends an ack frame with the message's own tag and the note, then sets hadAck |
| PubsubStream.Message.Redeliver | pkg/mod/gitlab.sendo.vn/core/golang-sdk@v2.2.1+incompatible/spubsub/pubsub_client.go:54-57 | Redeliver sends a redeliver frame with the message's own tag, the note and the delay as a protobuf Duration, then sets hadAck |
| PubsubStream.Message.Handle | pkg/mod/gitlab.sendo.vn/core/golang-sdk@v2.2.1+incompatible/spubsub/pubsub_client.go:49-57 | a processing function's decision sends its reply frame and sets hadAck unless it neither acked nor redelivered |
| PubsubStream.ProcessSubscribeStream | pkg/mod/gitlab.sendo.vn/core/golang-sdk@v2.2.1+incompatible/spubsub/pubsub_client.go:86-138 | the n-th delivered message gets tag n, carries its delivery and its stream, and is not acknowledged; the loop stops at the first failed Recv or bad timestamp, with that error |
| PubsubStream.Publish | pkg/mod/gitlab.sendo.vn/core/golang-sdk@v2.2.1+incompatible/spubsub/pubsub_client.go:69-84 | the reply returned is the broker's answer to a request carrying the publishing's event, token and data and a Duration whose value is its delay, seconds and nanos of the delay's sign |
| PubsubStream.PublishSendsRequestFor | pkg/mod/gitlab.sendo.vn/core/golang-sdk@v2.2.1+incompatible/spubsub/pubsub_client.go:69-84 | any request with those fields and that delay is the one sent, so the reply returned is the answer to it |
| PubsubStream.Subscribe | pkg/mod/gitlab.sendo.vn/core/golang-sdk@v2.2.1+incompatible/spubsub/pubsub_client.go:140-184 | an open or send failure is returned with the stream untouched; otherwise the option frame is sent, the stream is cancelled and closed when the loop ends, and an error is returned only when the loop ended within the wait having delivered nothing |
| PubsubStream.RepliesDistinguishMessages | pkg/mod/gitlab.sendo.vn/core/golang-sdk@v2.2.1+incompatible/spubsub/pubsub_client.go:109-135 | frames sent for messages with different tags never coincide |
| PubsubStream.DeliveredAppend | pkg/mod/gitlab.sendo.vn/core/golang-sdk@v2.2.1+incompatible/spubsub/pubsub_client.go:90-137 | after a fully delivered run of results, delivery goes on over what follows |
| PubsubTokens.FirstDuplicate | pkg/mod/gitlab.sendo.vn/core/golang-sdk@v2.2.1+incompatible/spubsub/pubsub_client_service.go:63-66 | the index of the first event repeating an earlier one: the events before it are distinct, and it (when inside the list) occurs before it |
| PubsubTokens.FirstDuplicateUnique | pkg/mod/gitlab.sendo.vn/core/golang-sdk@v2.2.1+incompatible/spubsub/pubsub_client_service.go:63-66 | no repeat is found exactly when the event names are all distinct |
| PubsubTokens.FillTokenMap | pkg/mod/gitlab.sendo.vn/core/golang-sdk@v2.2.1+incompatible/spubsub/pubsub_client_service.go:63-74 | the loop maps exactly the events before the first repeat, each to its own "pubsub-pub-token-"/"pubsub-sub-token-" flag, and panics with the "must be unique (duplicated e)" message exactly when a repeat exists |
| PubsubTokens.GetToken | pkg/mod/gitlab.sendo.vn/core/golang-sdk@v2.2.1+incompatible/spubsub/pubsub_client_service.go:90-104 | a token exists exactly for a mapped event and is that flag's parsed value (default ""); any other event panics with "do not contain event e" |
| PubsubTokens.TokensForConfiguredEvents | pkg/mod/gitlab.sendo.vn/core/golang-sdk@v2.2.1+incompatible/spubsub/pubsub_client_service.go:63-104 | after a fill over distinct events, a token exists exactly for the configured events and reads that event's own flag |
| PubsubClientService.ClientService.constructor | pkg/mod/gitlab.sendo.vn/core/golang-sdk@v2.2.1+incompatible/spubsub/pubsub_client_service.go:30-37 | both token maps start empty and there is no client yet |
| PubsubClientService.ClientService.InitFlags | pkg/mod/gitlab.sendo.vn/core/golang-sdk@v2.2.1+incompatible/spubsub/pubsub_client_service.go:57-75 | publish events are mapped first, then subscribe events; a repeat in the publish list panics before any subscribe flag exists; no panic exactly when both lists are repeat-free |
| PubsubClientService.ClientService.GetPubToken | pkg/mod/gitlab.sendo.vn/core/golang-sdk@v2.2.1+incompatible/spubsub/pubsub_client_service.go:90-96 | the flag value of a configured publish event; otherwise the ClientConfig.PublishEvents panic |
| PubsubClientService.ClientService.GetSubToken | pkg/mod/gitlab.sendo.vn/core/golang-sdk@v2.2.1+incompatible/spubsub/pubsub_client_service.go:98-104 | the flag value of a configured subscribe event; otherwise the ClientConfig.SubscribeEvents panic |
| PubsubClientService.ClientService.GetPubsubClient | pkg/mod/gitlab.sendo.vn/core/golang-sdk@v2.2.1+incompatible/spubsub/pubsub_client_service.go:77-88 | the client is created at most once; a failed connection panics on the first call only, and later calls return the client as it stands without retrying |
| PubsubClientService.SubTokensAfterInit | pkg/mod/gitlab.sendo.vn/core/golang-sdk@v2.2.1+incompatible/spubsub/pubsub_client_service.go:69-104 | after InitFlags on distinct subscribe events, GetSubToken succeeds exactly for those events |
| SubscriberService.ConfigPanic | pkg/mod/gitlab.sendo.vn/core/golang-sdk@v2.2.1+incompatible/spubsub/subscriber_service.go:26-35 | the checks of NewSubscriberService in order: missing event, then client service, then process function, each with its own panic; none when all are set |
| SubscriberService.FirstUnacked | pkg/mod/gitlab.sendo.vn/core/golang-sdk@v2.2.1+incompatible/spubsub/subscriber_service.go:77-86 | the first message whose processing neither acks nor redelivers: all before it did |
| SubscriberService.RepliesOnePerMessage | pkg/mod/gitlab.sendo.vn/core/golang-sdk@v2.2.1+incompatible/spubsub/subscriber_service.go:70-86 | when every message is acked or redelivered, exactly one reply frame is sent per message, in tag order |
| SubscriberService.RepliesCarryTags | pkg/mod/gitlab.sendo.vn/core/golang-sdk@v2.2.1+incompatible/spubsub/subscriber_service.go:77-86 | processing sends only ack/redeliver frames, each for a delivered tag |
| SubscriberService.Subscriber.constructor | pkg/mod/gitlab.sendo.vn/core/golang-sdk@v2.2.1+incompatible/spubsub/subscriber_service.go:26-39 | the service keeps the configured event, concurrency and waiting flag, and has no subscription yet |
| SubscriberService.Subscriber.Run | pkg/mod/gitlab.sendo.vn/core/golang-sdk@v2.2.1+incompatible/spubsub/subscriber_service.go:53-75 | a failed client, an unconfigured event, a nil client and a failed subscribe (open, send, or an early end with nothing delivered) each panic with that reason and the stream untouched where nothing was sent; otherwise the option frame with the event's subscribe token is sent, then one reply per message until the first unacked message panics; the deferred cancel runs whenever the context was created |
| SubscriberService.Subscriber.ProcessMessages | pkg/mod/gitlab.sendo.vn/core/golang-sdk@v2.2.1+incompatible/spubsub/subscriber_service.go:70-86 | messages are handled in order, the frames sent are the replies up to the first unacked message, which panics with its tag |
| SubscriberService.Subscriber.Stop | pkg/mod/gitlab.sendo.vn/core/golang-sdk@v2.2.1+incompatible/spubsub/subscriber_service.go:88-95 | the subscription is cancelled only if Run created it, and in-flight messages are waited for only when configured |
| Broker.NotSetPublish | pkg/mod/gitlab.sendo.vn/core/golang-sdk@v2.2.1+incompatible/new/broker/broker.go:24-26 | the placeholder broker refuses every publish with "not set broker" |
| Broker.NotSetSubscribe | pkg/mod/gitlab.sendo.vn/core/golang-sdk@v2.2.1+incompatible/new/broker/broker.go:28-30 | the placeholder broker refuses every subscription with "not set broker" |
| Broker.NotSetIsConnected | pkg/mod/gitlab.sendo.vn/core/golang-sdk@v2.2.1+incompatible/new/broker/broker.go:32-34 | the placeholder broker is never connected |
| Broker.NotSetGetToken | pkg/mod/gitlab.sendo.vn/core/golang-sdk@v2.2.1+incompatible/new/broker/broker.go:36-42 | the placeholder broker's tokens are all empty |
| Broker.BrokerService.constructor | pkg/mod/gitlab.sendo.vn/core/golang-sdk@v2.2.1+incompatible/new/broker/broker_service.go:18-25 | both token maps start empty and there is no connection |
| Broker.BrokerService.InitFlags | pkg/mod/gitlab.sendo.vn/core/golang-sdk@v2.2.1+incompatible/new/broker/broker_service.go:42-59 | publish events are mapped first, then subscribe events, each to its own flag; the first repeat panics with the Config.…Events message; no panic exactly when both lists are repeat-free |
| Broker.BrokerService.Configure | pkg/mod/gitlab.sendo.vn/core/golang-sdk@v2.2.1+incompatible/new/broker/broker_service.go:61-66 | configuring never fails, enabled or not |
| Broker.BrokerService.Run | pkg/mod/gitlab.sendo.vn/core/golang-sdk@v2.2.1+incompatible/new/broker/broker_service.go:68-78 | a disabled broker does nothing; otherwise the connection Dial returns is kept (none on error) and Dial's error is the result |
| Broker.BrokerService.Stop | pkg/mod/gitlab.sendo.vn/core/golang-sdk@v2.2.1+incompatible/new/broker/broker_service.go:80-89 | a held connection is closed, completion is signalled, and the broker still reports itself connected |
| Broker.BrokerService.IsConnected | pkg/mod/gitlab.sendo.vn/core/golang-sdk@v2.2.1+incompatible/new/broker/broker_service.go:111-113 | connected exactly when a connection is held |
| Broker.BrokerService.GetPubToken | pkg/mod/gitlab.sendo.vn/core/golang-sdk@v2.2.1+incompatible/new/broker/broker_service.go:95-101 | the flag value of a configured publish event; otherwise the Config.PublishEvents panic |
| Broker.BrokerService.GetSubToken | pkg/mod/gitlab.sendo.vn/core/golang-sdk@v2.2.1+incompatible/new/broker/broker_service.go:103-109 | the flag value of a configured subscribe event; otherwise the Config.SubscribeEvents panic |
| Broker.BrokerService.Publish | pkg/mod/gitlab.sendo.vn/core/golang-sdk@v2.2.1+incompatible/new/broker/broker_client.go:69-88 | a disabled broker answers "Broker is not connected"; otherwise the reply returned is the answer to a request carrying the event, token, data and the delay as a Duration, as the pub/sub client sends it |
| Broker.BrokerService.Subscribe | pkg/mod/gitlab.sendo.vn/core/golang-sdk@v2.2.1+incompatible/new/broker/broker_client.go:90-140 | a disabled broker refuses with the stream untouched; otherwise a failure to open or to send the option is returned with the stream untouched, the subscription fails exactly when the stream ends within the wait with nothing delivered (with the stream's stop reason), and otherwise every delivered message comes back, fresh, with tags 1, 2, … on that stream, none acked yet, each carrying the delivered payload |
| WorkerPool.NewPoolError | pkg/mod/gitlab.sendo.vn/core/golang-sdk@v2.2.1+incompatible/new/util/worker-pool/worker_pool.go:23-26 | a pool is refused, with its one message, exactly when the concurrency or the queue size is below 1 |
| WorkerPool.WorkerIds | pkg/mod/gitlab.sendo.vn/core/golang-sdk@v2.2.1+incompatible/new/util/worker-pool/worker_pool.go:57-61 | Start numbers its workers 1 to maxConcurrent, in order |
| WorkerPool.StopSignals | pkg/mod/gitlab.sendo.vn/core/golang-sdk@v2.2.1+incompatible/new/util/worker-pool/worker_pool.go:49-51 | one stop per listed worker, in list order |
| WorkerPool.Pool.constructor | pkg/mod/gitlab.sendo.vn/core/golang-sdk@v2.2.1+incompatible/new/util/worker-pool/worker_pool.go:23-38 | a valid pool has its bounds, no workers, an empty queue, no Done channel and isCleared false |
| WorkerPool.Pool.Start | pkg/mod/gitlab.sendo.vn/core/golang-sdk@v2.2.1+incompatible/new/util/worker-pool/worker_pool.go:56-88 | workers 1..maxConcurrent are appended and the monitor runs; the pool stays valid |
| WorkerPool.Pool.Stop | pkg/mod/gitlab.sendo.vn/core/golang-sdk@v2.2.1+incompatible/new/util/worker-pool/worker_pool.go:48-54 | every worker is told to stop, in order, the list is emptied, then the monitor is told to stop; with no monitor the last send blocks |
| WorkerPool.Pool.AddTask | pkg/mod/gitlab.sendo.vn/core/golang-sdk@v2.2.1+incompatible/new/util/worker-pool/worker_pool.go:90-95 | isCleared is reset, so the finished signal may fire again, and the task waits to be queued |
| WorkerPool.Pool.Done | pkg/mod/gitlab.sendo.vn/core/golang-sdk@v2.2.1+incompatible/new/util/worker-pool/worker_pool.go:97-101 | a fresh channel, never signalled before, becomes the finished channel |
| WorkerPool.Pool.Enqueue | pkg/mod/gitlab.sendo.vn/core/golang-sdk@v2.2.1+incompatible/new/util/worker-pool/worker_pool.go:92-94 | the oldest pending send enters the queue only when the queue has room; the queue never exceeds its capacity |
| WorkerPool.Pool.WorkerTakes | pkg/mod/gitlab.sendo.vn/core/golang-sdk@v2.2.1+incompatible/new/util/worker-pool/worker_pool.go:60 | a worker takes the oldest queued task, if any |
| WorkerPool.Pool.WorkerDone | pkg/mod/gitlab.sendo.vn/core/golang-sdk@v2.2.1+incompatible/new/util/worker-pool/worker_pool.go:66-78 | the finished channel is signalled when the queue is empty, a Done channel exists and isCleared was not set; so at most once between two AddTask calls |
| SqlService.WithDefaults | pkg/mod/gitlab.sendo.vn/core/golang-sdk@v2.2.1+incompatible/ssql/sql.go:52-61 | an unset connection lifetime becomes 120 seconds, a set one is kept, and nothing but that field changes |
| SqlService.Driver | pkg/mod/gitlab.sendo.vn/core/golang-sdk@v2.2.1+incompatible/ssql/sql.go:139-141 | the driver is a prefix of the URI without "://", and is shorter than the URI exactly when the URI contains "://" |
| SqlService.DataSource | pkg/mod/gitlab.sendo.vn/core/golang-sdk@v2.2.1+incompatible/ssql/sql.go:91-103 | the URI is the driver, "://" and the data source |
| SqlService.DriverOfJoined | pkg/mod/gitlab.sendo.vn/core/golang-sdk@v2.2.1+incompatible/ssql/sql.go:91-141 | a driver without "://" joined to any data source splits back into the same two parts |
| SqlService.UriError | pkg/mod/gitlab.sendo.vn/core/golang-sdk@v2.2.1+incompatible/ssql/sql.go:85-96 | the URI is accepted exactly when it is non-empty and contains "://"; the two errors carry the flag prefix and, for the second, the URI |
| SqlService.SqlServiceImpl.constructor | pkg/mod/gitlab.sendo.vn/core/golang-sdk@v2.2.1+incompatible/ssql/sql.go:52-61 | the service holds its configuration with defaults applied and no connection |
| SqlService.SqlServiceImpl.Embedded | pkg/mod/gitlab.sendo.vn/core/golang-sdk@v2.2.1+incompatible/ssql/manager.go:183-193 | an embedded service with the given URI and pool settings, and no connection |
| SqlService.SqlServiceImpl.InitFlags | pkg/mod/gitlab.sendo.vn/core/golang-sdk@v2.2.1+incompatible/ssql/sql.go:70-80 | each setting is its flag's value or, when absent, the configured default |
| SqlService.SqlServiceImpl.Configure | pkg/mod/gitlab.sendo.vn/core/golang-sdk@v2.2.1+incompatible/ssql/sql.go:82-126 | a bad URI is refused before any connection with the connection left alone; a failed open or ping is returned; only a connection that answered is kept |
| SqlService.SqlServiceImpl.Cleanup | pkg/mod/gitlab.sendo.vn/core/golang-sdk@v2.2.1+incompatible/ssql/sql.go:128-133 | an open connection is closed once and forgotten; nothing happens without one |
| SqlService.SqlServiceImpl.DriverName | pkg/mod/gitlab.sendo.vn/core/golang-sdk@v2.2.1+incompatible/ssql/sql.go:139-141 | the driver named before the URI's first "://" |
| SqlService.ConfiguredDriver | pkg/mod/gitlab.sendo.vn/core/golang-sdk@v2.2.1+incompatible/ssql/sql.go:85-141 | a URI "driver://source" passes Configure's check and names that driver |
| SqlManager.DefaultTemplateUri | pkg/mod/gitlab.sendo.vn/core/golang-sdk@v2.2.1+incompatible/ssql/manager.go:171-181 | with the default template and a user, password and host free of '_', each placeholder is replaced by its value and the database name appears only when one is wanted (with lines 108-110 of the same file) |
| SqlManager.DefaultTemplateDriver | pkg/mod/gitlab.sendo.vn/core/golang-sdk@v2.2.1+incompatible/ssql/manager.go:171-181 | a service built from the default template uses the mysql driver, so the database check always runs (with lines 108-110, 148 of the same file) |
| SqlManager.ConfigText | pkg/mod/gitlab.sendo.vn/core/golang-sdk@v2.2.1+incompatible/ssql/manager.go:85-103 | a non-empty config string wins without reading the file; otherwise the file's text, a missing file reported under the default name, or the read error |
| SqlManager.CheckAndCreate | pkg/mod/gitlab.sendo.vn/core/golang-sdk@v2.2.1+incompatible/ssql/manager.go:197-218 | nothing for sqlite3 or an existing database; a failed lookup is returned; a missing database is created, a failed creation reported as a permission error naming it |
| SqlManager.InsertByIdSorted | pkg/mod/gitlab.sendo.vn/core/golang-sdk@v2.2.1+incompatible/ssql/manager.go:246-267 | inserting an info with a new id into a listing sorted by id keeps it sorted and adds exactly that entry |
| SqlManager.SortedUnique | pkg/mod/gitlab.sendo.vn/core/golang-sdk@v2.2.1+incompatible/ssql/manager.go:246-267 | two id-sorted listings with the same entries are equal |
| SqlManager.SqlManagerImpl.constructor | pkg/mod/gitlab.sendo.vn/core/golang-sdk@v2.2.1+incompatible/ssql/manager.go:63-68 | the manager keeps its configuration and holds no pools |
| SqlManager.SqlManagerImpl.InitFlags | pkg/mod/gitlab.sendo.vn/core/golang-sdk@v2.2.1+incompatible/ssql/manager.go:77-83 | the default config file becomes "sqlman.yaml" when unset; the file flag defaults to it and the string flag to "" |
| SqlManager.SqlManagerImpl.LoadConfig | pkg/mod/gitlab.sendo.vn/core/golang-sdk@v2.2.1+incompatible/ssql/manager.go:85-103 | the config text's error, then the decoder's, then the member parse's is returned; on success the members are the parsed ones with the decoded user and password |
| SqlManager.SqlManagerImpl.CreateSqlService | pkg/mod/gitlab.sendo.vn/core/golang-sdk@v2.2.1+incompatible/ssql/manager.go:171-194 | a fresh embedded service whose URI is the template filled in for the member's first server and first id, with the configured pool settings |
| SqlManager.SqlManagerImpl.OpenMember | pkg/mod/gitlab.sendo.vn/core/golang-sdk@v2.2.1+incompatible/ssql/manager.go:130-163 | the error is the member's open failure: connecting without a database, the database check or creation, or reconnecting on it; the info carries the member's first id, its name for that id, its description and whether that id is exhausted, over a fresh service connected when there is no error, whose URI is the template filled in with the configured user and password, the member's first server and that name, without the database for a sqlite3 URI and with it otherwise |
| SqlManager.SqlManagerImpl.OpenPool | pkg/mod/gitlab.sendo.vn/core/golang-sdk@v2.2.1+incompatible/ssql/manager.go:130-161 | the error is the first of: connecting without a database, then, unless the driver is sqlite3, checking or creating the database, then reconnecting on it; with no error the service is fresh and connected, and its URI is the template filled in for the user, password, host and database name, the database left out exactly when the URI without it names sqlite3 |
| SqlManager.SqlManagerImpl.ConnectService | pkg/mod/gitlab.sendo.vn/core/golang-sdk@v2.2.1+incompatible/ssql/manager.go:131-135 | a fresh service on the URI for the member's first server and id, with or without the database name; the error is the connection's, which an empty or scheme-less URI always gives |
| SqlManager.SqlManagerImpl.Configure | pkg/mod/gitlab.sendo.vn/core/golang-sdk@v2.2.1+incompatible/ssql/manager.go:105-169 | the default template when unset; the first of the config text's, the decoder's, the member parse's and the expansion's errors is returned with the pools untouched; otherwise the configuration held has the decoded user and password and exactly the expanded parsed members, one server each, the members are opened in order until the first failure, the error is exactly that member's (none when every member opens), and the pools hold exactly the infos of the members opened before it under their first ids, each over a connected service |
| SqlManager.SqlManagerImpl.LoadExpanded | pkg/mod/gitlab.sendo.vn/core/golang-sdk@v2.2.1+incompatible/ssql/manager.go:112-122 | the error is the first of the config text's, the decoder's, the member parse's and the expansion's; without one a fresh configuration holds the decoded user and password and exactly the expansion of the parsed members, each with one server and an id |
| SqlManager.SqlManagerImpl.Install | pkg/mod/gitlab.sendo.vn/core/golang-sdk@v2.2.1+incompatible/ssql/manager.go:113-166 | a load or expansion error is returned with the pools untouched; otherwise the configuration installed is the one given, its members unchanged, and they are opened and filed as FillPools states |
| SqlManager.SqlManagerImpl.FillPools | pkg/mod/gitlab.sendo.vn/core/golang-sdk@v2.2.1+incompatible/ssql/manager.go:127-166 | a fresh map; the members are opened in order until the first fails; the error is that member's failure, and there is one exactly when some member fails to open; the map holds exactly the infos (id, name, description, exhausted flag) of the members opened before, under their first ids, each over a connected service |
| SqlManager.SqlManagerImpl.FileNext | pkg/mod/gitlab.sendo.vn/core/golang-sdk@v2.2.1+incompatible/ssql/manager.go:130-165 | one more member is opened; its info is filed under its first id exactly when it opened, and nothing else is filed |
| SqlManager.SqlManagerImpl.DB | pkg/mod/gitlab.sendo.vn/core/golang-sdk@v2.2.1+incompatible/ssql/manager.go:230-236 | the connection of the service under the id, or DatabaseIDNotFound exactly when the id is not filed |
| SqlManager.SqlManagerImpl.DriverName | pkg/mod/gitlab.sendo.vn/core/golang-sdk@v2.2.1+incompatible/ssql/manager.go:238-244 | the driver of the service under the id, or DatabaseIDNotFound exactly when the id is not filed |
| SqlManager.SqlManagerImpl.Cleanup | pkg/mod/gitlab.sendo.vn/core/golang-sdk@v2.2.1+incompatible/ssql/manager.go:220-228 | every held service is cleaned up, leaving no connection open, and the map is dropped |
| SqlManager.SqlManagerImpl.GetAllDatabaseInfo | pkg/mod/gitlab.sendo.vn/core/golang-sdk@v2.2.1+incompatible/ssql/manager.go:260-269 | every filed info exactly once, sorted by ascending id |
| SqlManager.ExpandConfig | pkg/mod/gitlab.sendo.vn/core/golang-sdk@v2.2.1+incompatible/ssql/manager.go:119-122 | an expansion error is returned as text; on success the members are exactly the expansion of the old ones, each well formed with one server and at least one id |
| SqlManager.ListingDetermined | pkg/mod/gitlab.sendo.vn/core/golang-sdk@v2.2.1+incompatible/ssql/manager.go:260-269 | the listing depends only on the pools, not on the map's iteration order |
| SqlManagerConfig.ListContains | pkg/mod/gitlab.sendo.vn/core/golang-sdk@v2.2.1+incompatible/ssql/manager_config.go:22-29 | true exactly when the id is in the list |
| SqlManagerConfig.ListIsSubset | pkg/mod/gitlab.sendo.vn/core/golang-sdk@v2.2.1+incompatible/ssql/manager_config.go:31-38 | true exactly when every element of the first list is in the second |
| SqlManagerConfig.ExpandRange | pkg/mod/gitlab.sendo.vn/core/golang-sdk@v2.2.1+incompatible/ssql/manager_config.go:40-62 | the part's ids, a single number or every id from begin to end (none when end < begin), are appended to the list; a side that is not a uint64 is the error |
| SqlManagerConfig.ParseListDatabaseID | pkg/mod/gitlab.sendo.vn/core/golang-sdk@v2.2.1+incompatible/ssql/manager_config.go:64-78 | the loop computes ParseList: "all" in any letter case, or the ids of the comma-separated parts in order, skipping empty parts, the first bad part being the error |
| SqlManagerConfig.PartsIdsErrSticks | pkg/mod/gitlab.sendo.vn/core/golang-sdk@v2.2.1+incompatible/ssql/manager_config.go:72-75 | once a part fails, later parts cannot change the error |
| SqlManagerConfig.ParseListAllIff | pkg/mod/gitlab.sendo.vn/core/golang-sdk@v2.2.1+incompatible/ssql/manager_config.go:65-67 | a text means "all" exactly when it is those three letters in any case |
| SqlManagerConfig.RangeIdsOfNumber | pkg/mod/gitlab.sendo.vn/core/golang-sdk@v2.2.1+incompatible/ssql/manager_config.go:41-51 | a decimal id alone stands for that id |
| SqlManagerConfig.RangeIdsOfRange | pkg/mod/gitlab.sendo.vn/core/golang-sdk@v2.2.1+incompatible/ssql/manager_config.go:52-59 | "a-b" in decimal stands for a, a + 1, …, b |
| SqlManagerConfig.RangeIdsNonNumeric | pkg/mod/gitlab.sendo.vn/core/golang-sdk@v2.2.1+incompatible/ssql/manager_config.go:44-47 | a part that does not start with a digit is an error |
| SqlManagerConfig.ParseFormatList | pkg/mod/gitlab.sendo.vn/core/golang-sdk@v2.2.1+incompatible/ssql/manager_config.go:64-78 | printing ids in decimal joined by commas and parsing the text back gives the same ids in order |
| SqlManagerConfig.DBNameOneVerb | pkg/mod/gitlab.sendo.vn/core/golang-sdk@v2.2.1+incompatible/ssql/manager_config.go:174-180 | a name with one "%d" gets the id in decimal at that place |
| SqlManagerConfig.DBNamesDistinct | pkg/mod/gitlab.sendo.vn/core/golang-sdk@v2.2.1+incompatible/ssql/manager_config.go:98-180 | with one "%d" in the name, different ids get different database names |
| SqlManagerConfig.ParseMemberOk | pkg/mod/gitlab.sendo.vn/core/golang-sdk@v2.2.1+incompatible/ssql/manager_config.go:129-164 | parse succeeds exactly when the DB range is a non-empty id list, the exhausted range is "all" or a subset of it and there is exactly one server, and then leaves a well-formed member |
| SqlManagerConfig.ParseMemberErrors | pkg/mod/gitlab.sendo.vn/core/golang-sdk@v2.2.1+incompatible/ssql/manager_config.go:135-163 | the error for each broken rule, in the order parse checks them |
| SqlManagerConfig.ParseMemberAgain | pkg/mod/gitlab.sendo.vn/core/golang-sdk@v2.2.1+incompatible/ssql/manager_config.go:129-164 | parsing an already parsed member succeeds and changes nothing |
| SqlManagerConfig.Member.constructor | pkg/mod/gitlab.sendo.vn/core/golang-sdk@v2.2.1+incompatible/ssql/manager_config.go:117-127 | a member with exactly the given fields |
| SqlManagerConfig.Member.Parse | pkg/mod/gitlab.sendo.vn/core/golang-sdk@v2.2.1+incompatible/ssql/manager_config.go:129-164 | the member's error and parsed lists are those of ParseMember, assigned in place as parsing goes |
| SqlManagerConfig.Member.GetDBName | pkg/mod/gitlab.sendo.vn/core/golang-sdk@v2.2.1+incompatible/ssql/manager_config.go:174-180 | a name without '%' is returned as is; otherwise it is formatted with the id |
| SqlManagerConfig.DatabasesConfig.constructor | pkg/mod/gitlab.sendo.vn/core/golang-sdk@v2.2.1+incompatible/ssql/manager_config.go:80-89 | the configuration holds the decoded fields and members |
| SqlManagerConfig.DatabasesConfig.ExpandMembers | pkg/mod/gitlab.sendo.vn/core/golang-sdk@v2.2.1+incompatible/ssql/manager_config.go:92-115 | the members become, in order, one parsed copy per id of each member; on the first copy that fails to parse its error is returned and the members are left unchanged |
| SqlManagerConfig.CopyMember | pkg/mod/gitlab.sendo.vn/core/golang-sdk@v2.2.1+incompatible/ssql/manager_config.go:97-109 | a fresh copy of the member for one id, renamed and re-ranged for that id, then parsed |
| SqlManagerConfig.ExpandMember | pkg/mod/gitlab.sendo.vn/core/golang-sdk@v2.2.1+incompatible/ssql/manager_config.go:95-110 | the parsed copies of one member for each of its ids, in order, or the first copy's error |
| SqlManagerConfig.CopyForParses | pkg/mod/gitlab.sendo.vn/core/golang-sdk@v2.2.1+incompatible/ssql/manager_config.go:97-105 | the copy of a member with one server for a uint64 id parses, holds just that id, and is exhausted exactly when the id was |
| SqlManagerConfig.ExpandIdsOneEach | pkg/mod/gitlab.sendo.vn/core/golang-sdk@v2.2.1+incompatible/ssql/manager_config.go:96-110 | a member with one server expands into one single-id copy per id, in order |
| SqlManagerConfig.ExpandAllOneEach | pkg/mod/gitlab.sendo.vn/core/golang-sdk@v2.2.1+incompatible/ssql/manager_config.go:92-115 | expanding parsed members succeeds and gives one single-id member per id overall |
| SqlManagerConfig.ParsedMembersExpand | pkg/mod/gitlab.sendo.vn/core/golang-sdk@v2.2.1+incompatible/ssql/manager_config.go:182-195 | every configuration that loaded can be expanded (with lines 92-115 of the same file) |
| SqlManagerConfig.ParseAllWellFormed | pkg/mod/gitlab.sendo.vn/core/golang-sdk@v2.2.1+incompatible/ssql/manager_config.go:189-193 | every member of a loaded configuration is well formed, with one server and uint64 ids |
| SqlManagerConfig.ExpandAllWellFormed | pkg/mod/gitlab.sendo.vn/core/golang-sdk@v2.2.1+incompatible/ssql/manager_config.go:105-109 | every member expansion leaves behind is well formed |
| SqlManagerConfig.NewMembers | pkg/mod/gitlab.sendo.vn/core/golang-sdk@v2.2.1+incompatible/ssql/manager_config.go:184 | decoding gives one distinct new member per entry, with its fields |
| SqlManagerConfig.ParseMembers | pkg/mod/gitlab.sendo.vn/core/golang-sdk@v2.2.1+incompatible/ssql/manager_config.go:189-193 | the members are parsed in order; the first failure is the error; on success each holds its parse |
| SqlManagerConfig.LoadSqlManagerConfig | pkg/mod/gitlab.sendo.vn/core/golang-sdk@v2.2.1+incompatible/ssql/manager_config.go:182-196 | a decoding error is returned as is; otherwise the configuration loads exactly when every member parses, and its members are the parsed ones |
| NetAddr.BracketHost | pkg/mod/gitlab.sendo.vn/core/golang-sdk@v2.2.1+incompatible/sgrpc/grpc.go:174-176 | a host holding ':' and no '[' is put in brackets, any other host is kept |
| NetAddr.SplitFormatBindAddr | pkg/mod/gitlab.sendo.vn/core/golang-sdk@v2.2.1+incompatible/sgrpc/grpc.go:173-178 | the listen address written for a host without brackets splits back, as net.SplitHostPort reads it, into that host and the port in decimal (the same function is sgin/gin.go:151-156) |
| GrpcUtil.FirstDisagreeing | pkg/mod/gitlab.sendo.vn/core/golang-sdk@v2.2.1+incompatible/sgrpc/util.go:37-41 | the first later key that does not agree with the first key at the position; all before it do |
| GrpcUtil.FindCommonPrefix | pkg/mod/gitlab.sendo.vn/core/golang-sdk@v2.2.1+incompatible/sgrpc/util.go:26-46 | -1 for no key, the length of the only key for one, otherwise the last position up to which every key agrees with the first (with the length check the source omits) |
| GrpcUtil.FindCommonPrefixAsWritten | pkg/mod/gitlab.sendo.vn/core/golang-sdk@v2.2.1+incompatible/sgrpc/util.go:26-46 | the same position, together with whether the code as written indexes a key past its end |
| GrpcUtil.IsLastCommonUnique | pkg/mod/gitlab.sendo.vn/core/golang-sdk@v2.2.1+incompatible/sgrpc/util.go:35-43 | the position the scan stops at is unique |
| GrpcUtil.LastCommonIsPrefix | pkg/mod/gitlab.sendo.vn/core/golang-sdk@v2.2.1+incompatible/sgrpc/util.go:35-43 | the first key's first r + 1 characters start every key, and the next character of the first key is missing from some key |
| GrpcUtil.ShorterKeyPanics | pkg/mod/gitlab.sendo.vn/core/golang-sdk@v2.2.1+incompatible/sgrpc/util.go:37-38 | a second key that is a shorter start of the first makes the code as written read past its end |
| GrpcUtil.ShorterKeyExample | pkg/mod/gitlab.sendo.vn/core/golang-sdk@v2.2.1+incompatible/sgrpc/util.go:37-38 | the keys "ab" and "a" stop at position 0 and panic at position 1 |
| GrpcUtil.CorrectedCoversPanic | pkg/mod/gitlab.sendo.vn/core/golang-sdk@v2.2.1+incompatible/sgrpc/util.go:35-43 | where the code as written would panic, the corrected scan has stopped at the end of a key |
| GrpcUtil.LastCommonShares | pkg/mod/gitlab.sendo.vn/core/golang-sdk@v2.2.1+incompatible/sgrpc/util.go:26-46 | the position marks the longest start shared by every key |
| GrpcUtil.ShareReordered | pkg/mod/gitlab.sendo.vn/core/golang-sdk@v2.2.1+incompatible/sgrpc/util.go:26-46 | a shared start stays shared whatever order the keys come in |
| GrpcUtil.LastCommonOrderFree | pkg/mod/gitlab.sendo.vn/core/golang-sdk@v2.2.1+incompatible/sgrpc/grpc.go:304-306 | the keys come from a map in no set order: every order gives the same position and shared start |
| GrpcServer.New | pkg/mod/gitlab.sendo.vn/core/golang-sdk@v2.2.1+incompatible/sgrpc/grpc.go:91-117 | a missing service name, a missing app, and an app that is not an SdkApplication (the type assertion's panic) each fail with their own error, and only they fail; otherwise a zero port becomes 10000 and a zero timeout three seconds, set values are kept and nothing else changes |
| GrpcServer.NewDefaults | pkg/mod/gitlab.sendo.vn/core/golang-sdk@v2.2.1+incompatible/sgrpc/grpc.go:99-105 | an unset port and timeout become 10000 and three seconds |
| GrpcServer.Suffixes | pkg/mod/gitlab.sendo.vn/core/golang-sdk@v2.2.1+incompatible/sgrpc/grpc.go:316-318 | one quoted remainder per key, in the keys' order |
| GrpcServer.SuffixesReordered | pkg/mod/gitlab.sendo.vn/core/golang-sdk@v2.2.1+incompatible/sgrpc/grpc.go:304-318 | the remainders do not depend on the order of the keys |
| GrpcServer.RouteRegexOrderFree | pkg/mod/gitlab.sendo.vn/core/golang-sdk@v2.2.1+incompatible/sgrpc/grpc.go:304-320 | the route regex is the same for every order the map gives the service names in |
| GrpcServer.SortedReordered | pkg/mod/gitlab.sendo.vn/core/golang-sdk@v2.2.1+incompatible/sgrpc/grpc.go:319 | sorting forgets the order: reorderings sort alike |
| GrpcServer.RouteRegexCoversNames | pkg/mod/gitlab.sendo.vn/core/golang-sdk@v2.2.1+incompatible/sgrpc/grpc.go:313-320 | every service name is the shared start followed by a remainder that the regex lists as an alternative |
| GrpcServer.FixSvcConfig | pkg/mod/gitlab.sendo.vn/core/golang-sdk@v2.2.1+incompatible/sgrpc/grpc.go:290-321 | the name and "grpc" are always set; an existing prefix or regex is kept; otherwise no service is fatal, one gives "/name/", several give the regex of the shared start and the sorted quoted remainders |
| GrpcServer.QuoteRemainders | pkg/mod/gitlab.sendo.vn/core/golang-sdk@v2.2.1+incompatible/sgrpc/grpc.go:316-318 | the loop rewrites each key to its quoted remainder after the shared start |
| GinServer.New | pkg/mod/gitlab.sendo.vn/core/golang-sdk@v2.2.1+incompatible/sgin/gin.go:86-109 | a missing service name is refused; an App that is not an SdkApplication gives the type assertion's panic; otherwise a zero port becomes 3000 and a zero timeout three seconds, set values are kept and nothing else changes |
| GinServer.NewDefaults | pkg/mod/gitlab.sendo.vn/core/golang-sdk@v2.2.1+incompatible/sgin/gin.go:91-97 | an unset port and timeout become 3000 and three seconds |
| GinServer.WordLen | pkg/mod/gitlab.sendo.vn/core/golang-sdk@v2.2.1+incompatible/sgin/gin.go:248 | the greedy run of word characters \w+ matches at the start of the text |
| GinServer.ReplaceParamsNone | pkg/mod/gitlab.sendo.vn/core/golang-sdk@v2.2.1+incompatible/sgin/gin.go:254 | text without ':' has no named parameter to replace |
| GinServer.ReplaceWildcardsNone | pkg/mod/gitlab.sendo.vn/core/golang-sdk@v2.2.1+incompatible/sgin/gin.go:255 | text without a quoted '*' has no catch-all to replace |
| GinServer.QuoteMetaAdds | pkg/mod/gitlab.sendo.vn/core/golang-sdk@v2.2.1+incompatible/sgin/gin.go:253 | quoting adds only backslashes |
| GinServer.RoutePatternPlain | pkg/mod/gitlab.sendo.vn/core/golang-sdk@v2.2.1+incompatible/sgin/gin.go:253-255 | a path without parameters is routed as its quoted text |
| GinServer.RouteParamExample | pkg/mod/gitlab.sendo.vn/core/golang-sdk@v2.2.1+incompatible/sgin/gin.go:248-254 | the named parameter ":id" becomes "[^/]*", one path segment |
| GinServer.RouteWildcardExample | pkg/mod/gitlab.sendo.vn/core/golang-sdk@v2.2.1+incompatible/sgin/gin.go:249-255 | the catch-all "/*f" becomes ".*", anything |
| GinServer.RoutePatterns | pkg/mod/gitlab.sendo.vn/core/golang-sdk@v2.2.1+incompatible/sgin/gin.go:252-257 | one route pattern per registered path, in order |
| GinServer.BarsJoin | pkg/mod/gitlab.sendo.vn/core/golang-sdk@v2.2.1+incompatible/sgin/gin.go:265-272 | prefixing each alternative with "|" and dropping the first bar is joining with "|" |
| GinServer.AlternationSpec | pkg/mod/gitlab.sendo.vn/core/golang-sdk@v2.2.1+incompatible/sgin/gin.go:263-272 | the alternatives are the routes, each once, in strictly increasing order |
| GinServer.AlternationOrderFree | pkg/mod/gitlab.sendo.vn/core/golang-sdk@v2.2.1+incompatible/sgin/gin.go:263-272 | the regex does not depend on the order the router lists the routes in |
| GinServer.CollectRoutes | pkg/mod/gitlab.sendo.vn/core/golang-sdk@v2.2.1+incompatible/sgin/gin.go:251-257 | the loop turns each path into its route pattern |
| GinServer.JoinDistinct | pkg/mod/gitlab.sendo.vn/core/golang-sdk@v2.2.1+incompatible/sgin/gin.go:265-272 | the loop over the sorted routes skips repeats and builds the parenthesised alternation |
| GinServer.FixSvcConfig | pkg/mod/gitlab.sendo.vn/core/golang-sdk@v2.2.1+incompatible/sgin/gin.go:236-275 | the name is always set and the protocol becomes "http2" when unset and both TLS files are given; an existing prefix or regex is kept; otherwise no route is fatal, one gives its pattern as the prefix, several give the alternation as the regex |
| ConsulAgent.ServiceIdSplit | pkg/mod/gitlab.sendo.vn/core/golang-sdk@v2.2.1+incompatible/ssd/sd_consul.go:216-218 | the default ID "prefix_name_port" splits on '_' back into the prefix, the name and the decimal port when neither prefix nor name holds '_' |
| ConsulAgent.ConfigTagsJoin | pkg/mod/gitlab.sendo.vn/core/golang-sdk@v2.2.1+incompatible/ssd/sd_consul.go:224-231 | tags that are non-empty, trimmed and free of commas, joined with ",", are read back from the flag as exactly themselves |
| ConsulAgent.ConfigTagsBlank | pkg/mod/gitlab.sendo.vn/core/golang-sdk@v2.2.1+incompatible/ssd/sd_consul.go:224-231 | a flag made only of blanks and commas adds no tag |
| ConsulAgent.BuildTags | pkg/mod/gitlab.sendo.vn/core/golang-sdk@v2.2.1+incompatible/ssd/sd_consul.go:233-240 | no build information gives no tag, and at most two tags (the date, then branch_revision7) are added |
| ConsulAgent.AppendConfigTags | pkg/mod/gitlab.sendo.vn/core/golang-sdk@v2.2.1+incompatible/ssd/sd_consul.go:224-231 | the tags after the loop are the ones before it followed by the configured tags, in order |
| ConsulAgent.KeptTags | pkg/mod/gitlab.sendo.vn/core/golang-sdk@v2.2.1+incompatible/ssd/sd_consul.go:225-231 | the loop keeps each comma-separated piece, trimmed, unless it is empty, in order |
| ConsulAgent.Normalize | pkg/mod/gitlab.sendo.vn/core/golang-sdk@v2.2.1+incompatible/ssd/sd_consul.go:215-241 | an empty ID becomes prefix_name_port, an empty address becomes the service IP when one is set, the configured then build tags are appended, nothing else changes, and the ID is never empty afterwards |
| ConsulAgent.NormalizeKeepsId | pkg/mod/gitlab.sendo.vn/core/golang-sdk@v2.2.1+incompatible/new/registry/consul.go:233-259 | normalising a normalised registration keeps its ID and address and only appends the tags again |
| ConsulAgent.CheckIp | pkg/mod/gitlab.sendo.vn/core/golang-sdk@v2.2.1+incompatible/ssd/sd_consul.go:286-297 | the check IP is the local address, bracketed exactly when it holds ':' |
| ConsulSd.ConfigKeyInjective | pkg/mod/gitlab.sendo.vn/core/golang-sdk@v2.2.1+incompatible/ssd/sd_consul.go:316-319 | different service names are written under different keys service-configs/<name>/default |
| ConsulSd.ConsulService.constructor | pkg/mod/gitlab.sendo.vn/core/golang-sdk@v2.2.1+incompatible/ssd/sd_consul.go:64-79 | every flag takes its given value or its default ("0", "auto", "", ""), and the service, configuration and store maps start empty |
| ConsulSd.ConsulService.Add | pkg/mod/gitlab.sendo.vn/core/golang-sdk@v2.2.1+incompatible/ssd/sd_consul.go:243-256 | nothing happens when disabled; otherwise the registration is normalised, sent to the agent once, and stored under its ID with the agent's verdict |
| ConsulSd.ConsulService.Remove | pkg/mod/gitlab.sendo.vn/core/golang-sdk@v2.2.1+incompatible/ssd/sd_consul.go:258-272 | an empty ID is ignored; otherwise the ID leaves the map and one deregistration is sent |
| ConsulSd.ConsulService.RemoveAll | pkg/mod/gitlab.sendo.vn/core/golang-sdk@v2.2.1+incompatible/ssd/sd_consul.go:274-284 | the map ends empty and exactly one deregistration is sent per stored service, after the calls made before |
| ConsulSd.ConsulService.UpdateServiceConfig | pkg/mod/gitlab.sendo.vn/core/golang-sdk@v2.2.1+incompatible/ssd/sd_consul.go:303-313 | nothing happens when disabled; otherwise the configuration is stored under its name and written out |
| ConsulSd.ConsulService.WriteServiceConfig | pkg/mod/gitlab.sendo.vn/core/golang-sdk@v2.2.1+incompatible/ssd/sd_consul.go:316-342 | the document is put under the service's key unless a successful read found the same document there; a failed put leaves the store as it was |
| ConsulSd.WriteStoresDocument | pkg/mod/gitlab.sendo.vn/core/golang-sdk@v2.2.1+incompatible/ssd/sd_consul.go:316-342 | after a successful or skipped write the key holds the configuration's document, every other key is unchanged, and writing again puts nothing |
| ConsulSd.WriteKeepsOtherServices | pkg/mod/gitlab.sendo.vn/core/golang-sdk@v2.2.1+incompatible/ssd/sd_consul.go:316-342 | writing one service's configuration leaves another service's document in place |
| Registry.Changes | pkg/mod/gitlab.sendo.vn/core/golang-sdk@v2.2.1+incompatible/new/registry/consul.go:180-209 | the number of changes along a run of reads is at most the number of reads, and none exactly when every read equals the value held |
| Registry.SignalsCountChanges | pkg/mod/gitlab.sendo.vn/core/golang-sdk@v2.2.1+incompatible/new/registry/consul.go:201-206 | with the intended comparison, after the first load, a run of reads signals exactly once per change of the value |
| Registry.SteadyConfiguration | pkg/mod/gitlab.sendo.vn/core/golang-sdk@v2.2.1+incompatible/new/registry/consul.go:202 | for a value that never changes, the comparison as written signals on every read and the intended one never |
| Registry.ChangeMissed | pkg/mod/gitlab.sendo.vn/core/golang-sdk@v2.2.1+incompatible/new/registry/consul.go:202 | a change from [1] to [2] is not signalled as written and is signalled once as intended |
| Registry.Consul.constructor | pkg/mod/gitlab.sendo.vn/core/golang-sdk@v2.2.1+incompatible/new/registry/consul.go:56-76 | the main service name is kept, every flag takes its given value or its default, there is no client, no value held and no signal sent |
| Registry.Consul.IsRunning | pkg/mod/gitlab.sendo.vn/core/golang-sdk@v2.2.1+incompatible/new/registry/consul.go:328-333 | the registry is running exactly when a client has been created |
| Registry.Consul.RegisterService | pkg/mod/gitlab.sendo.vn/core/golang-sdk@v2.2.1+incompatible/new/registry/consul.go:261-275 | when disabled the answer is "" and nothing changes; otherwise the normalised registration is sent once and stored under its ID, which is returned and is never empty |
| Registry.Consul.DeregisterService | pkg/mod/gitlab.sendo.vn/core/golang-sdk@v2.2.1+incompatible/new/registry/consul.go:277-291 | an empty ID is ignored; otherwise the ID leaves the map and one deregistration is sent |
| Registry.Consul.RemoveAll | pkg/mod/gitlab.sendo.vn/core/golang-sdk@v2.2.1+incompatible/new/registry/consul.go:293-303 | the map ends empty and exactly one deregistration is sent per stored service |
| Registry.Consul.FetchKv | pkg/mod/gitlab.sendo.vn/core/golang-sdk@v2.2.1+incompatible/new/registry/consul.go:180-209 | a failed read or a missing key changes nothing; otherwise the value read is held and a signal is sent exactly when it differs from a value held before |
| Registry.Consul.FetchKvAsWritten | pkg/mod/gitlab.sendo.vn/core/golang-sdk@v2.2.1+incompatible/new/registry/consul.go:180-209 | as written, a signal is sent exactly when the value read equals the value held before, and the value read is held |
| GormStorage.GetDbType | pkg/mod/gitlab.sendo.vn/core/golang-sdk@v2.2.1+incompatible/new/storage/gorm.go:111-124 | the type is always one of MySQL to NotSupported |
| GormStorage.GetDbTypeSpec | pkg/mod/gitlab.sendo.vn/core/golang-sdk@v2.2.1+incompatible/new/storage/gorm.go:111-124 | a text maps to a supported type exactly when its lower-cased form is that type's name |
| GormStorage.GetDbTypeOther | pkg/mod/gitlab.sendo.vn/core/golang-sdk@v2.2.1+incompatible/new/storage/gorm.go:111-124 | a text whose lower-cased form is none of the four names is not supported |
| GormStorage.GetDbTypeCase | pkg/mod/gitlab.sendo.vn/core/golang-sdk@v2.2.1+incompatible/new/storage/gorm.go:111-124 | letter case does not change the type |
| GormStorage.GetDbTypeName | pkg/mod/gitlab.sendo.vn/core/golang-sdk@v2.2.1+incompatible/new/storage/gorm.go:14-20 | each supported type's name maps back to that type |
| GormStorage.FlagNameInjective | pkg/mod/gitlab.sendo.vn/core/golang-sdk@v2.2.1+incompatible/new/storage/gorm.go:55-63 | stores with different prefixes get different flag names |
| GormStorage.GormDb.constructor | pkg/mod/gitlab.sendo.vn/core/golang-sdk@v2.2.1+incompatible/new/storage/gorm.go:36-45 | a new store has its name and prefix, no URI or type, no handle, and is not running |
| GormStorage.GormDb.InitFlags | pkg/mod/gitlab.sendo.vn/core/golang-sdk@v2.2.1+incompatible/new/storage/gorm.go:55-63 | the URI and type come from the prefixed gorm-db-uri and gorm-db-type flags, "" when absent |
| GormStorage.GormDb.Configure | pkg/mod/gitlab.sendo.vn/core/golang-sdk@v2.2.1+incompatible/new/storage/gorm.go:69-90 | nothing happens when disabled or already running; an unsupported type is refused without connecting; otherwise the handle is kept and the store runs exactly when connecting succeeded |
| GormStorage.GormDb.Stop | pkg/mod/gitlab.sendo.vn/core/golang-sdk@v2.2.1+incompatible/new/storage/gorm.go:96-105 | the store no longer runs, and the handle is closed once if there is one |
| StoragePrefix.FromPrefix | pkg/mod/gitlab.sendo.vn/core/golang-sdk@v2.2.1+incompatible/new/storage/storage.go:53-72 | the answer is the client of the first database with the prefix and a listed driver type; otherwise the "could not found DB with prefix" error, and then no database answers |
| StoragePrefix.FromPrefixFound | pkg/mod/gitlab.sendo.vn/core/golang-sdk@v2.2.1+incompatible/new/storage/storage.go:53-72 | the search succeeds exactly when some database answers |
| StoragePrefix.FromPrefixFirst | pkg/mod/gitlab.sendo.vn/core/golang-sdk@v2.2.1+incompatible/new/storage/storage.go:54-69 | databases registered after the first answer do not change the result |
| StoragePrefix.FromPrefixSkipsOther | pkg/mod/gitlab.sendo.vn/core/golang-sdk@v2.2.1+incompatible/new/storage/storage.go:56-67 | a matching database of an unlisted type is passed over |
| SdmsCli.AcceptsGroups | pkg/mod/gitlab.sendo.vn/core/golang-sdk@v2.2.1+incompatible/sdms-cli/main.go:23 | after the first letter, the pattern accepts exactly letters and digits joined by single '-', not ending in '-' |
| SdmsCli.ValidServiceNameSpec | pkg/mod/gitlab.sendo.vn/core/golang-sdk@v2.2.1+incompatible/sdms-cli/main.go:36-38 | a name is valid exactly when it is a letter followed by such groups |
| SdmsCli.ValidNameExample | pkg/mod/gitlab.sendo.vn/core/golang-sdk@v2.2.1+incompatible/sdms-cli/main.go:23-38 | "note-svc" is a valid service name |
| SdmsCli.InvalidNameExamples | pkg/mod/gitlab.sendo.vn/core/golang-sdk@v2.2.1+incompatible/sdms-cli/main.go:23-38 | "1a", "a--b", "a-" and "" are refused |
| SdmsCli.ParseResources | pkg/mod/gitlab.sendo.vn/core/golang-sdk@v2.2.1+incompatible/sdms-cli/main.go:241-248 | the resource map's keys are exactly the trimmed, non-empty comma-separated names, each mapped to true |
| SdmsCli.DefaultResources | pkg/mod/gitlab.sendo.vn/core/golang-sdk@v2.2.1+incompatible/sdms-cli/main.go:218 | the default resource list names logfile, redis and mgo |
| SdmsCli.Run | pkg/mod/gitlab.sendo.vn/core/golang-sdk@v2.2.1+incompatible/sdms-cli/main.go:207-259 | fewer than two arguments, an unknown command, a missing -s or -p, or an invalid service name exit with status 2; "sdkpath" prints the SDK path; "init" generates from the template (default grpc) with the parsed resources |
| SdmsCli.WrittenTemplates | pkg/mod/gitlab.sendo.vn/core/golang-sdk@v2.2.1+incompatible/sdms-cli/main.go:40-43 | a template is written exactly when its path does not hold ".DS_" |
| NoteErrors.FromCode | pkg/mod/gitlab.sendo.vn/core/golang-sdk@v2.2.1+incompatible/new/examples/note/constant/errors.go:5-12 | an integer names a code exactly when it is 410 to 415, and then the code's value is that integer |
| NoteErrors.CodeRoundTrip | pkg/mod/gitlab.sendo.vn/core/golang-sdk@v2.2.1+incompatible/new/examples/note/constant/errors.go:5-12 | every named code reads back as itself and lies in 410 to 415 |
| NoteErrors.CodeInjective | pkg/mod/gitlab.sendo.vn/core/golang-sdk@v2.2.1+incompatible/new/examples/note/constant/errors.go:5-12 | different names have different codes |
| NoteErrors.String | pkg/mod/gitlab.sendo.vn/core/golang-sdk@v2.2.1+incompatible/new/examples/note/constant/errors.go:14-23 | a message exists exactly for 410 to 415 and is one of the table's messages; any other value would index out of range |
| NoteErrors.Error | pkg/mod/gitlab.sendo.vn/core/golang-sdk@v2.2.1+incompatible/new/examples/note/constant/errors.go:25-27 | Error is String of the code, which exists and is not empty |
| NoteErrors.ErrorInjective | pkg/mod/gitlab.sendo.vn/core/golang-sdk@v2.2.1+incompatible/new/examples/note/constant/errors.go:14-27 | different codes have different messages |
| NoteErrors.ErrorMessages | pkg/mod/gitlab.sendo.vn/core/golang-sdk@v2.2.1+incompatible/new/examples/note/constant/errors.go:14-23 | each code's message is the one the table lists for it |
| NoteRepository.ToInt32 | pkg/mod/gitlab.sendo.vn/core/golang-sdk@v2.2.1+incompatible/new/examples/note/repository/mgo_respository.go:55 | the int32 conversion agrees with its input modulo 2^32 |
| NoteRepository.ToInt32InRange | pkg/mod/gitlab.sendo.vn/core/golang-sdk@v2.2.1+incompatible/new/examples/note/repository/mgo_respository.go:55 | a value int32 can hold converts to itself |
| NoteRepository.Add | pkg/mod/gitlab.sendo.vn/core/golang-sdk@v2.2.1+incompatible/new/examples/note/repository/mgo_respository.go:25-37 | the note gets the random id, in 0 to 2^32-1, and the text; a failed insert gives ERR_NOTE_CANNOT_ADD |
| NoteRepository.ListOffsetExact | pkg/mod/gitlab.sendo.vn/core/golang-sdk@v2.2.1+incompatible/new/examples/note/repository/mgo_respository.go:40 | while (page-1)*limit fits in int32, the offset is the number of notes on the earlier pages |
| NoteRepository.ListOffsetWraps | pkg/mod/gitlab.sendo.vn/core/golang-sdk@v2.2.1+incompatible/new/examples/note/repository/mgo_respository.go:40 | page 65537 of 65536 notes asks for offset 0, because the product wraps around in int32 |
| NoteRepository.List | pkg/mod/gitlab.sendo.vn/core/golang-sdk@v2.2.1+incompatible/new/examples/note/repository/mgo_respository.go:39-56 | a failed count is passed on as it is; otherwise a failed find gives ERR_NOTE_CANNOT_LIST, and success gives the window found and the count converted to int32 |
| NoteRepository.Update | pkg/mod/gitlab.sendo.vn/core/golang-sdk@v2.2.1+incompatible/new/examples/note/repository/mgo_respository.go:58-69 | the update fails exactly when the data layer's update fails, with ERR_NOTE_CANNOT_UPDATE |
| NoteRepository.FindById | pkg/mod/gitlab.sendo.vn/core/golang-sdk@v2.2.1+incompatible/new/examples/note/repository/mgo_respository.go:71-84 | a note is found exactly when the find succeeds and is not empty, and it is the first one found; otherwise ERR_NOTE_NOT_FOUND |
| NoteRepository.Delete | pkg/mod/gitlab.sendo.vn/core/golang-sdk@v2.2.1+incompatible/new/examples/note/repository/mgo_respository.go:86-95 | the delete fails exactly when the data layer's delete fails, with ERR_NOTE_CANNOT_DELETE |
| NoteRepository.MgoErrorsAreCodes | pkg/mod/gitlab.sendo.vn/core/golang-sdk@v2.2.1+incompatible/new/examples/note/repository/repository.go:8-15 | through the Repository interface, every error other than a failed count is the note code of its operation |
| NoteRepository.FindByIdOnMap | pkg/mod/gitlab.sendo.vn/core/golang-sdk@v2.2.1+incompatible/new/examples/note/repository/mgo_respository.go:71-84 | over the in-memory data layer, a note is found exactly when it is stored, with its stored text |
| NoteHandlers.AddHandle | pkg/mod/gitlab.sendo.vn/core/golang-sdk@v2.2.1+incompatible/new/examples/note/handlers/add_handler.go:24-30 | an empty text gives ERR_EMPTY_TEXT without calling the repository; otherwise the repository's Add answers |
| NoteHandlers.ListHandle | pkg/mod/gitlab.sendo.vn/core/golang-sdk@v2.2.1+incompatible/new/examples/note/handlers/list_handler.go:24-45 | the page asked for is 1 of 20 without paging, else the request's; a listing error becomes ERR_NOTE_CANNOT_LIST; success gives the total and the notes |
| NoteHandlers.UpdateHandle | pkg/mod/gitlab.sendo.vn/core/golang-sdk@v2.2.1+incompatible/new/examples/note/handlers/update_handler.go:24-36 | a note not found gives ERR_NOTE_NOT_FOUND and is not updated; a failed update gives ERR_NOTE_CANNOT_UPDATE; success answers the request itself, and succeeds exactly when both calls do |
| NoteHandlers.DeleteHandle | pkg/mod/gitlab.sendo.vn/core/golang-sdk@v2.2.1+incompatible/new/examples/note/handlers/delete_handler.go:24-38 | a note not found gives ERR_NOTE_NOT_FOUND and is not deleted; a failed delete's error is passed on; success answers true, and succeeds exactly when both calls do |
| NoteHandlers.MgoHandlerErrors | pkg/mod/gitlab.sendo.vn/core/golang-sdk@v2.2.1+incompatible/new/examples/note/handlers/add_handler.go:24-30 | over the MongoDB repository, each handler's errors are only its own note codes |
| NoteHandlers.AddOnMap | pkg/mod/gitlab.sendo.vn/core/golang-sdk@v2.2.1+incompatible/new/examples/note/handlers/add_handler.go:24-30 | over the in-memory store, an empty text changes nothing; otherwise the note is stored under its new id and returned |
| NoteHandlers.UpdateOnMap | pkg/mod/gitlab.sendo.vn/core/golang-sdk@v2.2.1+incompatible/new/examples/note/handlers/update_handler.go:24-36 | over the in-memory store, an update succeeds exactly when the note is stored, and then sets its text; otherwise nothing changes |
| NoteHandlers.DeleteOnMap | pkg/mod/gitlab.sendo.vn/core/golang-sdk@v2.2.1+incompatible/new/examples/note/handlers/delete_handler.go:24-38 | over the in-memory store, a delete succeeds exactly when the note is stored, and then removes it; otherwise nothing changes |
| NoteHandlers.UpdateThenFind | pkg/mod/gitlab.sendo.vn/core/golang-sdk@v2.2.1+incompatible/new/examples/note/handlers/update_handler.go:24-36 | after a successful update, finding the note gives back the request |
| NoteHandlers.DeleteThenDeleteAgain | pkg/mod/gitlab.sendo.vn/core/golang-sdk@v2.2.1+incompatible/new/examples/note/handlers/delete_handler.go:24-38 | after a successful delete the note is not found, and deleting it again fails with ERR_NOTE_NOT_FOUND and changes nothing |
| NoteHandlers.ReadsKeepStore | pkg/mod/gitlab.sendo.vn/core/golang-sdk@v2.2.1+incompatible/new/examples/note/repository/repository.go:8-15 | calls that only list or find leave the store as it was |
| NoteRedis.GetPageLimit | pkg/mod/gitlab.sendo.vn/core/golang-sdk@v2.2.1+incompatible/sdms-cli/grpc-skeleton/appsrc/note_service/storage/redis.go:68-86 | the page holds the items from the page's start, at most the page size of them, and none when the start is past the end; a page or limit that is not positive counts as 1 or 10 |
| NoteRedis.PagesCover | pkg/mod/gitlab.sendo.vn/core/golang-sdk@v2.2.1+incompatible/sdms-cli/grpc-skeleton/appsrc/note_service/storage/redis.go:68-86 | reading pages 1 to n in turn reads the first n*limit items, in order, without gaps or repeats |
| NoteRedis.PagePastEnd | pkg/mod/gitlab.sendo.vn/core/golang-sdk@v2.2.1+incompatible/sdms-cli/grpc-skeleton/appsrc/note_service/storage/redis.go:79-84 | a page that starts past the end is empty |
| NoteRedis.PageExamples | pkg/mod/gitlab.sendo.vn/core/golang-sdk@v2.2.1+incompatible/sdms-cli/grpc-skeleton/appsrc/note_service/storage/redis_test.go:52-72 | of four keys two at a time, pages 0 and 1 are the first two, page 2 the last two, and page 3 is empty |
| NoteRedis.PageKeysSpec | pkg/mod/gitlab.sendo.vn/core/golang-sdk@v2.2.1+incompatible/sdms-cli/grpc-skeleton/appsrc/note_service/storage/redis.go:92-97 | the keys read are note keys, in descending order |
| NoteRedis.ReadAll | pkg/mod/gitlab.sendo.vn/core/golang-sdk@v2.2.1+incompatible/sdms-cli/grpc-skeleton/appsrc/note_service/storage/redis.go:99-114 | the notes are read one per key, in order, and the first failed read ends the listing with its error |
| NoteRedis.List | pkg/mod/gitlab.sendo.vn/core/golang-sdk@v2.2.1+incompatible/sdms-cli/grpc-skeleton/appsrc/note_service/storage/redis.go:88-115 | a failed KEYS command is returned; otherwise the page of keys, in descending order, is read one note each |
| NoteRedis.NotifyAll | pkg/mod/gitlab.sendo.vn/core/golang-sdk@v2.2.1+incompatible/sdms-cli/grpc-skeleton/appsrc/note_service/storage/redis.go:143-150 | every cancelled watcher is dropped and its channel closed, every other watcher's channel is sent the event, and no other channel changes |
| NoteRedis.RedisNoteStorage.constructor | pkg/mod/gitlab.sendo.vn/core/golang-sdk@v2.2.1+incompatible/sdms-cli/grpc-skeleton/appsrc/note_service/storage/redis.go:30-36 | a new storage has no watchers |
| NoteRedis.RedisNoteStorage.WatchChanged | pkg/mod/gitlab.sendo.vn/core/golang-sdk@v2.2.1+incompatible/sdms-cli/grpc-skeleton/appsrc/note_service/storage/redis.go:129-137 | a new open channel is made and registered for the context, in place of any earlier one |
| NoteRedis.RedisNoteStorage.NotifyChanged | pkg/mod/gitlab.sendo.vn/core/golang-sdk@v2.2.1+incompatible/sdms-cli/grpc-skeleton/appsrc/note_service/storage/redis.go:139-151 | the watchers are notified as NotifyAll states, and each remaining watcher keeps its own open channel |
| NoteRedis.RedisNoteStorage.Add | pkg/mod/gitlab.sendo.vn/core/golang-sdk@v2.2.1+incompatible/sdms-cli/grpc-skeleton/appsrc/note_service/storage/redis.go:45-66 | a failed SET is returned and nobody is told; otherwise the note, with the clock's reading as its id, is returned and every watcher is sent an insert event for it |
| NoteRedis.WatchThenCancel | pkg/mod/gitlab.sendo.vn/core/golang-sdk@v2.2.1+incompatible/sdms-cli/grpc-skeleton/appsrc/note_service/storage/redis_test.go:13-50 | with no watchers, nothing is sent; a watching context receives the event; once cancelled, the next notification drops it and closes its channel |

## Left out

- Goroutines, mutexes, wait groups, tickers and OS signals: every concurrent step is an explicit event or an entry in a call trace, and one interleaving stands for each race (the subscriber processes its messages one after another, where the source starts a goroutine per message).
- Loggers and log levels: logging calls are not modelled, and neither is the worker pool's SetLogEnable.
- Command-line parsing: a flag's value is given as an Option (None for a flag not on the command line), and flag parse errors are not modelled.
- Foreign clients are parameters giving the answer each call returns: the gRPC connection and stream, the Consul agent and key/value store, sql.Open and Ping, gorm's connection, the MongoDB data layer, Redis, YAML decoding and reading the config file.
- JSON encoding: a stored service configuration is the triple json.Marshal writes (prefix, regex and protocol), and a Redis note is read back already decoded.
- The clock and randomness are parameters: the note id drawn by rand.Uint32, the UnixNano reading that gives a Redis note its id, and the build date, which BuildTags receives already formatted.
- Configure of ssd/sd_consul.go (lines 81-125) and of new/registry/consul.go (lines 78-123) are not part of this model. They parse the URI, create the client, read the host name and dial the agent. The same holds for their Run ticker loops, their Stop, and GetCheckIP.
- ConsulAgent.CheckIp: the local address of the dialled connection is a parameter; whether it parses as a non-loopback IP (the "auto" service IP) is not modelled.
- GetServices of app.go (which takes the mutex and then calls IsShutdown, which takes it again) is not part of this model.
- SqlManagerConfig.ExpandRange: ids are unbounded integers. The source's uint64 loop `i <= end` never ends when end is 2^64-1; the model stops at end.
- SqlManagerConfig.Member.GetDBName: fmt.Sprintf is modelled for "%%", the verbs d, v, x, X, o and b with a width and the '0' and '-' flags, and Go's texts for a missing verb and a missing or extra argument; any other verb c prints %!c(ssql.DatabaseID=n). The '+', '#' and ' ' flags, a precision, a '*' width, argument indexes and the verbs c, q, U and O, which Go accepts for an integer, are not modelled: the model reads such a flag as the verb, so "db%+d" with id 5 gives "db%!+(ssql.DatabaseID=5)d" where Go prints "db+5".
- SqlManager.SqlManagerImpl.GetAllDatabaseInfo: the source appends the infos in map order and then sorts them by id; the model inserts each at its place, and SortedUnique shows the result is the same listing.
- SqlService.SqlServiceImpl: the DB() getter is the connection field itself.
- StringSort: sort.Strings is modelled as a function that returns the sorted sequence, not as an in-place sort of the slice.
- GrpcServer.FixSvcConfig: the names of the registered gRPC services arrive in map order, given as a parameter, and are scanned with the corrected FindCommonPrefix. As written (sgrpc/util.go:37), the scan panics when a later name is a proper prefix of the first, as in "pkg.SvcB" then "pkg.Svc", so whether fixSvcConfig panics depends on the map order; the model does not capture that panic. RouteRegexOrderFree shows that with the corrected scan the regex does not depend on the order.
- App.Application.Shutdown: a Shutdown that blocks is reported by `blocked` instead of hanging its caller. The OS signals of the Run loop's events are handed to the loop directly, so a signal that fills the channel before the loop reads it is not modelled.
- GrpcServer.New: the panic of the type assertion on App is returned as an error, and its text is not Go's runtime message.
- GinServer.New: the panic of the type assertion on App is returned as an error, and its text is not Go's runtime message.
- SqlManagerConfig.ErrorText: the number in a strconv.ParseUint error is quoted as it is; the escaping strconv.Quote applies to quotes, backslashes and unprintable characters is not modelled.
- GinServer.FixSvcConfig: the router's routes are a parameter.
- sdms-cli: the goimports and gofmt check in `init`, and initTemplate's walk of the template directory and its file generation, are not part of this model. Run's outcome names what would be generated.
- NoteRepository and NoteHandlers: note ids are unbounded integers rather than int64, and WatchChanged of the MongoDB repository (a fresh channel nobody writes to) is not modelled.
- NoteErrors.String: for a value outside 410 to 415 the source indexes its table out of range and panics; the model answers None.
- NoteRedis.RedisNoteStorage.NotifyChanged: each watcher's channel has a buffer of one, so the source's send blocks while an earlier event is unread; the model records every event sent, and does not model the blocking.
- NoteRedis: a channel is a number into the storage's sequence of channels. Count of redis.go is not modelled, and neither is the 64-bit overflow of (page-1)*limit in getPageLimit.
- manager_config_test.go: its concrete cases are covered by the general lemmas about ParseListDatabaseID and parse (ParseListAllIff, RangeIdsOfRange, RangeIdsNonNumeric, ParseMemberOk, ParseMemberErrors), not by one lemma per case.

## Findings

| source | as written | input that shows it | evidently intended | confidence | as-written member | corrected member |
|---|---|---|---|---|---|---|
| pkg/mod/gitlab.sendo.vn/core/golang-sdk@v2.2.1+incompatible/sgrpc/util.go:36-38 | findCommonPrefix indexes every later key at position i without checking that key's length | keys "ab" then "a": at i = 1, "a"[1] is out of range and Go panics | stop at the end of the shortest key | not executed | GrpcUtil.FindCommonPrefixAsWritten, GrpcUtil.ShorterKeyExample | GrpcUtil.FindCommonPrefix, GrpcUtil.CorrectedCoversPanic |
| pkg/mod/gitlab.sendo.vn/core/golang-sdk@v2.2.1+incompatible/new/registry/consul.go:202 | fetchKV signals a configuration change when bytes.Compare of the held and the read value is 0, that is, when they are equal | held [1], read [2]: no signal; held [1], read [1]: a signal on every read | signal when the values differ (Compare != 0) | not executed | Registry.Consul.FetchKvAsWritten, Registry.ChangeMissed | Registry.Consul.FetchKv, Registry.SignalsCountChanges |
