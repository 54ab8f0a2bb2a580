# mediasoup-nextjs session orchestration, modelled in Dafny

The repository is a one-to-one video session built on an SFU engine: a
signaling server holds at most one producer and one consumer, and two client
variants (a reducer-driven page and a hook-based context provider) publish a
camera or screen track and subscribe to it. Both clients drive the server
through request/acknowledgement round trips over one socket. A user context
keeps the connected user's record.

The model covers the session orchestration and leaves out the media engine.

- **`signaling.dfy`** (module `Signaling`) holds the shared vocabulary: request
  names, media kinds, transport and consume acknowledgements as a client sees
  them, and the simulcast producer options.
- **`server.dfy`** (module `SessionCoordinator`) models the server's
  per-socket handlers.
  - The class `Coordinator` holds the four option-typed module slots
    (`producer`, `consumer`, `producerTransport`, `consumerTransport`), the
    connected sockets, and an outbox of `(recipient, message)` envelopes.
  - Each handler is one atomic method.
  - A handler whose source dereferences a slot without a check requires that
    slot to be set.
  - The engine's answers are parameters: an allocation, a created id, whether
    a call was accepted.
  - `CreateWebRtcTransport` and `NewConsumer` are the pure decision parts of
    the two helpers.
  - `Broadcast` and `Count` state who receives what.
- **`client.dfy`** (module `ClientReducer`) models the reducer-driven page.
  - The pure `Reducer` over string action types is modelled directly.
  - The closures (`connect`, the socket handlers, `publish`, `subscribe` and
    the receive transport's state handler) are methods of `ClientComponent`.
    They record the requests sent, the capture prompts opened and the
    producer options used.
  - The component knows which socket its closures were made with: none,
    the socket provider's initial empty object (which has no `on` or
    `request`), or a live socket. It also holds the device its `joined`
    handler loaded.
  - `connect` on the empty object throws into its catch and dispatches
    `error`, which the reducer never clears.
  - `publish` and `subscribe` throw without a loaded device. Nothing on the
    page keeps a button from being clicked before that.
  - The page declares a simulcast checkbox ref but renders no element with
    it, so `publish` always produces a single layer. `PublishOptions` models
    the option choice as written, and `Publish` passes it an unchecked box.
- **`controller.dfy`** (module `MediasoupController`) models the hook-based
  provider as the class `Controller`.
  - Its fields are the provider's state slots.
  - Its `log` records, in order, each request sent, each acknowledgement,
    each capture prompt, each `produce` call and each setter call.
  - A request that is never acknowledged leaves its `async` flow waiting
    forever, so the model stops the flow there (`Suspended`).
- **`user.dfy`** (module `UserProvider`) models the user context: the initial
  record, the two updaters, `requestConnection`, and the effect's handlers and
  cleanup as the class `Session`.

Where the code and the design description disagree, the model follows the
code:

- The capability check yields an empty acknowledgement rather than a
  capability error.
- Nothing refuses a second `produce` or checks that a transport is connected
  before producing.
- The hook-based controller sets `isSubscribed` before it requests `resume`.
- The server answers `join` by emitting `joined` and never calls the
  acknowledgement. The hook-based controller waits for `join-accepted`, which
  this server never emits, so against this server its `OnJoinAccepted` is
  never triggered.

## Model

| member | source | states |
|---|---|---|
| SessionCoordinator.CreateWebRtcTransport | src/server/index.ts:173-201 | fails exactly when the engine allocation fails, passing its message on; on success the client parameters are exactly the allocation's id, ICE parameters, ICE candidates and DTLS parameters; no remote DTLS yet; a bitrate limit is present exactly when setting it succeeded (a failure there is swallowed) |
| SessionCoordinator.ParamsIgnoreServerState | src/server/index.ts:192-200 | the parameters sent to a client carry the four negotiated fields and nothing of the server-side bitrate limit or remote DTLS state |
| SessionCoordinator.NewConsumer | src/server/index.ts:203-236 | a consumer comes back exactly when the router says it can consume, a consumer transport exists and the engine's consume succeeds; it carries the producer's id and kind and the engine's consumer id, type, RTP parameters and producer-paused flag; it is paused exactly when the producer is video, and a simulcast consumer (and only it) gets preferred layers 2/2 |
| SessionCoordinator.Resumed | src/server/index.ts:148-151 | resume clears `paused` and changes nothing else |
| SessionCoordinator.ResumeIdempotent | src/server/index.ts:148-151 | resuming keeps the consumer invariant, twice is the same as once, and a running consumer is unchanged |
| SessionCoordinator.Broadcast | src/server/index.ts:141 | a broadcast sends only the given message, only to connected sockets, never to the sender |
| SessionCoordinator.CountAppend | src/server/index.ts:141 | deliveries to a socket add up over concatenated outboxes |
| SessionCoordinator.BroadcastReachesOthersOnce | src/server/index.ts:141 | over distinct sockets, a broadcast reaches each other connected socket exactly once and the sender zero times |
| SessionCoordinator.Without | src/server/index.ts:91-93 | after a socket leaves, the connected sockets are the previous ones minus it, and they stay distinct |
| SessionCoordinator.DistinctCons | src/server/index.ts:79 | adding a socket that is not yet connected keeps the connected sockets distinct |
| SessionCoordinator.Coordinator.constructor | src/server/index.ts:72-79 | all four slots start empty, no socket is connected and nothing has been sent |
| SessionCoordinator.Coordinator.OnConnection | src/server/index.ts:79-85 | the new socket joins the connected set and receives `newProducer` exactly when a producer already exists, and nothing else is sent |
| SessionCoordinator.Coordinator.OnDisconnect | src/server/index.ts:91-93 | only the connected-socket set changes; slots survive a disconnect |
| SessionCoordinator.Coordinator.OnJoin | src/server/index.ts:87-89 | `join` sends exactly one `joined` to the asking socket and no acknowledgement |
| SessionCoordinator.Coordinator.OnGetRouterRtpCapabilities | src/server/index.ts:99-101 | the acknowledgement carries the router's capabilities and no state changes |
| SessionCoordinator.Coordinator.OnCreateProducerTransport | src/server/index.ts:103-112 | on success the producer-transport slot holds the new transport and the acknowledgement carries its parameters; on failure the slot is untouched and the acknowledgement carries the error message |
| SessionCoordinator.Coordinator.OnCreateConsumerTransport | src/server/index.ts:114-123 | the same for the consumer-transport slot |
| SessionCoordinator.Coordinator.OnConnectProducerTransport | src/server/index.ts:125-128 | requires a producer transport; the transport records the remote DTLS parameters and an empty acknowledgement is sent exactly when the engine accepts the connect |
| SessionCoordinator.Coordinator.OnConnectConsumerTransport | src/server/index.ts:130-133 | the same for the consumer transport |
| SessionCoordinator.Coordinator.OnProduce | src/server/index.ts:135-142 | requires a producer transport; when the engine creates the producer the slot holds it (replacing any earlier one), the sender gets its id, and every other connected socket gets exactly one more `newProducer`; when the engine fails nothing changes |
| SessionCoordinator.Coordinator.CreateConsumer | src/server/index.ts:203-236 | the consumer slot takes the `NewConsumer` result when there is one and is otherwise untouched; the reply is the consumer's parameters or empty |
| SessionCoordinator.Coordinator.OnConsume | src/server/index.ts:144-146 | requires a producer; the asking socket gets exactly one acknowledgement carrying `createConsumer`'s reply |
| SessionCoordinator.Coordinator.OnResume | src/server/index.ts:148-151 | requires a consumer; when the engine accepts, the consumer is resumed and an empty acknowledgement is sent; otherwise nothing changes |
| Signaling.SimulcastOptions | src/components/Client.tsx:260-267 | the encodings' maximum bitrates are exactly 100000, 300000 and 900000, strictly rising, and the start bitrate is 1000 (the same values the hook-based controller uses) |
| ClientReducer.InitialState | src/components/Client.tsx:55-61 | nothing loading, connected, publishing or subscribed; subscription disabled; no error |
| ClientReducer.Reducer | src/components/Client.tsx:7-51 | a state comes back exactly for the seven action types with a case; any other type yields none |
| ClientReducer.ConnectSetsOnlyLoading | src/components/Client.tsx:9-14 | `connect` sets `isLoading` and changes nothing else |
| ClientReducer.ConnectedSetsConnectionFlags | src/components/Client.tsx:15-21 | `connected` sets `isConnected`, clears `isLoading` and changes nothing else |
| ClientReducer.DisconnectKeepsSession | src/components/Client.tsx:22-27 | `disconnect` clears `isConnected` only; publishing and subscription survive it |
| ClientReducer.SingleFieldActions | src/components/Client.tsx:28-51 | `publish`, `subscribe`, `newProducer` and `error` each set one field |
| ClientReducer.ReducerIdempotent | src/components/Client.tsx:7-51 | every handled action applied twice is the same as once |
| ClientReducer.StepStickyFlags | src/components/Client.tsx:7-51 | one dispatch sets `isPublishing`/`isSubscribed` only for its own action and never clears them, enables subscription only on `newProducer`, and sets the error only on `error` |
| ClientReducer.RunStickyFlags | src/components/Client.tsx:7-51 | after any sequence of actions, `isPublishing` holds iff it held before or the sequence contains `publish` (likewise `isSubscribed`/`subscribe`); subscription is enabled iff it was before or `newProducer` occurred; the error is `Error` if `error` occurred and otherwise what it was before |
| ClientReducer.PublishOptions | src/components/Client.tsx:255-268 | with the simulcast checkbox present and checked, exactly the simulcast options (encodings of 100000, 300000 and 900000, start bitrate 1000); otherwise no encodings and no codec options |
| ClientReducer.CaptureFor | src/components/Client.tsx:165-168 | the camera is opened exactly for a click on the element whose id is `btn_webcam`, the screen picker otherwise |
| ClientReducer.ClientComponent.constructor | src/components/Client.tsx:63-67 | the page starts in the reducer's initial state over the socket it was given, with no device and nothing sent |
| ClientReducer.ClientComponent.Connect | src/components/Client.tsx:85-146 | the state becomes the run of `ConnectDispatches`: `connect`, then `error` exactly on the placeholder socket, whose missing `on` throws into the catch; `join` is requested only over a live socket |
| ClientReducer.ConnectDispatches | src/components/Client.tsx:85-146 | `connect` is dispatched first, every action is handled, and `error` is among them exactly for the placeholder socket |
| ClientReducer.PlaceholderErrorSticks | src/components/Client.tsx:143-145 | after `connect` on the placeholder socket, the reducer state keeps `error` set whatever is dispatched later |
| ClientReducer.ClientComponent.OnSocketChanged | src/components/Client.tsx:391-393 | a new socket gives the page new closures with no device, and `connect` runs again over it |
| ClientReducer.ClientComponent.OnJoined | src/components/Client.tsx:98-160 | on a live socket only: requests the router capabilities; a usable device (with its video capability) is left exactly when the load succeeds, and only then is `connected` dispatched |
| ClientReducer.ClientComponent.OnDisconnect | src/components/Client.tsx:112-120 | on a live socket only (the handler is registered there): dispatches `disconnect` |
| ClientReducer.ClientComponent.OnConnectError | src/components/Client.tsx:122-133 | on a live socket only: dispatches `error` |
| ClientReducer.ClientComponent.OnNewProducer | src/components/Client.tsx:135-140 | on a live socket only: dispatches `newProducer` |
| ClientReducer.ClientComponent.Publish | src/components/Client.tsx:162-303 | nothing is sent without a live socket and a loaded device (the request payload reads the device); otherwise a send transport is requested and an `error` ack stops there; a capture is opened only when the loaded device can produce video; the checkbox ref is attached to no rendered element, so the producer options are always single-layer; connect and produce are requested in that order only after a captured stream, each gated on the previous acknowledgement; `publish` is dispatched only when both are acknowledged; the page never shows publishing without a produce request |
| ClientReducer.ClientComponent.Subscribe | src/components/Client.tsx:305-326 | a receive transport is requested only over a live socket; an `error` ack, or a missing device (creating the receive transport throws), stops there; otherwise `consume` follows, and the DTLS connect is requested only when the consume answer carries a consumer |
| ClientReducer.ClientComponent.OnReceiveTransportConnected | src/components/Client.tsx:337-347 | dispatches `subscribe`, then requests `resume` once the stream is there; the page never shows subscribed without a DTLS connect request |
| MediasoupController.OrderedAppend | src/contexts/MediasoupControllerProvider.tsx:114-122 | a log stays ordered when each appended step is ordered in the longer log |
| MediasoupController.OrderedAppendQuiet | src/contexts/MediasoupControllerProvider.tsx:56-297 | appending steps that set no flag true and send no `resume` keeps the log ordered |
| MediasoupController.Controller.constructor | src/contexts/MediasoupControllerProvider.tsx:33-39 | all flags false, both stream slots unset, no device, empty log |
| MediasoupController.Controller.JoinEffect | src/contexts/MediasoupControllerProvider.tsx:254-262 | `join` is requested exactly when not connected and a socket exists |
| MediasoupController.Controller.OnJoinAccepted | src/contexts/MediasoupControllerProvider.tsx:41-54 | fetches the router capabilities, sets the device only when loading succeeds (a failure is swallowed), then sets `isConnected`, which is always preceded by the capabilities acknowledgement; the handler exists only on a socket that has `on` |
| MediasoupController.Controller.OnConnectionLost | src/contexts/MediasoupControllerProvider.tsx:278-286 | on a socket that has `on`, clears `isConnected` and nothing else |
| MediasoupController.Controller.GetUserMedia | src/contexts/MediasoupControllerProvider.tsx:127-169 | no stream without a device able to produce video; a failed capture clears `isPublishing` and throws; otherwise the track is produced with the three simulcast layers, after the connect and produce round trips, and the stream is returned |
| MediasoupController.Controller.Publish | src/contexts/MediasoupControllerProvider.tsx:56-125 | nothing without socket and device; an `error` ack stops after the request; no stream clears `isPublishing`; a stream is attached and only then `isPublishing` set, after the DTLS connect and produce acknowledgements; in every branch the log is exactly the requests, acknowledgements, capture prompt, `produce` call and setters that branch reaches, so no capture is prompted without a video-capable device and nothing is sent after an unanswered request |
| MediasoupController.Controller.ConsumeStream | src/contexts/MediasoupControllerProvider.tsx:229-252 | nothing without socket and device; an empty answer throws; a consumer answer leads to the DTLS connect request and, once acknowledged, a stream |
| MediasoupController.Controller.Subscribe | src/contexts/MediasoupControllerProvider.tsx:171-227 | nothing without socket and device; an `error` ack clears `isSubscribed`; a stream is attached, then `isSubscribed` set, then `resume` requested, and the log shows the consume and DTLS connect acknowledgements before them; an unanswered or empty `consume` answer or an unacknowledged connect ends the log exactly at that request or answer |
| UserProvider.InitialUser | src/contexts/UserProvider.tsx:30-35 | the record starts with the given id and type, not connected, with no attributes |
| UserProvider.WithId | src/contexts/UserProvider.tsx:39-43 | the id changes and the type, connection flag and attributes do not |
| UserProvider.WithConnection | src/contexts/UserProvider.tsx:45-49 | the connection flag changes and the id, type and attributes do not |
| UserProvider.SettersCommute | src/contexts/UserProvider.tsx:39-49 | the two updaters commute |
| UserProvider.SettersRestore | src/contexts/UserProvider.tsx:39-49 | setting a field to its current value changes nothing |
| UserProvider.Register | src/contexts/UserProvider.tsx:62-77 | the effect adds one listener for each of `invalid-token`, `connected` and `disconnect` and none for anything else |
| UserProvider.CleanupAsWritten | src/contexts/UserProvider.tsx:79-83 | the cleanup as written drops every `connected`, `invalid-token` and `disconnected` listener and keeps every `disconnect` listener and everything else |
| UserProvider.Cleanup | src/contexts/UserProvider.tsx:79-83 | the corrected cleanup removes the effect's own handler of each of the three events and keeps every other listener, including other components' listeners of the same events |
| UserProvider.CleanupUndoesRegister | src/contexts/UserProvider.tsx:62-83 | with the corrected cleanup, registering then cleaning up gives the socket's listeners back exactly |
| UserProvider.RemountsAsWrittenLeak | src/contexts/UserProvider.tsx:79-83 | with the cleanup as written, `n` effect runs leave `n` extra `disconnect` listeners |
| UserProvider.RemountsBalanced | src/contexts/UserProvider.tsx:56-84 | with the corrected cleanup, any number of effect runs leaves every socket's listeners exactly as they were, whatever other components listen on it |
| UserProvider.Session.constructor | src/contexts/UserProvider.tsx:24-37 | the provider starts with the initial record and nothing sent; the socket holds only other components' listeners |
| UserProvider.Session.SetUserId | src/contexts/UserProvider.tsx:39-43 | the held record becomes `WithId` of the old one |
| UserProvider.Session.SetIsConnected | src/contexts/UserProvider.tsx:45-49 | the held record becomes `WithConnection` of the old one |
| UserProvider.Session.RequestConnection | src/contexts/UserProvider.tsx:51-54 | a connected user sends nothing; otherwise the record is sent once when a socket exists; only unconnected records are ever sent |
| UserProvider.Session.RunEffect | src/contexts/UserProvider.tsx:56-77 | nothing without a socket; otherwise a connection is requested and the three handlers are added once each to the other components' listeners |
| UserProvider.Session.CleanupEffect | src/contexts/UserProvider.tsx:79-83 | applies the corrected cleanup of the Findings row, not the one as written: the socket is left with exactly the other components' listeners |
| UserProvider.Session.OnConnected | src/contexts/UserProvider.tsx:66-72 | the held record becomes the server's record and its id is shown |
| UserProvider.Session.OnDisconnect | src/contexts/UserProvider.tsx:74-77 | the user is marked disconnected (nothing else in the record changes) and the socket is closed |

## Left out

- The SFU engine itself (workers, routers, RTP negotiation, the media plane). Its answers are parameters: allocation results, created ids, whether a call was accepted. The router's `canConsume` is a boolean parameter, so the RTP capabilities it inspects are not modelled.
- Server bootstrap: the HTTPS server, TLS files, listen port, worker creation and the worker's `died` exit timer. These are I/O and process control.
- The socket wrappers that turn emit-with-callback into promises. A request is modelled as sent and then either acknowledged or never answered.
- Interleaving of concurrent handlers. Each handler is atomic; the source's `await` points between a check and a slot write are not modelled.
- The server's `disconnect` and `connect_error` handlers only log, so beyond the connected-socket set they are not modelled.
- The transports' `connectionstatechange` handlers for `connecting` and `failed`, and all DOM updates (status texts, fieldset enabling, video elements). The receive transport's `connected` case is modelled as `OnReceiveTransportConnected`.
- The hook-based controller's `newProducer` handler and the user context's `invalid-token` handler. Both only log.
- `setPreferredLayers` failing on the server. That rejection is not caught; the model assumes the call succeeds.
- The hook-based controller's effect cleanup unregisters `join-accepted`, `connect_error` and `newProducer`, but not `disconnect`. Listener registration is modelled for the user context only.
- `SessionCoordinator.Coordinator.OnConsume`: requires a producer, because the source dereferences `producer.id` before it checks anything. A `consume` with no producer throws out of the handler and sends no acknowledgement, and the model does not cover that path.
- `SessionCoordinator.Coordinator.OnConnectProducerTransport`, `OnConnectConsumerTransport`, `OnProduce` and `OnResume`: each requires its slot to be set, for the same reason. An engine rejection is modelled as no acknowledgement, because the promise rejects uncaught.
- `MediasoupController.Controller.Subscribe`: the source's null-stream branch is not modelled as reachable. `consume` returns nothing only when its own socket/device guard fails, and `subscribe` has already passed that same guard.
- The typed errors a design might call for (capability error, duplicate-producer refusal) are not part of this model, because the code does not implement them.
- `UserProvider.Session.CleanupEffect`: uses the corrected cleanup. As written, the effect's `disconnect` handler stays registered after every cleanup. `RemountsAsWrittenLeak` proves that leak, but the class does not carry it.
- `ClientReducer.ClientComponent.OnJoined`: a failed load leaves no usable device. When the `Device` constructor itself throws on a later `joined`, the source keeps the earlier device object; the model treats that case like any failed load.
- `ClientReducer.ClientComponent.OnDisconnect`, `OnConnectError`, `OnNewProducer`, `OnJoined` and `OnReceiveTransportConnected` require a live socket, because `connect` and `subscribe` register those handlers only on one.

## Findings

| source | as written | input that shows it | evidently intended | confidence | as-written member | corrected member |
|---|---|---|---|---|---|---|
| src/contexts/UserProvider.tsx:79-83 | the effect's cleanup removes listeners for `disconnected`, but the effect registered its handler under `disconnect`, so that handler survives every cleanup | mount the provider, then change `id` (a dependency of the effect) `n` times: the socket then holds `n + 1` `disconnect` handlers | cleanup removes the effect's own `disconnect` handler (`off` with the handler), so each effect run is balanced and other components' listeners on the shared socket are kept | medium, not executed | UserProvider.RemountsAsWrittenLeak | UserProvider.RemountsBalanced |
