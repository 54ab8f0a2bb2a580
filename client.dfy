/**
 * The reducer-driven client page: a pure reducer over five flags and an
 * error field, and the component's closures (connect, the socket event
 * handlers, publish, subscribe and the receive transport's state handler),
 * which issue requests and dispatch actions to that reducer.
 */
module ClientReducer {
  import opened Signaling

  datatype State = State(
    isLoading: bool,
    isConnected: bool,
    isPublishing: bool,
    isSubscribed: bool,
    subscribeIsDisabled: bool,
    error: Option<string>)   // absent until an `error` action

  /** The action types the reducer has a case for. */
  const Handled: set<string> := {"connect", "connected", "disconnect", "publish", "subscribe", "newProducer", "error"}

  /** The reducer's starting state. */
  function InitialState(): (s: State)
    ensures !s.isLoading && !s.isConnected && !s.isPublishing && !s.isSubscribed
    ensures s.subscribeIsDisabled && s.error.None?
  {
    State(false, false, false, false, true, None)
  }

  /**
   * `reducer(state, {type})`. There is no default case, so an action type
   * without a case yields no state at all.
   */
  function Reducer(s: State, actionType: string): (r: Option<State>)
    ensures r.Some? <==> actionType in Handled
  {
    match actionType
    case "connect" => Some(s.(isLoading := true))
    case "connected" => Some(s.(isConnected := true, isLoading := false))
    case "disconnect" => Some(s.(isConnected := false))
    case "publish" => Some(s.(isPublishing := true))
    case "subscribe" => Some(s.(isSubscribed := true))
    case "newProducer" => Some(s.(subscribeIsDisabled := false))
    case "error" => Some(s.(error := Some("Error")))
    case _ => None
  }

  /** `dispatch` of an action the reducer handles. */
  function Dispatch(s: State, actionType: string): State
    requires actionType in Handled
  {
    Reducer(s, actionType).value
  }

  lemma ConnectSetsOnlyLoading(s: State)
    ensures Dispatch(s, "connect").isLoading
    ensures Dispatch(s, "connect").(isLoading := s.isLoading) == s
  {
  }

  lemma ConnectedSetsConnectionFlags(s: State)
    ensures Dispatch(s, "connected").isConnected && !Dispatch(s, "connected").isLoading
    ensures Dispatch(s, "connected").(isConnected := s.isConnected, isLoading := s.isLoading) == s
  {
  }

  /** A disconnect clears `isConnected` and nothing else: publishing and subscription survive it. */
  lemma DisconnectKeepsSession(s: State)
    ensures !Dispatch(s, "disconnect").isConnected
    ensures Dispatch(s, "disconnect").isPublishing == s.isPublishing
    ensures Dispatch(s, "disconnect").isSubscribed == s.isSubscribed
    ensures Dispatch(s, "disconnect").(isConnected := s.isConnected) == s
  {
  }

  lemma SingleFieldActions(s: State)
    ensures Dispatch(s, "publish") == s.(isPublishing := true)
    ensures Dispatch(s, "subscribe") == s.(isSubscribed := true)
    ensures Dispatch(s, "newProducer") == s.(subscribeIsDisabled := false)
    ensures Dispatch(s, "error") == s.(error := Some("Error"))
  {
  }

  /** Every handled action is idempotent. */
  lemma ReducerIdempotent(s: State, actionType: string)
    requires actionType in Handled
    ensures Reducer(Dispatch(s, actionType), actionType) == Reducer(s, actionType)
  {
  }

  /** How one dispatch moves the flags that only one action type writes. */
  lemma StepStickyFlags(s: State, actionType: string)
    requires actionType in Handled
    ensures Dispatch(s, actionType).isPublishing == (s.isPublishing || actionType == "publish")
    ensures Dispatch(s, actionType).isSubscribed == (s.isSubscribed || actionType == "subscribe")
    ensures Dispatch(s, actionType).subscribeIsDisabled == (s.subscribeIsDisabled && actionType != "newProducer")
    ensures Dispatch(s, actionType).error == if actionType == "error" then Some("Error") else s.error
  {
  }

  /** The state after dispatching `actions` in order. */
  function Run(s: State, actions: seq<string>): State
    requires forall i :: 0 <= i < |actions| ==> actions[i] in Handled
    decreases |actions|
  {
    if actions == [] then s else Run(Dispatch(s, actions[0]), actions[1..])
  }

  /**
   * Nothing ever clears `isPublishing` or `isSubscribed`, and nothing ever
   * disables subscription again: after any run, each of these flags is what
   * the start state says unless the run contains the one action that sets it.
   */
  lemma {:induction false} RunStickyFlags(s: State, actions: seq<string>)
    requires forall i :: 0 <= i < |actions| ==> actions[i] in Handled
    ensures Run(s, actions).isPublishing <==> s.isPublishing || "publish" in actions
    ensures Run(s, actions).isSubscribed <==> s.isSubscribed || "subscribe" in actions
    ensures !Run(s, actions).subscribeIsDisabled <==> !s.subscribeIsDisabled || "newProducer" in actions
    ensures Run(s, actions).error == if "error" in actions then Some("Error") else s.error
    decreases |actions|
  {
    if actions != [] {
      StepStickyFlags(s, actions[0]);
      RunStickyFlags(Dispatch(s, actions[0]), actions[1..]);
      assert actions == [actions[0]] + actions[1..];
    }
  }

  /**
   * What `publish` asks its send transport to produce with, by whether the
   * simulcast checkbox exists and is checked.
   */
  function PublishOptions(simulcastChecked: bool): (o: ProducerOptions)
    ensures simulcastChecked ==> o == SimulcastOptions()
    ensures simulcastChecked ==> o.encodings == [100000, 300000, 900000] && o.videoGoogleStartBitrate == Some(1000)
    ensures !simulcastChecked ==> o.encodings == [] && o.videoGoogleStartBitrate.None?
  {
    if simulcastChecked then SimulcastOptions() else SingleLayerOptions()
  }

  const WebcamButtonId: string := "btn_webcam"

  /** The capture a publish click opens: the camera only for the button whose id is `btn_webcam`. */
  function CaptureFor(targetId: Option<string>): (c: CaptureSource)
    ensures c == Webcam <==> targetId == Some("btn_webcam")
  {
    if targetId.Some? && targetId.value == WebcamButtonId then Webcam else Screen
  }

  /**
   * What `useSocket` hands the page: nothing (no provider above it), the
   * provider's initial empty object, which has no `on`, `emit` or `request`,
   * or a live socket.
   */
  datatype SocketKind = NoSocket | Placeholder | Live

  /**
   * The actions `connect` dispatches: `connect` first; then, on the empty
   * placeholder object, registering the first handler throws and the catch
   * dispatches `error`.
   */
  function ConnectDispatches(socket: SocketKind): (actions: seq<string>)
    ensures |actions| >= 1 && actions[0] == "connect"
    ensures forall i :: 0 <= i < |actions| ==> actions[i] in Handled
    ensures "error" in actions <==> socket == Placeholder
  {
    if socket == Placeholder then ["connect", "error"] else ["connect"]
  }

  /**
   * After `connect` on the provider's placeholder, the reducer state keeps
   * `error` set whatever is dispatched later.
   */
  lemma PlaceholderErrorSticks(s: State, later: seq<string>)
    requires forall i :: 0 <= i < |later| ==> later[i] in Handled
    ensures Run(s, ConnectDispatches(Placeholder) + later).error == Some("Error")
  {
    var actions := ConnectDispatches(Placeholder) + later;
    assert actions[1] == "error";
    RunStickyFlags(s, actions);
  }

  /**
   * The component: the reducer's state, the socket its closures were made
   * with, the device its `joined` handler loaded, plus what its closures have
   * sent to the server, which captures they opened, and which producer
   * options they handed to a send transport.
   */
  class ClientComponent {
    var socket: SocketKind
    var device: Option<bool>   // a loaded device and whether it can produce video
    var state: State
    var requests: seq<Request>
    var captures: seq<CaptureSource>
    var productions: seq<ProducerOptions>

    /**
     * A device is loaded only through a live socket's `joined` handler; every
     * production is single-layer; the state says "publishing" only after a
     * produce request, and "subscribed" only after a DTLS connect.
     */
    ghost predicate Valid()
      reads this
    {
      && (device.Some? ==> socket == Live)
      && (forall k :: 0 <= k < |productions| ==> productions[k] == SingleLayerOptions())
      && (state.isPublishing ==> Produce(Video) in requests)
      && (state.isSubscribed ==> ConnectConsumerTransport in requests)
    }

    constructor (socket: SocketKind)
      ensures Valid()
      ensures this.socket == socket && device.None?
      ensures state == InitialState() && requests == [] && captures == [] && productions == []
    {
      this.socket := socket;
      device := None;
      state := InitialState();
      requests, captures, productions := [], [], [];
    }

    /**
     * `connect`, run by the effect on `socket`: dispatch `connect`; with a
     * live socket register the handlers and request `join`; on the
     * placeholder the first registration throws and the catch dispatches
     * `error`.
     */
    method Connect()
      requires Valid()
      modifies this`state, this`requests
      ensures Valid()
      ensures state == Run(old(state), ConnectDispatches(socket))
      ensures requests == old(requests) + (if socket == Live then [Join] else [])
    {
      var connecting := Dispatch(state, "connect");
      assert ["connect", "error"][1..] == ["error"] && ["error"][1..] == [] && ["connect"][1..] == [];
      assert Run(connecting, ["error"]) == Dispatch(connecting, "error");
      state := connecting;
      if socket == Placeholder {
        state := Dispatch(state, "error");
      } else if socket == Live {
        requests := requests + [Join];
      }
    }

    /**
     * The provider replaces its socket (the placeholder by the live one): the
     * page renders closures over the new socket, with no device yet, and the
     * effect on `socket` runs `connect` again.
     */
    method OnSocketChanged(newSocket: SocketKind)
      requires Valid()
      modifies this`socket, this`device, this`state, this`requests
      ensures Valid()
      ensures socket == newSocket && device.None?
      ensures state == Run(old(state), ConnectDispatches(newSocket))
      ensures requests == old(requests) + (if newSocket == Live then [Join] else [])
    {
      socket := newSocket;
      device := None;
      Connect();
    }

    /**
     * `joined` (registered on a live socket only): fetch the router
     * capabilities and load a fresh device; only a load that succeeds leaves
     * a usable device and reaches the `connected` dispatch.
     */
    method OnJoined(deviceLoaded: bool, canProduceVideo: bool)
      requires Valid() && socket == Live
      modifies this`device, this`state, this`requests
      ensures Valid()
      ensures requests == old(requests) + [GetRouterRtpCapabilities]
      ensures device == if deviceLoaded then Some(canProduceVideo) else None
      ensures state == if deviceLoaded then Dispatch(old(state), "connected") else old(state)
    {
      requests := requests + [GetRouterRtpCapabilities];
      device := if deviceLoaded then Some(canProduceVideo) else None;
      if deviceLoaded {
        state := Dispatch(state, "connected");
      }
    }

    method OnDisconnect()
      requires Valid() && socket == Live
      modifies this`state
      ensures Valid()
      ensures state == Dispatch(old(state), "disconnect")
    {
      state := Dispatch(state, "disconnect");
    }

    method OnConnectError()
      requires Valid() && socket == Live
      modifies this`state
      ensures Valid()
      ensures state == Dispatch(old(state), "error")
    {
      state := Dispatch(state, "error");
    }

    method OnNewProducer()
      requires Valid() && socket == Live
      modifies this`state
      ensures Valid()
      ensures state == Dispatch(old(state), "newProducer")
    {
      state := Dispatch(state, "newProducer");
    }

    /**
     * `publish` for a click on the element with id `targetId`. Without a live
     * socket and a loaded device the request's payload or call throws and
     * nothing is sent. The engine's and the server's answers are parameters:
     * the transport ack, whether the capture prompt yields a stream, and
     * whether the gated `connectProducerTransport` and `produce` round trips
     * are acknowledged (an unanswered request suspends the flow). The page
     * renders no simulcast checkbox, so every production is single-layer.
     */
    method Publish(targetId: Option<string>, transportAck: TransportAck,
                   captureOk: bool, connectAcked: bool, produceAcked: bool)
      requires Valid()
      modifies this`state, this`requests, this`captures, this`productions
      ensures Valid()
      ensures var ready := socket == Live && device.Some?;
              var transportReady := ready && transportAck.TransportParameters?;
              var canVideo := transportReady && device.value;
              var captured := canVideo && captureOk;
        && requests == old(requests)
             + (if ready then [CreateProducerTransport(false)] else [])
             + (if captured then [ConnectProducerTransport] else [])
             + (if captured && connectAcked then [Produce(Video)] else [])
        && captures == old(captures) + (if canVideo then [CaptureFor(targetId)] else [])
        && productions == old(productions) + (if captured then [SingleLayerOptions()] else [])
        && state == (if captured && connectAcked && produceAcked then Dispatch(old(state), "publish") else old(state))
    {
      var source := CaptureFor(targetId);
      if socket != Live || device.None? {
        return;
      }
      requests := requests + [CreateProducerTransport(false)];
      if transportAck.TransportError? {
        return;
      }
      // getUserMedia: no stream without video support, and a stream-less
      // result makes the caller's track lookup throw; both are caught.
      if !device.value {
        return;
      }
      captures := captures + [source];
      if !captureOk {
        return;
      }
      // No rendered element carries the checkbox's ref, so it is never there.
      productions := productions + [PublishOptions(false)];
      requests := requests + [ConnectProducerTransport];
      if !connectAcked {
        return;
      }
      requests := requests + [Produce(Video)];
      if !produceAcked {
        return;
      }
      state := Dispatch(state, "publish");
    }

    /**
     * `subscribe`: request a receive transport (the placeholder has no
     * `request` and throws) and stop on an `error` ack; without a loaded
     * device creating the receive transport throws; otherwise start
     * `consume`, which sends `consume` and, when the answer carries a
     * consumer, the gated `connectConsumerTransport`.
     */
    method Subscribe(transportAck: TransportAck, consumeAck: ConsumeAck)
      requires Valid()
      modifies this`requests
      ensures Valid()
      ensures var consuming := socket == Live && transportAck.TransportParameters? && device.Some?;
        requests == old(requests)
          + (if socket == Live then [CreateConsumerTransport(false)] else [])
          + (if consuming then [Consume] else [])
          + (if consuming && consumeAck.AnsweredConsumer? then [ConnectConsumerTransport] else [])
    {
      if socket != Live {
        return;
      }
      requests := requests + [CreateConsumerTransport(false)];
      if transportAck.TransportError? || device.None? {
        return;
      }
      requests := requests + [Consume];
      if consumeAck.AnsweredConsumer? {
        requests := requests + [ConnectConsumerTransport];
      }
    }

    /**
     * The receive transport reached `connected` (so its DTLS connect request
     * went out): dispatch `subscribe`, then, once the consumed stream is
     * there, request `resume`.
     */
    method OnReceiveTransportConnected(streamOk: bool)
      requires Valid() && socket == Live && ConnectConsumerTransport in requests
      modifies this`state, this`requests
      ensures Valid()
      ensures state == Dispatch(old(state), "subscribe")
      ensures requests == old(requests) + (if streamOk then [Resume] else [])
    {
      state := Dispatch(state, "subscribe");
      if streamOk {
        requests := requests + [Resume];
      }
    }
  }
}
