/**
 * The hook-based session controller: `isConnected`, `isPublishing`,
 * `isSubscribed`, `localStream`, `remoteStream` and the loaded device, driven
 * by `publish`, `subscribe`, `join` and the socket event handlers.
 *
 * Every awaited engine or socket call is replaced by its outcome, passed in as
 * a parameter; a request whose acknowledgement never comes suspends the flow
 * for good, which the model renders as the flow stopping there. `log` records,
 * in order, every request sent, every acknowledgement received, every capture
 * prompt and `produce` call, and every state setter called, so that the order
 * of those steps can be stated.
 */
module MediasoupController {
  import opened Signaling

  /** A `useState` slot holding a media stream: never set, set to `null`, or holding a stream. */
  datatype StreamSlot = Unset | Null | Attached(stream: nat)

  datatype Device = Device(canProduceVideo: bool)

  datatype Step =
    | Sent(request: Request)
    | Acked(request: Request)
    | CaptureRequested(source: CaptureSource)
    | ProduceCalled(options: ProducerOptions)
    | DeviceLoaded
    | LocalStreamSet(slot: StreamSlot)
    | RemoteStreamSet(slot: StreamSlot)
    | PublishingSet(value: bool)
    | SubscribedSet(value: bool)
    | ConnectedSet(value: bool)

  /** How an async flow ended: it returned, its promise rejected, or it waits forever on an unanswered request. */
  datatype Completion = Returned | Threw | Suspended

  /** What `getUserMedia` and `consume` hand back to their caller. */
  datatype MediaResult = NoMedia | Failed | Stalled | Media(stream: nat)

  /**
   * What must precede step `i` of a log:
   * - `isPublishing` is set true only right after the local stream was set,
   *   which comes right after the produce ack, which comes after the DTLS
   *   connect ack of the send transport;
   * - `isSubscribed` is set true only right after the remote stream was set,
   *   which comes right after the receive transport's DTLS connect ack, which
   *   comes after the consume ack;
   * - `resume` is requested only right after `isSubscribed` was set true;
   * - `isConnected` is set true only after the router capabilities came back.
   */
  ghost predicate StepOrdered(log: seq<Step>, i: nat)
    requires i < |log|
  {
    && (log[i] == PublishingSet(true) ==>
          && 2 <= i
          && log[i - 1].LocalStreamSet? && log[i - 1].slot.Attached?
          && log[i - 2] == Acked(Produce(Video))
          && Acked(ConnectProducerTransport) in log[..i - 2])
    && (log[i] == SubscribedSet(true) ==>
          && 2 <= i
          && log[i - 1].RemoteStreamSet? && log[i - 1].slot.Attached?
          && log[i - 2] == Acked(ConnectConsumerTransport)
          && Acked(Consume) in log[..i - 2])
    && (log[i] == Sent(Resume) ==> 1 <= i && log[i - 1] == SubscribedSet(true))
    && (log[i] == ConnectedSet(true) ==> Acked(GetRouterRtpCapabilities) in log[..i])
  }

  ghost predicate Ordered(log: seq<Step>) {
    forall i :: 0 <= i < |log| ==> StepOrdered(log, i)
  }

  /** A step that sets no flag true and sends no `resume`: nothing needs to precede it. */
  predicate Quiet(s: Step) {
    s != PublishingSet(true) && s != SubscribedSet(true) && s != ConnectedSet(true) && s != Sent(Resume)
  }

  /** Appending to an ordered log keeps it ordered when each appended step is ordered in the longer log. */
  lemma OrderedAppend(log: seq<Step>, more: seq<Step>)
    requires Ordered(log)
    requires forall i :: |log| <= i < |log| + |more| ==> StepOrdered(log + more, i)
    ensures Ordered(log + more)
  {
    var all := log + more;
    forall i | 0 <= i < |log|
      ensures StepOrdered(all, i)
    {
      assert StepOrdered(log, i);
      assert all[i] == log[i];
      assert all[..i] == log[..i];
      if 1 <= i {
        assert all[i - 1] == log[i - 1];
      }
      if 2 <= i {
        assert all[i - 2] == log[i - 2];
        assert all[..i - 2] == log[..i - 2];
      }
    }
  }

  lemma {:induction false} OrderedAppendQuiet(log: seq<Step>, more: seq<Step>)
    requires Ordered(log)
    requires forall k :: 0 <= k < |more| ==> Quiet(more[k])
    ensures Ordered(log + more)
  {
    forall i | |log| <= i < |log| + |more|
      ensures StepOrdered(log + more, i)
    {
      assert (log + more)[i] == more[i - |log|];
    }
    OrderedAppend(log, more);
  }

  class Controller {
    const socketPresent: bool
    var device: Option<Device>
    var isConnected: bool
    var isPublishing: bool
    var isSubscribed: bool
    var localStream: StreamSlot
    var remoteStream: StreamSlot
    var log: seq<Step>

    ghost predicate Valid()
      reads this
    {
      && (isPublishing ==> localStream.Attached?)
      && (isSubscribed ==> remoteStream.Attached?)
      && Ordered(log)
    }

    constructor (socketPresent: bool)
      ensures Valid()
      ensures this.socketPresent == socketPresent
      ensures device.None? && !isConnected && !isPublishing && !isSubscribed
      ensures localStream == Unset && remoteStream == Unset && log == []
    {
      this.socketPresent := socketPresent;
      device := None;
      isConnected, isPublishing, isSubscribed := false, false, false;
      localStream, remoteStream := Unset, Unset;
      log := [];
    }

    /** The effect on `isConnected`: `join` is requested exactly when not connected. */
    method JoinEffect()
      requires Valid()
      modifies this`log
      ensures Valid()
      ensures log == old(log) + (if !isConnected && socketPresent then [Sent(Join)] else [])
    {
      if !isConnected && socketPresent {
        OrderedAppendQuiet(log, [Sent(Join)]);
        log := log + [Sent(Join)];
      }
    }

    /**
     * `join-accepted`: fetch the router capabilities, try to load a device
     * with them (a failed load is caught and leaves the device as it was),
     * then set `isConnected`. The socket handlers are registered only on a
     * socket that has `on`.
     */
    method OnJoinAccepted(loadOk: bool, canProduceVideo: bool)
      requires Valid() && socketPresent
      modifies this
      ensures Valid()
      ensures isConnected
      ensures device == if loadOk then Some(Device(canProduceVideo)) else old(device)
      ensures log == old(log) + [Sent(GetRouterRtpCapabilities), Acked(GetRouterRtpCapabilities)]
                              + (if loadOk then [DeviceLoaded] else []) + [ConnectedSet(true)]
      ensures isPublishing == old(isPublishing) && isSubscribed == old(isSubscribed)
      ensures localStream == old(localStream) && remoteStream == old(remoteStream)
    {
      var fetch := [Sent(GetRouterRtpCapabilities), Acked(GetRouterRtpCapabilities)];
      var load: seq<Step> := if loadOk then [DeviceLoaded] else [];
      OrderedAppendQuiet(log, fetch + load);
      if loadOk {
        device := Some(Device(canProduceVideo));
      }
      var before := log + (fetch + load);
      assert before[..|before|] == before;
      assert before[|log| + 1] == Acked(GetRouterRtpCapabilities);
      assert StepOrdered(before + [ConnectedSet(true)], |before|) by {
        assert (before + [ConnectedSet(true)])[..|before|] == before;
      }
      OrderedAppend(before, [ConnectedSet(true)]);
      assert before + [ConnectedSet(true)] == old(log) + fetch + load + [ConnectedSet(true)];
      log := before + [ConnectedSet(true)];
      isConnected := true;
    }

    /** `connect_error` and `disconnect` both clear `isConnected` and nothing else. */
    method OnConnectionLost()
      requires Valid() && socketPresent
      modifies this`isConnected, this`log
      ensures Valid()
      ensures !isConnected
      ensures log == old(log) + [ConnectedSet(false)]
    {
      OrderedAppendQuiet(log, [ConnectedSet(false)]);
      isConnected := false;
      log := log + [ConnectedSet(false)];
    }

    /**
     * `getUserMedia`: no stream without a device that can produce video; a
     * failed capture clears `isPublishing` and rethrows; otherwise produce the
     * captured track with three simulcast layers (which makes the engine run
     * the gated connect and produce round trips) and hand back the stream.
     */
    method GetUserMedia(isWebcam: bool, captureOk: bool, connectAcked: bool, produceAcked: bool, stream: nat)
      returns (r: MediaResult)
      requires Valid()
      modifies this`isPublishing, this`log
      ensures Valid()
      ensures device.None? || !device.value.canProduceVideo ==>
        r == NoMedia && log == old(log) && isPublishing == old(isPublishing)
      ensures device.Some? && device.value.canProduceVideo && !captureOk ==>
        && r == Failed && !isPublishing
        && log == old(log) + [CaptureRequested(if isWebcam then Webcam else Screen), PublishingSet(false)]
      ensures device.Some? && device.value.canProduceVideo && captureOk ==>
        && isPublishing == old(isPublishing)
        && r == (if connectAcked && produceAcked then Media(stream) else Stalled)
        && log == old(log)
             + [CaptureRequested(if isWebcam then Webcam else Screen),
                ProduceCalled(SimulcastOptions()), Sent(ConnectProducerTransport)]
             + (if connectAcked then [Acked(ConnectProducerTransport), Sent(Produce(Video))] else [])
             + (if connectAcked && produceAcked then [Acked(Produce(Video))] else [])
    {
      if device.None? || !device.value.canProduceVideo {
        return NoMedia;
      }
      var capture := CaptureRequested(if isWebcam then Webcam else Screen);
      if !captureOk {
        OrderedAppendQuiet(log, [capture, PublishingSet(false)]);
        isPublishing := false;
        log := log + [capture, PublishingSet(false)];
        return Failed;
      }
      var steps := [capture, ProduceCalled(SimulcastOptions()), Sent(ConnectProducerTransport)];
      if connectAcked {
        steps := steps + [Acked(ConnectProducerTransport), Sent(Produce(Video))];
        if produceAcked {
          steps := steps + [Acked(Produce(Video))];
        }
      }
      OrderedAppendQuiet(log, steps);
      log := log + steps;
      r := if connectAcked && produceAcked then Media(stream) else Stalled;
    }

    /**
     * `publish`: nothing without a socket and a device; stop on an `error`
     * transport ack; otherwise take the stream from `getUserMedia` and, only
     * when one comes back, set `localStream` and then `isPublishing`.
     */
    method Publish(isWebcam: bool, transportAck: TransportAck, captureOk: bool,
                   connectAcked: bool, produceAcked: bool, stream: nat)
      returns (status: Completion)
      requires Valid()
      modifies this`isPublishing, this`localStream, this`log
      ensures Valid()
      ensures !socketPresent || device.None? ==>
        status == Returned && log == old(log) && isPublishing == old(isPublishing) && localStream == old(localStream)
      ensures socketPresent && device.Some? && transportAck.TransportError? ==>
        && status == Returned && isPublishing == old(isPublishing) && localStream == old(localStream)
        && log == old(log) + [Sent(CreateProducerTransport(false)), Acked(CreateProducerTransport(false))]
      ensures socketPresent && device.Some? && transportAck.TransportParameters? && !device.value.canProduceVideo ==>
        && status == Returned && !isPublishing && localStream == old(localStream)
        && log == old(log) + [Sent(CreateProducerTransport(false)), Acked(CreateProducerTransport(false)),
                              PublishingSet(false)]
      ensures socketPresent && device.Some? && transportAck.TransportParameters? && device.value.canProduceVideo ==>
        if !captureOk then
          && status == Threw && !isPublishing && localStream == old(localStream)
          && log == old(log) + [Sent(CreateProducerTransport(false)), Acked(CreateProducerTransport(false)),
                                CaptureRequested(if isWebcam then Webcam else Screen), PublishingSet(false)]
        else if !(connectAcked && produceAcked) then
          && status == Suspended && isPublishing == old(isPublishing) && localStream == old(localStream)
          && log == old(log) + [Sent(CreateProducerTransport(false)), Acked(CreateProducerTransport(false)),
                                CaptureRequested(if isWebcam then Webcam else Screen),
                                ProduceCalled(SimulcastOptions()), Sent(ConnectProducerTransport)]
                             + (if connectAcked then [Acked(ConnectProducerTransport), Sent(Produce(Video))] else [])
        else
          && status == Returned && isPublishing && localStream == Attached(stream)
          && log == old(log) + [Sent(CreateProducerTransport(false)), Acked(CreateProducerTransport(false)),
                                CaptureRequested(if isWebcam then Webcam else Screen),
                                ProduceCalled(SimulcastOptions()),
                                Sent(ConnectProducerTransport), Acked(ConnectProducerTransport),
                                Sent(Produce(Video)), Acked(Produce(Video)),
                                LocalStreamSet(Attached(stream)), PublishingSet(true)]
    {
      if !socketPresent || device.None? {
        return Returned;
      }
      var request := [Sent(CreateProducerTransport(false)), Acked(CreateProducerTransport(false))];
      OrderedAppendQuiet(log, request);
      log := log + request;
      if transportAck.TransportError? {
        return Returned;
      }
      ghost var beforeMedia := log;
      var media := GetUserMedia(isWebcam, captureOk, connectAcked, produceAcked, stream);
      match media {
        case NoMedia =>
          OrderedAppendQuiet(log, [PublishingSet(false)]);
          isPublishing := false;
          log := log + [PublishingSet(false)];
          status := Returned;
        case Failed =>
          status := Threw;
        case Stalled =>
          status := Suspended;
        case Media(s) =>
          var attach := [LocalStreamSet(Attached(s))];
          OrderedAppendQuiet(log, attach);
          var attached := log + attach;
          var n := |attached|;
          assert attached[n - 2] == Acked(Produce(Video));
          assert attached[..n - 2][|beforeMedia| + 3] == Acked(ConnectProducerTransport);
          assert StepOrdered(attached + [PublishingSet(true)], n) by {
            assert (attached + [PublishingSet(true)])[..n - 2] == attached[..n - 2];
          }
          OrderedAppend(attached, [PublishingSet(true)]);
          localStream := Attached(s);
          isPublishing := true;
          log := attached + [PublishingSet(true)];
          status := Returned;
      }
    }

    /**
     * `consume`: nothing without a socket and a device; request `consume`; an
     * empty answer makes the parameter destructuring throw; otherwise create
     * the local consumer, which makes the engine run the gated DTLS connect
     * round trip, and hand back a stream holding its track.
     */
    method ConsumeStream(consumeAck: ConsumeAck, connectAcked: bool, stream: nat) returns (r: MediaResult)
      requires Valid()
      modifies this`log
      ensures Valid()
      ensures !socketPresent || device.None? ==> r == NoMedia && log == old(log)
      ensures socketPresent && device.Some? ==>
        && r == (match consumeAck
                 case Unanswered => Stalled
                 case AnsweredEmpty => Failed
                 case AnsweredConsumer => if connectAcked then Media(stream) else Stalled)
        && log == old(log) + [Sent(Consume)]
             + (if consumeAck.Unanswered? then [] else [Acked(Consume)])
             + (if consumeAck.AnsweredConsumer? then [Sent(ConnectConsumerTransport)] else [])
             + (if consumeAck.AnsweredConsumer? && connectAcked then [Acked(ConnectConsumerTransport)] else [])
    {
      if !socketPresent || device.None? {
        return NoMedia;
      }
      var steps := [Sent(Consume)];
      match consumeAck {
        case Unanswered =>
          r := Stalled;
        case AnsweredEmpty =>
          steps := steps + [Acked(Consume)];
          r := Failed;
        case AnsweredConsumer =>
          steps := steps + [Acked(Consume), Sent(ConnectConsumerTransport)];
          if connectAcked {
            steps := steps + [Acked(ConnectConsumerTransport)];
            r := Media(stream);
          } else {
            r := Stalled;
          }
      }
      OrderedAppendQuiet(log, steps);
      log := log + steps;
    }

    /**
     * `subscribe`: nothing without a socket and a device; an `error` transport
     * ack clears `isSubscribed`; a stream is attached, `isSubscribed` set, and
     * only then `resume` requested (without waiting for its answer).
     */
    method Subscribe(transportAck: TransportAck, consumeAck: ConsumeAck, connectAcked: bool, stream: nat)
      returns (status: Completion)
      requires Valid()
      modifies this`isSubscribed, this`remoteStream, this`log
      ensures Valid()
      ensures !socketPresent || device.None? ==>
        status == Returned && log == old(log) && isSubscribed == old(isSubscribed) && remoteStream == old(remoteStream)
      ensures socketPresent && device.Some? && transportAck.TransportError? ==>
        && status == Returned && !isSubscribed && remoteStream == old(remoteStream)
        && log == old(log) + [Sent(CreateConsumerTransport(false)), Acked(CreateConsumerTransport(false)),
                              SubscribedSet(false)]
      ensures socketPresent && device.Some? && transportAck.TransportParameters? ==>
        match consumeAck
        case Unanswered =>
          && status == Suspended && isSubscribed == old(isSubscribed) && remoteStream == old(remoteStream)
          && log == old(log) + [Sent(CreateConsumerTransport(false)), Acked(CreateConsumerTransport(false)),
                                Sent(Consume)]
        case AnsweredEmpty =>
          && status == Threw && isSubscribed == old(isSubscribed) && remoteStream == old(remoteStream)
          && log == old(log) + [Sent(CreateConsumerTransport(false)), Acked(CreateConsumerTransport(false)),
                                Sent(Consume), Acked(Consume)]
        case AnsweredConsumer =>
          if !connectAcked then
            && status == Suspended && isSubscribed == old(isSubscribed) && remoteStream == old(remoteStream)
            && log == old(log) + [Sent(CreateConsumerTransport(false)), Acked(CreateConsumerTransport(false)),
                                  Sent(Consume), Acked(Consume), Sent(ConnectConsumerTransport)]
          else
            && status == Returned && isSubscribed && remoteStream == Attached(stream)
            && log == old(log) + [Sent(CreateConsumerTransport(false)), Acked(CreateConsumerTransport(false)),
                                  Sent(Consume), Acked(Consume),
                                  Sent(ConnectConsumerTransport), Acked(ConnectConsumerTransport),
                                  RemoteStreamSet(Attached(stream)), SubscribedSet(true), Sent(Resume)]
    {
      if !socketPresent || device.None? {
        return Returned;
      }
      var request := [Sent(CreateConsumerTransport(false)), Acked(CreateConsumerTransport(false))];
      OrderedAppendQuiet(log, request);
      log := log + request;
      if transportAck.TransportError? {
        OrderedAppendQuiet(log, [SubscribedSet(false)]);
        isSubscribed := false;
        log := log + [SubscribedSet(false)];
        return Returned;
      }
      ghost var beforeConsume := log;
      var media := ConsumeStream(consumeAck, connectAcked, stream);
      match media {
        case NoMedia =>
          // `consume` yields no stream only when its own socket/device guard
          // fails, and this method has already passed the same guard.
          assert false;
        case Failed =>
          status := Threw;
        case Stalled =>
          status := Suspended;
        case Media(s) =>
          var attach := [RemoteStreamSet(Attached(s))];
          OrderedAppendQuiet(log, attach);
          var attached := log + attach;
          var n := |attached|;
          assert attached[n - 2] == Acked(ConnectConsumerTransport);
          assert attached[..n - 2][|beforeConsume| + 1] == Acked(Consume);
          assert StepOrdered(attached + [SubscribedSet(true)], n) by {
            assert (attached + [SubscribedSet(true)])[..n - 2] == attached[..n - 2];
          }
          OrderedAppend(attached, [SubscribedSet(true)]);
          var subscribed := attached + [SubscribedSet(true)];
          assert StepOrdered(subscribed + [Sent(Resume)], n + 1);
          OrderedAppend(subscribed, [Sent(Resume)]);
          remoteStream := Attached(s);
          isSubscribed := true;
          log := subscribed + [Sent(Resume)];
          status := Returned;
      }
    }
  }
}
