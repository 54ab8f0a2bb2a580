/**
 * Vocabulary shared by the server coordinator and the two client variants:
 * the request names carried over the signaling socket, media kinds, and the
 * producer options a client hands to its send transport.
 */
module Signaling {

  datatype Option<+T> = None | Some(value: T)

  /** An engine or socket result that either carries a value or an error message. */
  datatype Result<+T> = Ok(value: T) | Err(message: string)

  datatype MediaKind = Audio | Video

  /** Which capture prompt a client opens: the camera or the screen picker. */
  datatype CaptureSource = Webcam | Screen

  /**
   * The request/acknowledgement round trips a client issues over the socket.
   * Payloads the server never inspects (RTP capabilities, DTLS parameters)
   * are left abstract.
   */
  datatype Request =
    | Join
    | GetRouterRtpCapabilities
    | CreateProducerTransport(forceTcp: bool)
    | CreateConsumerTransport(forceTcp: bool)
    | ConnectProducerTransport
    | ConnectConsumerTransport
    | Produce(kind: MediaKind)
    | Consume
    | Resume

  /** The acknowledgement of a transport-creation request as a client sees it: `{error}` or parameters. */
  datatype TransportAck = TransportError(message: string) | TransportParameters(transportId: string)

  /**
   * The acknowledgement of a `consume` request: none ever arrives (the server's
   * handler threw), an empty one (the server could not create a consumer), or
   * the consumer's parameters.
   */
  datatype ConsumeAck = Unanswered | AnsweredEmpty | AnsweredConsumer

  /** What a client passes to its send transport's `produce`, besides the track. */
  datatype ProducerOptions = ProducerOptions(encodings: seq<nat>, videoGoogleStartBitrate: Option<nat>)

  const SimulcastMaxBitrates: seq<nat> := [100000, 300000, 900000]
  const SimulcastStartBitrate: nat := 1000

  ghost predicate StrictlyIncreasing(s: seq<nat>) {
    forall i, j :: 0 <= i < j < |s| ==> s[i] < s[j]
  }

  /** The options of a simulcast publication: three layers of rising maximum bitrate. */
  function SimulcastOptions(): (o: ProducerOptions)
    ensures o.encodings == [100000, 300000, 900000] && StrictlyIncreasing(o.encodings)
    ensures o.videoGoogleStartBitrate == Some(1000)
  {
    ProducerOptions(SimulcastMaxBitrates, Some(SimulcastStartBitrate))
  }

  /** The options of a single-layer publication: the track alone. */
  function SingleLayerOptions(): ProducerOptions
  {
    ProducerOptions([], None)
  }
}
