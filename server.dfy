/**
 * The server's session coordinator: the process-wide slots for the current
 * producer, consumer and the two transports, the set of connected sockets,
 * and the socket handlers that overwrite those slots and emit messages.
 *
 * Every handler runs atomically. Calls into the media engine are replaced by
 * their outcome, passed in as a parameter. What the server sends is appended
 * to `outbox` as an envelope addressed to one socket; an acknowledgement is an
 * `Ack` envelope to the socket that asked, and a broadcast is one envelope per
 * other connected socket.
 */
module SessionCoordinator {
  import opened Signaling

  type SocketId = nat

  /** `maxIncomingBitrate` of the WebRTC transport configuration. */
  const MaxIncomingBitrate: nat := 1500000
  /** The layers asked of a simulcast consumer. */
  const PreferredSpatialLayer: nat := 2
  const PreferredTemporalLayer: nat := 2

  /** A server-side WebRTC transport as the engine allocated it. */
  datatype Transport = Transport(
    id: string,
    iceParameters: string,
    iceCandidates: string,
    dtlsParameters: string,
    maxIncomingBitrate: Option<nat>,        // set only if the engine accepted the limit
    remoteDtlsParameters: Option<string>)   // what `connect` forwarded, once it succeeded

  /** The parameters a client needs to build its side of a transport. */
  datatype TransportParams = TransportParams(id: string, iceParameters: string, iceCandidates: string, dtlsParameters: string)

  /** The engine's answer to a transport allocation: an error message or the new transport's identity. */
  datatype Allocation =
    | AllocationFailed(message: string)
    | Allocated(id: string, iceParameters: string, iceCandidates: string, dtlsParameters: string)

  datatype Producer = Producer(id: string, kind: MediaKind, rtpParameters: string)

  datatype ConsumerType = SimpleConsumer | SimulcastConsumer | SvcConsumer | PipeConsumer

  datatype Layers = Layers(spatialLayer: nat, temporalLayer: nat)

  datatype Consumer = Consumer(
    id: string,
    producerId: string,
    kind: MediaKind,
    rtpParameters: string,
    consumerType: ConsumerType,
    paused: bool,
    producerPaused: bool,
    preferredLayers: Option<Layers>)

  /** The engine's answer to `consumerTransport.consume`: it threw, or it created a consumer. */
  datatype ConsumeOutcome =
    | ConsumeFailed
    | ConsumeAllocated(id: string, rtpParameters: string, consumerType: ConsumerType, producerPaused: bool)

  /** The payload of an acknowledgement. `NoPayload` is `callback()` or `callback(undefined)`. */
  datatype Reply =
    | NoPayload
    | RouterCapabilities(caps: string)
    | Parameters(params: TransportParams)
    | ErrorPayload(error: string)
    | ProducerCreated(id: string)
    | ConsumerCreated(producerId: string, id: string, kind: MediaKind, rtpParameters: string,
                      consumerType: ConsumerType, producerPaused: bool)

  datatype Message = Joined | NewProducer | Ack(reply: Reply)

  datatype Envelope = Envelope(to: SocketId, message: Message)

  // ---------------------------------------------------------------------------
  // Transports

  /** The reply of a successful transport creation: exactly the four negotiated fields. */
  function ParamsOf(t: Transport): TransportParams
  {
    TransportParams(t.id, t.iceParameters, t.iceCandidates, t.dtlsParameters)
  }

  /**
   * `createWebRtcTransport`: allocate through the engine, then try to set the
   * incoming bitrate limit, ignoring any failure of that second call.
   */
  function CreateWebRtcTransport(allocation: Allocation, bitrateAccepted: bool): (r: Result<Transport>)
    ensures r.Err? <==> allocation.AllocationFailed?
    ensures r.Err? ==> r.message == allocation.message
    ensures r.Ok? ==> ParamsOf(r.value) == TransportParams(allocation.id, allocation.iceParameters,
                                                           allocation.iceCandidates, allocation.dtlsParameters)
    ensures r.Ok? ==> r.value.remoteDtlsParameters.None?
    ensures r.Ok? ==> (r.value.maxIncomingBitrate.Some? <==> bitrateAccepted)
  {
    match allocation
    case AllocationFailed(message) => Err(message)
    case Allocated(id, ice, candidates, dtls) =>
      var limit := if MaxIncomingBitrate != 0 && bitrateAccepted then Some(MaxIncomingBitrate) else None;
      Ok(Transport(id, ice, candidates, dtls, limit, None))
  }

  /** The parameters sent to a client depend on the four negotiated fields and on nothing else. */
  lemma ParamsIgnoreServerState(t: Transport, limit: Option<nat>, remote: Option<string>)
    ensures ParamsOf(t.(maxIncomingBitrate := limit, remoteDtlsParameters := remote)) == ParamsOf(t)
    ensures ParamsOf(t).id == t.id && ParamsOf(t).iceParameters == t.iceParameters
    ensures ParamsOf(t).iceCandidates == t.iceCandidates && ParamsOf(t).dtlsParameters == t.dtlsParameters
  {
  }

  // ---------------------------------------------------------------------------
  // Consumers

  /** What the code promises of every consumer it keeps in the slot. */
  ghost predicate ConsumerInvariant(c: Consumer) {
    && (c.paused ==> c.kind == Video)
    && c.preferredLayers == (if c.consumerType == SimulcastConsumer
                             then Some(Layers(PreferredSpatialLayer, PreferredTemporalLayer)) else None)
  }

  /**
   * The decision part of `createConsumer`: the router's `canConsume` verdict,
   * then the engine's `consume` (which throws, and is caught, when there is no
   * consumer transport or when the engine fails), asking for a paused
   * consumer exactly when the producer is a video producer; a simulcast
   * consumer is then asked for spatial layer 2, temporal layer 2.
   */
  function NewConsumer(producer: Producer, canConsume: bool, transport: Option<Transport>,
                       outcome: ConsumeOutcome): (r: Option<Consumer>)
    ensures r.Some? <==> canConsume && transport.Some? && outcome.ConsumeAllocated?
    ensures r.Some? ==> r.value.producerId == producer.id && r.value.kind == producer.kind
    ensures r.Some? ==> r.value.id == outcome.id && r.value.consumerType == outcome.consumerType
    ensures r.Some? ==> r.value.rtpParameters == outcome.rtpParameters && r.value.producerPaused == outcome.producerPaused
    ensures r.Some? ==> (r.value.paused <==> producer.kind == Video)
    ensures r.Some? ==> ConsumerInvariant(r.value)
  {
    if !canConsume then None
    else if transport.None? then None
    else match outcome
      case ConsumeFailed => None
      case ConsumeAllocated(id, rtpParameters, consumerType, producerPaused) =>
        var layers := if consumerType == SimulcastConsumer
                      then Some(Layers(PreferredSpatialLayer, PreferredTemporalLayer)) else None;
        Some(Consumer(id, producer.id, producer.kind, rtpParameters, consumerType,
                      producer.kind == Video, producerPaused, layers))
  }

  /** The consumer after `resume`. */
  function Resumed(c: Consumer): (r: Consumer)
    ensures !r.paused && r.(paused := c.paused) == c
  {
    c.(paused := false)
  }

  /** Resuming keeps the consumer invariant, and resuming twice is resuming once. */
  lemma ResumeIdempotent(c: Consumer)
    ensures ConsumerInvariant(c) ==> ConsumerInvariant(Resumed(c))
    ensures Resumed(Resumed(c)) == Resumed(c)
    ensures !c.paused ==> Resumed(c) == c
  {
  }

  // ---------------------------------------------------------------------------
  // Delivery

  ghost predicate Distinct(s: seq<SocketId>) {
    forall i, j :: 0 <= i < j < |s| ==> s[i] != s[j]
  }

  /** `socket.broadcast.emit(m)`: one envelope to every connected socket except the sender. */
  function Broadcast(sockets: seq<SocketId>, sender: SocketId, m: Message): (out: seq<Envelope>)
    ensures |out| <= |sockets|
    ensures forall e <- out :: e.to in sockets && e.to != sender && e.message == m
  {
    if sockets == [] then []
    else (if sockets[0] == sender then [] else [Envelope(sockets[0], m)]) + Broadcast(sockets[1..], sender, m)
  }

  /** How many copies of `m` the envelopes `out` deliver to socket `to`. */
  function Count(out: seq<Envelope>, to: SocketId, m: Message): nat
  {
    if out == [] then 0
    else (if out[0] == Envelope(to, m) then 1 else 0) + Count(out[1..], to, m)
  }

  lemma {:induction false} CountAppend(a: seq<Envelope>, b: seq<Envelope>, to: SocketId, m: Message)
    ensures Count(a + b, to, m) == Count(a, to, m) + Count(b, to, m)
  {
    if a == [] {
      assert a + b == b;
    } else {
      assert (a + b)[1..] == a[1..] + b;
      CountAppend(a[1..], b, to, m);
    }
  }

  /** A broadcast reaches every other connected socket exactly once and the sender never. */
  lemma {:induction false} BroadcastReachesOthersOnce(sockets: seq<SocketId>, sender: SocketId, m: Message, r: SocketId)
    requires Distinct(sockets)
    ensures Count(Broadcast(sockets, sender, m), r, m) == Reached(sockets, sender, r)
  {
    if sockets != [] {
      var head: seq<Envelope> := if sockets[0] == sender then [] else [Envelope(sockets[0], m)];
      assert Distinct(sockets[1..]);
      BroadcastReachesOthersOnce(sockets[1..], sender, m, r);
      CountAppend(head, Broadcast(sockets[1..], sender, m), r, m);
      assert sockets == [sockets[0]] + sockets[1..];
      assert sockets[0] !in sockets[1..];
      if head != [] {
        assert head[1..] == [];
      }
    }
  }

  /** The connected sockets after `s` leaves: the same sockets in the same order, without `s`. */
  function Without(sockets: seq<SocketId>, s: SocketId): (r: seq<SocketId>)
    ensures forall x :: x in r <==> x in sockets && x != s
    ensures Distinct(sockets) ==> Distinct(r)
  {
    if sockets == [] then []
    else if sockets[0] == s then Without(sockets[1..], s)
    else
      var rest := Without(sockets[1..], s);
      assert Distinct(sockets) ==> Distinct(sockets[1..]) && sockets[0] !in rest;
      DistinctCons(sockets[0], rest);
      [sockets[0]] + rest
  }

  lemma DistinctCons(x: SocketId, r: seq<SocketId>)
    ensures Distinct(r) && x !in r ==> Distinct([x] + r)
  {
    if Distinct(r) && x !in r {
      forall i, j | 0 <= i < j < |[x] + r|
        ensures ([x] + r)[i] != ([x] + r)[j]
      {
        if i > 0 {
          assert ([x] + r)[i] == r[i - 1];
        }
        assert ([x] + r)[j] == r[j - 1];
      }
    }
  }

  /** 1 if a broadcast from `sender` over `sockets` is meant to reach `r`, else 0. */
  function Reached(sockets: seq<SocketId>, sender: SocketId, r: SocketId): nat
  {
    if r in sockets && r != sender then 1 else 0
  }

  // ---------------------------------------------------------------------------
  // The coordinator

  class Coordinator {
    const routerRtpCapabilities: string
    var producer: Option<Producer>
    var consumer: Option<Consumer>
    var producerTransport: Option<Transport>
    var consumerTransport: Option<Transport>
    var sockets: seq<SocketId>   // connected sockets, in connection order
    var outbox: seq<Envelope>    // everything sent, in order

    ghost predicate Valid()
      reads this
    {
      && Distinct(sockets)
      && (consumer.Some? ==> ConsumerInvariant(consumer.value))
    }

    /** The state once the router exists: every slot empty, nobody connected. */
    constructor (routerRtpCapabilities: string)
      ensures Valid()
      ensures this.routerRtpCapabilities == routerRtpCapabilities
      ensures producer.None? && consumer.None? && producerTransport.None? && consumerTransport.None?
      ensures sockets == [] && outbox == []
    {
      this.routerRtpCapabilities := routerRtpCapabilities;
      producer, consumer := None, None;
      producerTransport, consumerTransport := None, None;
      sockets, outbox := [], [];
    }

    /** `connection`: a new socket joins the connected set and hears `newProducer` iff a producer exists. */
    method OnConnection(s: SocketId)
      requires Valid() && s !in sockets
      modifies this
      ensures Valid()
      ensures sockets == old(sockets) + [s]
      ensures outbox == old(outbox) + (if old(producer).Some? then [Envelope(s, NewProducer)] else [])
      ensures Count(outbox, s, NewProducer) == Count(old(outbox), s, NewProducer) + (if producer.Some? then 1 else 0)
      ensures producer == old(producer) && consumer == old(consumer)
      ensures producerTransport == old(producerTransport) && consumerTransport == old(consumerTransport)
    {
      assert Distinct(sockets + [s]);
      sockets := sockets + [s];
      if producer.Some? {
        CountAppend(outbox, [Envelope(s, NewProducer)], s, NewProducer);
        outbox := outbox + [Envelope(s, NewProducer)];
      }
    }

    /** `disconnect`: the handler only logs; the socket leaves the broadcast set, and no slot is released. */
    method OnDisconnect(s: SocketId)
      requires Valid()
      modifies this
      ensures Valid()
      ensures forall x :: x in sockets <==> x in old(sockets) && x != s
      ensures outbox == old(outbox)
      ensures producer == old(producer) && consumer == old(consumer)
      ensures producerTransport == old(producerTransport) && consumerTransport == old(consumerTransport)
    {
      sockets := Without(sockets, s);
    }

    /** `join`: one `joined` to the caller; no slot changes, and no acknowledgement is sent. */
    method OnJoin(s: SocketId)
      requires Valid() && s in sockets
      modifies this
      ensures Valid()
      ensures outbox == old(outbox) + [Envelope(s, Joined)]
      ensures Count(outbox, s, Joined) == Count(old(outbox), s, Joined) + 1
      ensures sockets == old(sockets)
      ensures producer == old(producer) && consumer == old(consumer)
      ensures producerTransport == old(producerTransport) && consumerTransport == old(consumerTransport)
    {
      CountAppend(outbox, [Envelope(s, Joined)], s, Joined);
      outbox := outbox + [Envelope(s, Joined)];
    }

    /** `getRouterRtpCapabilities`: acknowledge with the router's capabilities; change nothing. */
    method OnGetRouterRtpCapabilities(s: SocketId)
      requires Valid() && s in sockets
      modifies this
      ensures Valid()
      ensures outbox == old(outbox) + [Envelope(s, Ack(RouterCapabilities(routerRtpCapabilities)))]
      ensures sockets == old(sockets)
      ensures producer == old(producer) && consumer == old(consumer)
      ensures producerTransport == old(producerTransport) && consumerTransport == old(consumerTransport)
    {
      outbox := outbox + [Envelope(s, Ack(RouterCapabilities(routerRtpCapabilities)))];
    }

    /**
     * `createProducerTransport`: on success the new transport replaces the
     * producer-transport slot and its parameters are acknowledged; on failure
     * the acknowledgement is `{error: message}` and the slot keeps its value.
     */
    method OnCreateProducerTransport(s: SocketId, allocation: Allocation, bitrateAccepted: bool)
      requires Valid() && s in sockets
      modifies this
      ensures Valid()
      ensures match CreateWebRtcTransport(allocation, bitrateAccepted)
        case Ok(t) =>
          && producerTransport == Some(t)
          && outbox == old(outbox) + [Envelope(s, Ack(Parameters(ParamsOf(t))))]
        case Err(message) =>
          && producerTransport == old(producerTransport)
          && outbox == old(outbox) + [Envelope(s, Ack(ErrorPayload(message)))]
      ensures consumerTransport == old(consumerTransport)
      ensures sockets == old(sockets) && producer == old(producer) && consumer == old(consumer)
    {
      var created := CreateWebRtcTransport(allocation, bitrateAccepted);
      match created {
        case Ok(t) =>
          producerTransport := Some(t);
          outbox := outbox + [Envelope(s, Ack(Parameters(ParamsOf(t))))];
        case Err(message) =>
          outbox := outbox + [Envelope(s, Ack(ErrorPayload(message)))];
      }
    }

    /** `createConsumerTransport`: as above, for the consumer-transport slot. */
    method OnCreateConsumerTransport(s: SocketId, allocation: Allocation, bitrateAccepted: bool)
      requires Valid() && s in sockets
      modifies this
      ensures Valid()
      ensures match CreateWebRtcTransport(allocation, bitrateAccepted)
        case Ok(t) =>
          && consumerTransport == Some(t)
          && outbox == old(outbox) + [Envelope(s, Ack(Parameters(ParamsOf(t))))]
        case Err(message) =>
          && consumerTransport == old(consumerTransport)
          && outbox == old(outbox) + [Envelope(s, Ack(ErrorPayload(message)))]
      ensures producerTransport == old(producerTransport)
      ensures sockets == old(sockets) && producer == old(producer) && consumer == old(consumer)
    {
      var created := CreateWebRtcTransport(allocation, bitrateAccepted);
      match created {
        case Ok(t) =>
          consumerTransport := Some(t);
          outbox := outbox + [Envelope(s, Ack(Parameters(ParamsOf(t))))];
        case Err(message) =>
          outbox := outbox + [Envelope(s, Ack(ErrorPayload(message)))];
      }
    }

    /**
     * `connectProducerTransport`: forward the client's DTLS parameters to the
     * current producer transport. An engine failure rejects the handler, so
     * nothing is acknowledged.
     */
    method OnConnectProducerTransport(s: SocketId, dtlsParameters: string, engineAccepted: bool)
      requires Valid() && s in sockets && producerTransport.Some?
      modifies this
      ensures Valid()
      ensures producerTransport == if engineAccepted
        then Some(old(producerTransport).value.(remoteDtlsParameters := Some(dtlsParameters)))
        else old(producerTransport)
      ensures outbox == old(outbox) + (if engineAccepted then [Envelope(s, Ack(NoPayload))] else [])
      ensures consumerTransport == old(consumerTransport)
      ensures sockets == old(sockets) && producer == old(producer) && consumer == old(consumer)
    {
      if engineAccepted {
        producerTransport := Some(producerTransport.value.(remoteDtlsParameters := Some(dtlsParameters)));
        outbox := outbox + [Envelope(s, Ack(NoPayload))];
      }
    }

    /** `connectConsumerTransport`: as above, for the consumer transport; the request's transport id is ignored. */
    method OnConnectConsumerTransport(s: SocketId, dtlsParameters: string, engineAccepted: bool)
      requires Valid() && s in sockets && consumerTransport.Some?
      modifies this
      ensures Valid()
      ensures consumerTransport == if engineAccepted
        then Some(old(consumerTransport).value.(remoteDtlsParameters := Some(dtlsParameters)))
        else old(consumerTransport)
      ensures outbox == old(outbox) + (if engineAccepted then [Envelope(s, Ack(NoPayload))] else [])
      ensures producerTransport == old(producerTransport)
      ensures sockets == old(sockets) && producer == old(producer) && consumer == old(consumer)
    {
      if engineAccepted {
        consumerTransport := Some(consumerTransport.value.(remoteDtlsParameters := Some(dtlsParameters)));
        outbox := outbox + [Envelope(s, Ack(NoPayload))];
      }
    }

    /**
     * `produce`: the engine's new producer (its id is `created`) replaces the
     * producer slot, the caller is acknowledged with that id, and then every
     * other connected socket hears `newProducer` once. An engine failure
     * rejects the handler: nothing changes and nothing is sent.
     */
    method OnProduce(s: SocketId, kind: MediaKind, rtpParameters: string, created: Option<string>)
      requires Valid() && s in sockets && producerTransport.Some?
      modifies this
      ensures Valid()
      ensures created.None? ==> producer == old(producer) && outbox == old(outbox)
      ensures created.Some? ==>
        && producer == Some(Producer(created.value, kind, rtpParameters))
        && outbox == old(outbox) + [Envelope(s, Ack(ProducerCreated(created.value)))]
                                 + Broadcast(sockets, s, NewProducer)
      ensures created.Some? ==>
        forall r :: Count(outbox, r, NewProducer) == Count(old(outbox), r, NewProducer) + Reached(sockets, s, r)
      ensures sockets == old(sockets) && consumer == old(consumer)
      ensures producerTransport == old(producerTransport) && consumerTransport == old(consumerTransport)
    {
      if created.Some? {
        producer := Some(Producer(created.value, kind, rtpParameters));
        var ack := [Envelope(s, Ack(ProducerCreated(created.value)))];
        var others := Broadcast(sockets, s, NewProducer);
        forall r
          ensures Count(outbox + ack + others, r, NewProducer) == Count(outbox, r, NewProducer) + Reached(sockets, s, r)
        {
          CountAppend(outbox + ack, others, r, NewProducer);
          CountAppend(outbox, ack, r, NewProducer);
          CountAppend(ack, [], r, NewProducer);
          assert ack + [] == ack;
          BroadcastReachesOthersOnce(sockets, s, NewProducer, r);
        }
        outbox := outbox + ack + others;
      }
    }

    /**
     * `createConsumer` for the given producer: the consumer slot takes the new
     * consumer only when one is created; the reply is the consumer's
     * parameters with the producer's id, or nothing.
     */
    method CreateConsumer(p: Producer, canConsume: bool, outcome: ConsumeOutcome) returns (reply: Reply)
      requires Valid()
      modifies this`consumer
      ensures Valid()
      ensures match NewConsumer(p, canConsume, consumerTransport, outcome)
        case None =>
          consumer == old(consumer) && reply == NoPayload
        case Some(c) =>
          && consumer == Some(c)
          && reply == ConsumerCreated(p.id, c.id, c.kind, c.rtpParameters, c.consumerType, c.producerPaused)
    {
      var created := NewConsumer(p, canConsume, consumerTransport, outcome);
      match created {
        case None =>
          reply := NoPayload;
        case Some(c) =>
          consumer := Some(c);
          reply := ConsumerCreated(p.id, c.id, c.kind, c.rtpParameters, c.consumerType, c.producerPaused);
      }
    }

    /** `consume`: acknowledge with whatever `createConsumer` returns for the current producer. */
    method OnConsume(s: SocketId, canConsume: bool, outcome: ConsumeOutcome)
      requires Valid() && s in sockets && producer.Some?
      modifies this
      ensures Valid()
      ensures match NewConsumer(old(producer).value, canConsume, old(consumerTransport), outcome)
        case None =>
          && consumer == old(consumer)
          && outbox == old(outbox) + [Envelope(s, Ack(NoPayload))]
        case Some(c) =>
          && consumer == Some(c)
          && (c.paused <==> old(producer).value.kind == Video)
          && outbox == old(outbox) + [Envelope(s, Ack(ConsumerCreated(old(producer).value.id, c.id, c.kind,
                                                        c.rtpParameters, c.consumerType, c.producerPaused)))]
      ensures sockets == old(sockets) && producer == old(producer)
      ensures producerTransport == old(producerTransport) && consumerTransport == old(consumerTransport)
    {
      var reply := CreateConsumer(producer.value, canConsume, outcome);
      outbox := outbox + [Envelope(s, Ack(reply))];
    }

    /** `resume`: unpause the current consumer and acknowledge; an engine failure sends nothing. */
    method OnResume(s: SocketId, engineAccepted: bool)
      requires Valid() && s in sockets && consumer.Some?
      modifies this
      ensures Valid()
      ensures consumer == if engineAccepted then Some(Resumed(old(consumer).value)) else old(consumer)
      ensures outbox == old(outbox) + (if engineAccepted then [Envelope(s, Ack(NoPayload))] else [])
      ensures sockets == old(sockets) && producer == old(producer)
      ensures producerTransport == old(producerTransport) && consumerTransport == old(consumerTransport)
    {
      if engineAccepted {
        ResumeIdempotent(consumer.value);
        consumer := Some(Resumed(consumer.value));
        outbox := outbox + [Envelope(s, Ack(NoPayload))];
      }
    }
  }

  /**
   * Two clients against one coordinator: A publishes a video track, B (already
   * connected) hears about it, consumes it paused, and resumes it.
   */
  method PublishThenSubscribe()
  {
    var a, b := 1, 2;
    var server := new Coordinator("opus+vp8");
    server.OnConnection(a);
    server.OnConnection(b);
    server.OnJoin(a);
    server.OnGetRouterRtpCapabilities(a);
    server.OnCreateProducerTransport(a, Allocated("t1", "ice", "candidates", "dtls"), true);
    assert server.producerTransport.value.id == "t1";
    server.OnConnectProducerTransport(a, "D", true);
    ghost var before := server.outbox;
    server.OnProduce(a, Video, "P", Some("p1"));
    assert Count(server.outbox, b, NewProducer) == Count(before, b, NewProducer) + 1;
    assert Count(server.outbox, a, NewProducer) == Count(before, a, NewProducer);
    server.OnCreateConsumerTransport(b, Allocated("t2", "ice", "candidates", "dtls"), true);
    server.OnConnectConsumerTransport(b, "D2", true);
    server.OnConsume(b, true, ConsumeAllocated("c1", "R", SimpleConsumer, false));
    assert server.consumer.Some? && server.consumer.value.paused && server.consumer.value.producerId == "p1";
    server.OnResume(b, true);
    assert !server.consumer.value.paused;
  }
}
