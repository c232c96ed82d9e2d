/** The per-connection request handlers. A connection is tagged with its server-generated
    peer id, joins the shared room on arrival, and answers each request through the
    `{result}` / `{error}` envelope. Each handler runs as one atomic step; the media
    engine's reply to the one call it may make is a parameter, and the ghost `calls`
    out-parameter lists the requests the handler issued to the engine. */
module Handlers {
  import opened Types
  import Transports
  import Rooms

  datatype CreateTransportReply = CreateTransportReply(transportOptions: TransportOptions)
  datatype SendTrackReply = SendTrackReply(id: ProducerId)

  /** `{ ...appData, peerId, transportId }`: the client's metadata with the caller's peer id
      and the transport id written over any keys of those names. */
  function Stamp(appData: AppData, peerId: PeerId, transportId: TransportId): (r: AppData)
    ensures "peerId" in r && r["peerId"] == peerId
    ensures "transportId" in r && r["transportId"] == transportId
    ensures r.Keys == appData.Keys + {"peerId", "transportId"}
    ensures forall k :: k in appData && k != "peerId" && k != "transportId" ==> r[k] == appData[k]
  {
    appData["peerId" := peerId]["transportId" := transportId]
  }

  /** The `receiveTrack` reply: the selected producer's id and the consumer's fields. */
  function Describe(producerId: ProducerId, c: Consumer): (d: ConsumerDescriptor)
    ensures d.producerId == producerId
    ensures d.id == c.id && d.kind == c.kind && d.rtpParameters == c.rtpParameters
    ensures d.consumerType == c.consumerType && d.producerPaused == c.producerPaused
  {
    ConsumerDescriptor(producerId, c.id, c.kind, c.rtpParameters, c.consumerType, c.producerPaused)
  }

  class Connection {
    const room: Rooms.Room
    const peerId: PeerId

    ghost predicate Invariant()
      reads this, room
    {
      room.Coherent() && peerId in room.peers
    }

    /** A new socket: the room gains an entry for the connection's (fresh) peer id. */
    constructor (room: Rooms.Room, peerId: PeerId, joinTime: Time, lastSeenTime: Time)
      requires room.Coherent()
      modifies room`peers
      ensures this.room == room && this.peerId == peerId
      ensures Invariant()
      ensures room.peers == old(room.peers)[peerId := Rooms.NewPeer(joinTime, lastSeenTime)]
    {
      this.room := room;
      this.peerId := peerId;
      new;
      room.JoinPeer(peerId, joinTime, lastSeenTime);
    }

    /** `getRouterRtpCapabilities`: always resolves, with the router's fixed capabilities. */
    method GetRouterRtpCapabilities() returns (reply: Ack<RtpCapabilities>)
      requires Invariant()
      ensures reply.AckResult? && reply.result == room.router.rtpCapabilities
    {
      reply := Acknowledge(Resolved(room.GetRtpCapabilities()));
    }

    /** `createTransport`: creates a transport owned by this peer in `direction`, stores it
        (the second store, `addTransport`, finds it already there) and shows the client
        the engine's fields only. `created` is the engine's reply. */
    method CreateTransport(direction: string, created: Settled<TransportOptions>)
      returns (reply: Ack<CreateTransportReply>, ghost calls: seq<EngineCall>)
      requires Invariant()
      modifies room`transports
      ensures Invariant()
      ensures calls == [CreateWebRtcTransport(TransportAppData(peerId, direction))]
      ensures created.Rejected? ==>
        reply == AckError(created.error) && room.transports == old(room.transports)
      ensures created.Resolved? ==>
        var t := Transports.Tag(created.value, TransportAppData(peerId, direction));
        && reply == AckResult(CreateTransportReply(created.value))
        && room.transports == Transports.Put(old(room.transports), t)
        && room.GetTransport(created.value.id) == Some(t)
    {
      calls := [CreateWebRtcTransport(TransportAppData(peerId, direction))];
      var result := room.CreateTransport(peerId, direction, created);
      var outcome: Settled<CreateTransportReply>;
      match result {
        case Rejected(e) =>
          outcome := Rejected(e);
        case Resolved(t) =>
          room.AddTransport(t);
          outcome := Resolved(CreateTransportReply(Transports.Pick(t)));
      }
      reply := Acknowledge(outcome);
    }

    /** `connectTransport`: an unknown id is refused without reaching the engine; otherwise
        the engine's `connect` decides, and success answers `true`. */
    method ConnectTransport(transportId: TransportId, dtlsParameters: DtlsParameters, connected: Settled<()>)
      returns (reply: Ack<bool>, ghost calls: seq<EngineCall>)
      requires Invariant()
      ensures transportId !in room.transports.byId ==>
        && reply == AckError(TransportNotFound(transportId)) && calls == []
        && Message(reply.error) == "Server side transport " + transportId + " not found"
      ensures transportId in room.transports.byId ==>
        && calls == [Connect(transportId, dtlsParameters)]
        && (reply.AckResult? <==> connected.Resolved?)
        && (reply.AckResult? ==> reply.result)
        && (connected.Rejected? ==> reply == AckError(connected.error))
    {
      var transport := room.GetTransport(transportId);
      var outcome: Settled<bool>;
      if transport.None? {
        calls := [];
        outcome := Rejected(TransportNotFound(transportId));
      } else {
        calls := [Connect(transport.value.id, dtlsParameters)];
        match connected {
          case Rejected(e) =>
            outcome := Rejected(e);
          case Resolved(_) =>
            outcome := Resolved(true);
        }
      }
      reply := Acknowledge(outcome);
    }

    /** `sendTrack`: an unknown transport is refused before any producer exists. Otherwise
        the engine produces on it with stamped metadata (`produced` is the new producer's id
        or the engine's refusal) and the producer fills the video slot when `kind` is
        "video", the audio slot for any other kind. */
    method SendTrack(transportId: TransportId, kind: string, rtpParameters: RtpParameters, appData: AppData,
                     produced: Settled<ProducerId>)
      returns (reply: Ack<SendTrackReply>, ghost calls: seq<EngineCall>)
      requires Invariant()
      modifies room`videoProducer, room`audioProducer
      ensures Invariant()
      ensures transportId !in room.transports.byId ==>
        && reply == AckError(TransportDoesNotExist(transportId)) && calls == []
        && Message(reply.error) == "Transport " + transportId + " does not exist"
        && room.videoProducer == old(room.videoProducer) && room.audioProducer == old(room.audioProducer)
      ensures transportId in room.transports.byId ==>
        calls == [Produce(transportId, kind, rtpParameters, false, Stamp(appData, peerId, transportId))]
      ensures produced.Rejected? ==>
        && room.videoProducer == old(room.videoProducer) && room.audioProducer == old(room.audioProducer)
        && (transportId in room.transports.byId ==> reply == AckError(produced.error))
      ensures transportId in room.transports.byId && produced.Resolved? ==>
        var p := Producer(produced.value, kind, Stamp(appData, peerId, transportId));
        && reply == AckResult(SendTrackReply(produced.value))
        && (kind == "video" ==> room.videoProducer == Some(p) && room.audioProducer == old(room.audioProducer))
        && (kind != "video" ==> room.audioProducer == Some(p) && room.videoProducer == old(room.videoProducer))
    {
      var transport := room.GetTransport(transportId);
      var outcome: Settled<SendTrackReply>;
      if transport.None? {
        calls := [];
        outcome := Rejected(TransportDoesNotExist(transportId));
      } else {
        var stamped := Stamp(appData, peerId, transportId);
        calls := [Produce(transportId, kind, rtpParameters, false, stamped)];
        match produced {
          case Rejected(e) =>
            outcome := Rejected(e);
          case Resolved(id) =>
            var p := Producer(id, kind, stamped);
            if kind == "video" {
              room.SetVideoProducer(p);
            } else {
              room.SetAudioProducer(p);
            }
            outcome := Resolved(SendTrackReply(id));
        }
      }
      reply := Acknowledge(outcome);
    }

    /** The producer `receiveTrack` asks for: video iff `mediaType` is "video". */
    function Selected(mediaType: string): (p: Option<Producer>)
      reads this, room
      ensures mediaType == "video" ==> p == room.videoProducer
      ensures mediaType != "video" ==> p == room.audioProducer
    {
      if mediaType == "video" then room.GetVideoProducer() else room.GetAudioProducer()
    }

    /** `receiveTrack`: consumes the selected producer on this peer's first receive
        transport. A missing producer or a missing receive transport is dereferenced as
        `undefined` and rejects; an incompatible capability set rejects before the
        transport is looked up. `consumed` is the engine's reply to `consume`. */
    method ReceiveTrack(mediaType: string, rtpCapabilities: RtpCapabilities, consumed: Settled<Consumer>)
      returns (reply: Ack<ConsumerDescriptor>, ghost calls: seq<EngineCall>)
      requires Invariant()
      ensures Selected(mediaType).None? ==>
        reply == AckError(UndefinedDereference("id")) && calls == []
      ensures Selected(mediaType).Some? && !room.router.canConsume(Selected(mediaType).value.id, rtpCapabilities) ==>
        reply == AckError(CannotConsume) && calls == [] && Message(reply.error) == "Can't consume this producer"
      ensures Selected(mediaType).Some? && room.router.canConsume(Selected(mediaType).value.id, rtpCapabilities) ==>
        var receiver := Transports.FirstMatch(Transports.Values(room.transports), peerId, "receive");
        && (receiver.None? ==> reply == AckError(UndefinedDereference("consume")) && calls == [])
        && (receiver.Some? ==>
              && receiver.value.appData == TransportAppData(peerId, "receive")
              && calls == [Consume(receiver.value.id, Selected(mediaType).value.id, rtpCapabilities, false,
                                   ConsumerAppData(peerId, mediaType))]
              && (consumed.Rejected? ==> reply == AckError(consumed.error))
              && (consumed.Resolved? ==>
                    reply == AckResult(Describe(Selected(mediaType).value.id, consumed.value))))
      ensures reply.AckResult? ==>
        && Selected(mediaType).Some?
        && reply.result.producerId == Selected(mediaType).value.id
        && consumed.Resolved? && reply.result.id == consumed.value.id
    {
      var producer := Selected(mediaType);
      var outcome: Settled<ConsumerDescriptor>;
      if producer.None? {
        calls := [];
        outcome := Rejected(UndefinedDereference("id"));
      } else if !room.CanConsume(producer.value.id, rtpCapabilities) {
        calls := [];
        outcome := Rejected(CannotConsume);
      } else {
        var transport := room.GetTransportByPeerId(peerId, "receive");
        if transport.None? {
          calls := [];
          outcome := Rejected(UndefinedDereference("consume"));
        } else {
          Transports.FirstMatchIsFirst(Transports.Values(room.transports), peerId, "receive");
          calls := [Consume(transport.value.id, producer.value.id, rtpCapabilities, false,
                            ConsumerAppData(peerId, mediaType))];
          match consumed {
            case Rejected(e) =>
              outcome := Rejected(e);
            case Resolved(c) =>
              outcome := Resolved(Describe(producer.value.id, c));
          }
        }
      }
      reply := Acknowledge(outcome);
    }
  }
}
