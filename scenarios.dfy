/** Whole sessions driven through the handlers, as a client would see them. */
module Scenarios {
  import opened Types
  import Transports
  import Rooms
  import Handlers

  /** Peer A joins a new room, creates and connects a send transport and publishes video. */
  method PublishVideo(
    router: Router, a: PeerId, t: Time, sendOptions: TransportOptions, dtls: DtlsParameters,
    producerId: ProducerId, rtpParameters: RtpParameters)
    returns (room: Rooms.Room)
    ensures fresh(room) && room.Coherent() && room.router == router
    ensures room.transports == Transports.Put(Transports.Empty, Transports.Tag(sendOptions, TransportAppData(a, "send")))
    ensures room.videoProducer.Some? && room.videoProducer.value.id == producerId
  {
    ghost var calls: seq<EngineCall>;
    room := new Rooms.Room(router);
    var alice := new Handlers.Connection(room, a, t, t);
    var created, connected, sent;
    created, calls := alice.CreateTransport("send", Resolved(sendOptions));
    connected, calls := alice.ConnectTransport(sendOptions.id, dtls, Resolved(()));
    sent, calls := alice.SendTrack(sendOptions.id, "video", rtpParameters, map[], Resolved(producerId));
  }

  /** Peer A publishes video on a send transport; peer B opens a receive transport and
      asks for video with capabilities the router accepts: B consumes A's producer on
      B's receive transport. */
  method VideoPublishThenConsume(
    router: Router, a: PeerId, b: PeerId, t0: Time, t1: Time,
    sendOptions: TransportOptions, receiveOptions: TransportOptions, dtls: DtlsParameters,
    producerId: ProducerId, rtpParameters: RtpParameters, caps: RtpCapabilities, consumer: Consumer)
    returns (reply: Ack<ConsumerDescriptor>)
    requires a != b && sendOptions.id != receiveOptions.id
    requires router.canConsume(producerId, caps)
    ensures reply == AckResult(Handlers.Describe(producerId, consumer))
    ensures reply.result.producerId == producerId && reply.result.id == consumer.id
  {
    ghost var calls: seq<EngineCall>;
    var room := PublishVideo(router, a, t0, sendOptions, dtls, producerId, rtpParameters);
    ghost var sendT := Transports.Tag(sendOptions, TransportAppData(a, "send"));
    ghost var receiveT := Transports.Tag(receiveOptions, TransportAppData(b, "receive"));
    ghost var afterSend := Transports.Put(Transports.Empty, sendT);

    var bob := new Handlers.Connection(room, b, t1, t1);
    var created;
    created, calls := bob.CreateTransport("receive", Resolved(receiveOptions));
    assert room.transports == Transports.Put(afterSend, receiveT);
    Transports.ValuesAfterPutFresh(Transports.Empty, sendT);
    Transports.ValuesAfterPutFresh(afterSend, receiveT);
    assert Transports.Values(room.transports) == [sendT, receiveT];
    assert Transports.FirstMatch([sendT, receiveT], b, "receive") == Some(receiveT) by {
      assert [sendT, receiveT][1..] == [receiveT];
    }
    reply, calls := bob.ReceiveTrack("video", caps, Resolved(consumer));
  }

  /** Asking for audio before anyone has published audio rejects: the empty slot is
      dereferenced, whatever the engine would answer. */
  method AudioBeforePublish(router: Router, b: PeerId, t: Time, caps: RtpCapabilities, consumed: Settled<Consumer>)
    returns (reply: Ack<ConsumerDescriptor>)
    ensures reply == AckError(UndefinedDereference("id"))
  {
    ghost var calls: seq<EngineCall>;
    var room := new Rooms.Room(router);
    var bob := new Handlers.Connection(room, b, t, t);
    reply, calls := bob.ReceiveTrack("audio", caps, consumed);
  }

  /** Two video publications in a row: only the second producer remains in the slot. */
  method VideoReplacedBySecondPublish(
    router: Router, a: PeerId, t: Time, options: TransportOptions,
    first: ProducerId, second: ProducerId, rtpParameters: RtpParameters)
    returns (slot: Option<Producer>)
    ensures slot.Some? && slot.value.id == second
  {
    ghost var calls: seq<EngineCall>;
    var room := new Rooms.Room(router);
    var alice := new Handlers.Connection(room, a, t, t);
    var created, sent;
    created, calls := alice.CreateTransport("send", Resolved(options));
    sent, calls := alice.SendTrack(options.id, "video", rtpParameters, map[], Resolved(first));
    sent, calls := alice.SendTrack(options.id, "video", rtpParameters, map[], Resolved(second));
    slot := room.GetVideoProducer();
  }
}
