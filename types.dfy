/** Values exchanged between the room, the socket handlers and the media engine.
    Everything the media engine owns (ICE and DTLS parameters, RTP parameters and
    capabilities) is opaque here and carried as text. */
module Types {

  type PeerId = string
  type TransportId = string
  type ProducerId = string
  type ConsumerId = string

  /** A wall-clock reading (`new Date()`); opaque. */
  type Time = int

  type IceParameters = string
  type IceCandidates = string
  type DtlsParameters = string
  type RtpParameters = string
  type RtpCapabilities = string

  /** Client-supplied application metadata, a string-keyed object. */
  type AppData = map<string, string>

  datatype Option<T> = None | Some(value: T)

  /** The owner and direction every transport is tagged with at creation. */
  datatype TransportAppData = TransportAppData(peerId: PeerId, clientDirection: string)

  /** What the engine hands back for a new WebRTC transport, and all a client is shown of it. */
  datatype TransportOptions = TransportOptions(
    id: TransportId,
    iceParameters: IceParameters,
    iceCandidates: IceCandidates,
    dtlsParameters: DtlsParameters)

  /** A transport as the room stores it: the engine's fields plus its `appData` tag. */
  datatype Transport = Transport(
    id: TransportId,
    iceParameters: IceParameters,
    iceCandidates: IceCandidates,
    dtlsParameters: DtlsParameters,
    appData: TransportAppData)

  datatype Producer = Producer(id: ProducerId, kind: string, appData: AppData)

  /** What the engine hands back for a new consumer. */
  datatype Consumer = Consumer(
    id: ConsumerId,
    kind: string,
    rtpParameters: RtpParameters,
    consumerType: string,
    producerPaused: bool)

  /** The object `receiveTrack` resolves with. */
  datatype ConsumerDescriptor = ConsumerDescriptor(
    producerId: ProducerId,
    id: ConsumerId,
    kind: string,
    rtpParameters: RtpParameters,
    consumerType: string,
    producerPaused: bool)

  datatype Peer = Peer(
    joinTime: Time,
    lastSeenTime: Time,
    media: map<string, string>,
    consumerLayers: map<string, string>,
    stats: map<string, string>)

  /** The router: its fixed capability set and its compatibility check, both owned by the engine. */
  datatype Router = Router(
    rtpCapabilities: RtpCapabilities,
    canConsume: (ProducerId, RtpCapabilities) -> bool)

  /** One entry of the audio-level observer's `volumes` event. */
  datatype VolumeEntry = VolumeEntry(producer: Producer, volume: int)

  /** Why a handler's promise rejected. */
  datatype Error =
    | TransportNotFound(transportId: TransportId)      // connectTransport: no such transport
    | TransportDoesNotExist(transportId: TransportId)  // sendTrack: no such transport
    | CannotConsume                                    // router refused the capabilities
    | UndefinedDereference(property: string)           // TypeError: reading `property` of undefined
    | NotAFunction(property: string)                   // TypeError: `property` is not a function
    | EngineFailure(reason: string)                    // a rejection coming from the media engine

  /** The text of the `Error` the handler throws. */
  function Message(e: Error): string
  {
    match e
    case TransportNotFound(id) => "Server side transport " + id + " not found"
    case TransportDoesNotExist(id) => "Transport " + id + " does not exist"
    case CannotConsume => "Can't consume this producer"
    case UndefinedDereference(p) => "Cannot read properties of undefined (reading '" + p + "')"
    case NotAFunction(p) => "transport." + p + " is not a function"
    case EngineFailure(reason) => reason
  }

  /** How a promise settles. */
  datatype Settled<T> = Resolved(value: T) | Rejected(error: Error)

  /** The object passed to a socket acknowledgement callback: `{result}` or `{error}`. */
  datatype Ack<T> = AckResult(result: T) | AckError(error: Error)

  /** The envelope every handler goes through: a resolved promise is acknowledged with
      `{result}`, a rejected one with `{error}`, and nothing of either is lost. */
  function Acknowledge<T>(outcome: Settled<T>): (ack: Ack<T>)
    ensures ack.AckResult? <==> outcome.Resolved?
    ensures ack.AckError? <==> outcome.Rejected?
    ensures outcome.Resolved? ==> ack.result == outcome.value
    ensures outcome.Rejected? ==> ack.error == outcome.error
  {
    match outcome
    case Resolved(v) => AckResult(v)
    case Rejected(e) => AckError(e)
  }

  datatype ConsumerAppData = ConsumerAppData(peerId: PeerId, mediaType: string)

  /** A request issued to the media engine. */
  datatype EngineCall =
    | CreateWebRtcTransport(transportAppData: TransportAppData)
    | Connect(transportId: TransportId, dtlsParameters: DtlsParameters)
    | Produce(transportId: TransportId, kind: string, rtpParameters: RtpParameters, paused: bool, appData: AppData)
    | Consume(transportId: TransportId, producerId: ProducerId, rtpCapabilities: RtpCapabilities, paused: bool,
              consumerAppData: ConsumerAppData)
}
