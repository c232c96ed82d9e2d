/** `room.getTransport(id)` indexes a plain object, so an id naming a member every object
    inherits ("constructor", "__proto__", "toString", ...) yields that member rather than
    `undefined`. `connectTransport` and `sendTrack` then pass their `!transport` guards and
    fail on calling `connect` or `produce`, instead of reporting the transport as missing.
    The room model (`Rooms.Room.GetTransport`) looks up own keys only, which is what the
    handlers' error messages intend. */
module AsWritten {
  import opened Types
  import Transports
  import Handlers

  /** Names every plain object inherits from `Object.prototype`. */
  const InheritedKeys: set<string> := {
    "constructor", "__proto__", "hasOwnProperty", "isPrototypeOf", "propertyIsEnumerable",
    "toLocaleString", "toString", "valueOf",
    "__defineGetter__", "__defineSetter__", "__lookupGetter__", "__lookupSetter__"
  }

  /** What `transports[key]` evaluates to. */
  datatype Property = Own(transport: Transport) | Inherited(key: string) | Undefined

  function Index(tbl: Transports.Table, key: string): (p: Property)
    ensures p.Own? <==> key in tbl.byId
    ensures p.Own? ==> p.transport == tbl.byId[key]
    ensures p.Undefined? <==> key !in tbl.byId && key !in InheritedKeys
  {
    if key in tbl.byId then Own(tbl.byId[key])
    else if key in InheritedKeys then Inherited(key)
    else Undefined
  }

  /** `connectTransport` as written: only `undefined` counts as missing. */
  function ConnectTransport(tbl: Transports.Table, transportId: TransportId, connected: Settled<()>): (r: Settled<bool>)
    ensures transportId in tbl.byId ==>
      r == if connected.Resolved? then Resolved(true) else Rejected(connected.error)
    ensures transportId !in tbl.byId && transportId in InheritedKeys ==> r == Rejected(NotAFunction("connect"))
    ensures transportId !in tbl.byId && transportId !in InheritedKeys ==> r == Rejected(TransportNotFound(transportId))
  {
    match Index(tbl, transportId)
    case Undefined => Rejected(TransportNotFound(transportId))
    case Inherited(_) => Rejected(NotAFunction("connect"))
    case Own(_) => if connected.Resolved? then Resolved(true) else Rejected(connected.error)
  }

  /** On an empty room the id "constructor" is not reported as not found. */
  lemma InheritedIdEscapesNotFound(connected: Settled<()>)
    ensures "constructor" !in Transports.Empty.byId
    ensures ConnectTransport(Transports.Empty, "constructor", connected) == Rejected(NotAFunction("connect"))
    ensures ConnectTransport(Transports.Empty, "constructor", connected) != Rejected(TransportNotFound("constructor"))
  {
  }

  /** Apart from inherited names, the as-written lookup agrees with the own-key lookup. */
  lemma AgreesOffInheritedKeys(tbl: Transports.Table, transportId: TransportId, connected: Settled<()>)
    requires transportId !in InheritedKeys
    ensures ConnectTransport(tbl, transportId, connected) ==
            if transportId !in tbl.byId then Rejected(TransportNotFound(transportId))
            else if connected.Resolved? then Resolved(true) else Rejected(connected.error)
  {
  }

  /** What `sendTrack` leaves behind: its reply and the two producer slots. */
  datatype SendOutcome = SendOutcome(reply: Settled<Handlers.SendTrackReply>, video: Option<Producer>, audio: Option<Producer>)

  /** `sendTrack` as written: only `undefined` counts as a missing transport; an inherited
      member passes the guard and calling its `produce` throws. */
  function SendTrack(tbl: Transports.Table, video: Option<Producer>, audio: Option<Producer>,
                     peerId: PeerId, transportId: TransportId, kind: string, appData: AppData,
                     produced: Settled<ProducerId>): (o: SendOutcome)
    ensures transportId !in tbl.byId && transportId !in InheritedKeys ==>
      o == SendOutcome(Rejected(TransportDoesNotExist(transportId)), video, audio)
    ensures transportId !in tbl.byId && transportId in InheritedKeys ==>
      o == SendOutcome(Rejected(NotAFunction("produce")), video, audio)
    ensures transportId in tbl.byId && produced.Rejected? ==> o == SendOutcome(Rejected(produced.error), video, audio)
    ensures transportId in tbl.byId && produced.Resolved? ==>
      var p := Producer(produced.value, kind, Handlers.Stamp(appData, peerId, transportId));
      && o.reply == Resolved(Handlers.SendTrackReply(produced.value))
      && (kind == "video" ==> o.video == Some(p) && o.audio == audio)
      && (kind != "video" ==> o.audio == Some(p) && o.video == video)
  {
    match Index(tbl, transportId)
    case Undefined => SendOutcome(Rejected(TransportDoesNotExist(transportId)), video, audio)
    case Inherited(_) => SendOutcome(Rejected(NotAFunction("produce")), video, audio)
    case Own(_) =>
      match produced
      case Rejected(e) => SendOutcome(Rejected(e), video, audio)
      case Resolved(id) =>
        var p := Producer(id, kind, Handlers.Stamp(appData, peerId, transportId));
        if kind == "video" then SendOutcome(Resolved(Handlers.SendTrackReply(id)), Some(p), audio)
        else SendOutcome(Resolved(Handlers.SendTrackReply(id)), video, Some(p))
  }

  /** On an empty room the id "constructor" is not reported as a missing transport by
      `sendTrack` either; it fails on `produce`, and no slot changes. */
  lemma InheritedIdEscapesDoesNotExist(video: Option<Producer>, audio: Option<Producer>, peerId: PeerId,
                                       kind: string, appData: AppData, produced: Settled<ProducerId>)
    ensures "constructor" !in Transports.Empty.byId
    ensures SendTrack(Transports.Empty, video, audio, peerId, "constructor", kind, appData, produced) ==
            SendOutcome(Rejected(NotAFunction("produce")), video, audio)
    ensures SendTrack(Transports.Empty, video, audio, peerId, "constructor", kind, appData, produced).reply !=
            Rejected(TransportDoesNotExist("constructor"))
  {
  }
}
