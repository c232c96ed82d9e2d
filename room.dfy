/** The single room every connection shares: its peers, its transports, the two
    room-wide producer slots and the active-speaker record fed by the audio-level observer. */
module Rooms {
  import opened Types
  import Transports

  /** The entry `joinPeer` writes: both clock readings, empty media, layers and stats. */
  function NewPeer(joinTime: Time, lastSeenTime: Time): (p: Peer)
    ensures p.media == map[] && p.consumerLayers == map[] && p.stats == map[]
    ensures p.joinTime == joinTime && p.lastSeenTime == lastSeenTime
  {
    Peer(joinTime, lastSeenTime, map[], map[], map[])
  }

  /** `producer.appData.peerId`, absent when the producer's metadata has no such key. */
  function AppDataPeerId(p: Producer): (r: Option<PeerId>)
    ensures r.Some? <==> "peerId" in p.appData
    ensures r.Some? ==> r.value == p.appData["peerId"]
  {
    if "peerId" in p.appData then Some(p.appData["peerId"]) else None
  }

  class Room {
    const router: Router
    var peers: map<PeerId, Peer>
    var transports: Transports.Table
    var speakerProducerId: Option<ProducerId>
    var speakerVolume: Option<int>
    var speakerPeerId: Option<PeerId>
    var videoProducer: Option<Producer>
    var audioProducer: Option<Producer>

    /** What the room's own methods keep: a well-formed table and a speaker record whose
        producer id and volume are set together, with a speaker only beside a producer. */
    ghost predicate Valid()
      reads this
    {
      && Transports.WellFormed(transports)
      && (speakerProducerId.Some? <==> speakerVolume.Some?)
      && (speakerPeerId.Some? ==> speakerProducerId.Some?)
    }

    predicate Silent()
      reads this
    {
      speakerProducerId.None? && speakerVolume.None? && speakerPeerId.None?
    }

    /** The active-speaker record is all null or all set. */
    predicate SpeakerWhole()
      reads this
    {
      Silent() || (speakerProducerId.Some? && speakerVolume.Some? && speakerPeerId.Some?)
    }

    /** The room as the connections keep it: every transport is owned by a joined peer, each
        slot holds a producer of its kind stamped with a joined peer and a stored transport. */
    ghost predicate Coherent()
      reads this
    {
      && Valid()
      && (forall id :: id in transports.byId ==> transports.byId[id].appData.peerId in peers)
      && StampedSlot(videoProducer)
      && StampedSlot(audioProducer)
      && (videoProducer.Some? ==> videoProducer.value.kind == "video")
      && (audioProducer.Some? ==> audioProducer.value.kind != "video")
    }

    ghost predicate StampedSlot(slot: Option<Producer>)
      reads this
    {
      slot.Some? ==>
        && "peerId" in slot.value.appData && slot.value.appData["peerId"] in peers
        && "transportId" in slot.value.appData && slot.value.appData["transportId"] in transports.byId
    }

    /** A room starts with no peers, no transports, empty slots and a silent speaker. */
    constructor (router: Router)
      ensures Valid() && Coherent() && Silent() && SpeakerWhole()
      ensures this.router == router
      ensures peers == map[] && transports == Transports.Empty
      ensures videoProducer.None? && audioProducer.None?
    {
      this.router := router;
      peers := map[];
      transports := Transports.Empty;
      speakerProducerId, speakerVolume, speakerPeerId := None, None, None;
      videoProducer, audioProducer := None, None;
    }

    /** The observer's `volumes` event: the first entry becomes the active speaker. An empty
        list makes the listener throw before it writes anything. */
    method OnVolumes(volumes: seq<VolumeEntry>)
      requires Valid()
      modifies this`speakerProducerId, this`speakerVolume, this`speakerPeerId
      ensures Valid()
      ensures volumes == [] ==>
        && speakerProducerId == old(speakerProducerId)
        && speakerVolume == old(speakerVolume)
        && speakerPeerId == old(speakerPeerId)
      ensures volumes != [] ==>
        && speakerProducerId == Some(volumes[0].producer.id)
        && speakerVolume == Some(volumes[0].volume)
        && speakerPeerId == AppDataPeerId(volumes[0].producer)
      ensures volumes != [] && "peerId" in volumes[0].producer.appData ==> SpeakerWhole() && !Silent()
      ensures volumes == [] ==> (old(SpeakerWhole()) ==> SpeakerWhole())
      ensures volumes != [] && Coherent() &&
              (Some(volumes[0].producer) == videoProducer || Some(volumes[0].producer) == audioProducer) ==>
              SpeakerWhole() && !Silent()
    {
      if volumes == [] {
        return;
      }
      var entry := volumes[0];
      speakerProducerId := Some(entry.producer.id);
      speakerVolume := Some(entry.volume);
      speakerPeerId := AppDataPeerId(entry.producer);
    }

    /** The observer's `silence` event clears the record, whatever it held. */
    method OnSilence()
      requires Valid()
      modifies this`speakerProducerId, this`speakerVolume, this`speakerPeerId
      ensures Valid() && Silent() && SpeakerWhole()
    {
      speakerProducerId := None;
      speakerVolume := None;
      speakerPeerId := None;
    }

    /** `joinPeer`: writes a fresh entry for `peerId`, replacing any earlier one. */
    method JoinPeer(peerId: PeerId, joinTime: Time, lastSeenTime: Time)
      requires Valid()
      modifies this`peers
      ensures Valid()
      ensures peerId in peers && peers[peerId] == NewPeer(joinTime, lastSeenTime)
      ensures peers.Keys == old(peers).Keys + {peerId}
      ensures forall q :: q != peerId && q in old(peers) ==> peers[q] == old(peers)[q]
      ensures old(Coherent()) ==> Coherent()
    {
      peers := peers[peerId := NewPeer(joinTime, lastSeenTime)];
    }

    /** `addTransport`: stores the transport under its own id. */
    method AddTransport(t: Transport)
      requires Valid()
      modifies this`transports
      ensures Valid()
      ensures transports == Transports.Put(old(transports), t)
      ensures old(t.id in transports.byId && transports.byId[t.id] == t) ==> transports == old(transports)
    {
      if t.id in transports.byId && transports.byId[t.id] == t {
        Transports.PutStoredIsIdentity(transports, t);
      }
      transports := Transports.Put(transports, t);
    }

    /** `getRtpCapabilities`: the router's capability set. The router is fixed when the room
        is made, so every call answers the same set and reads no mutable field. */
    function GetRtpCapabilities(): (caps: RtpCapabilities)
      reads this
      ensures caps == router.rtpCapabilities
    {
      router.rtpCapabilities
    }

    /** `createTransport`: asks the engine for a transport tagged with its owner and
        direction; `created` is the engine's reply. On success the transport is stored. */
    method CreateTransport(peerId: PeerId, direction: string, created: Settled<TransportOptions>)
      returns (result: Settled<Transport>)
      requires Valid()
      modifies this`transports
      ensures Valid()
      ensures created.Rejected? ==> result == Rejected(created.error) && transports == old(transports)
      ensures created.Resolved? ==>
        && result.Resolved?
        && Transports.Pick(result.value) == created.value
        && result.value.appData == TransportAppData(peerId, direction)
        && transports == Transports.Put(old(transports), result.value)
        && GetTransport(created.value.id) == Some(result.value)
    {
      match created {
        case Rejected(e) =>
          result := Rejected(e);
        case Resolved(options) =>
          var t := Transports.Tag(options, TransportAppData(peerId, direction));
          transports := Transports.Put(transports, t);
          result := Resolved(t);
      }
    }

    /** `canConsume`: the router's compatibility verdict, independent of the room's tables. */
    function CanConsume(producerId: ProducerId, rtpCapabilities: RtpCapabilities): (ok: bool)
      reads this
      ensures ok == router.canConsume(producerId, rtpCapabilities)
    {
      router.canConsume(producerId, rtpCapabilities)
    }

    /** `getTransport`: the transport stored under `transportId`, if any. */
    function GetTransport(transportId: TransportId): (r: Option<Transport>)
      reads this
      requires Valid()
      ensures r.Some? <==> transportId in transports.byId
      ensures r.Some? ==> r.value == transports.byId[transportId] && r.value.id == transportId
    {
      if transportId in transports.byId then Some(transports.byId[transportId]) else None
    }

    /** `getTransportByPeerId`: scans the stored transports in insertion order for the
        first one owned by `peerId` in `direction`. */
    method GetTransportByPeerId(peerId: PeerId, direction: string) returns (found: Option<Transport>)
      requires Valid()
      ensures found == Transports.FirstMatch(Transports.Values(transports), peerId, direction)
    {
      var vs := Transports.Values(transports);
      var i := 0;
      while i < |transports.order|
        invariant 0 <= i <= |vs| == |transports.order|
        invariant Transports.FirstMatch(vs, peerId, direction) == Transports.FirstMatch(vs[i..], peerId, direction)
      {
        var t := transports.byId[transports.order[i]];
        assert vs[i..][0] == t && vs[i..][1..] == vs[i + 1..];
        if Transports.Matches(t, peerId, direction) {
          return Some(t);
        }
        i := i + 1;
      }
      found := None;
    }

    function GetVideoProducer(): Option<Producer>
      reads this
    {
      videoProducer
    }

    function GetAudioProducer(): Option<Producer>
      reads this
    {
      audioProducer
    }

    /** `setVideoProducer`: replaces the video slot; the audio slot is untouched. */
    method SetVideoProducer(p: Producer)
      modifies this`videoProducer
      ensures GetVideoProducer() == Some(p)
      ensures GetAudioProducer() == old(GetAudioProducer())
    {
      videoProducer := Some(p);
    }

    /** `setAudioProducer`: replaces the audio slot; the video slot is untouched. */
    method SetAudioProducer(p: Producer)
      modifies this`audioProducer
      ensures GetAudioProducer() == Some(p)
      ensures GetVideoProducer() == old(GetVideoProducer())
    {
      audioProducer := Some(p);
    }
  }
}
