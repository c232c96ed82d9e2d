# Live_Stream signalling core, modelled in Dafny

The repository is a thin signalling layer over the mediasoup media engine and socket.io.
Its own logic is the `Room` class (`src/room.ts`) and the per-socket request handlers
(`src/init.ts`). This project models exactly that logic:

- **`Rooms.Room`** (`room.dfy`) is the room as a class with the source's mutable fields:
  - the peer table;
  - the transport table, a plain object keyed by transport id;
  - the three-field active-speaker record;
  - the video and audio producer slots.

  Its methods change those fields in place. The transport table is a value
  (`Transports.Table`, `transports.dfy`) that keeps the keys in insertion order, as a
  JavaScript object enumerates them. `getTransportByPeerId` is a loop over that order,
  proved equal to `Transports.FirstMatch`, the specification of `Array.prototype.find`.
- **`Handlers.Connection`** (`handlers.dfy`) is one socket connection. It has its
  server-generated peer id, joins the room when created, and has one method per
  request: `getRouterRtpCapabilities`, `createTransport`, `connectTransport`, `sendTrack`
  and `receiveTrack`. Each handler runs as one atomic step. Every outcome passes through
  `Types.Acknowledge`, the `{result}` / `{error}` envelope.
- **The media engine** is not modelled. Its reply to the one call a handler may make is
  a parameter of type `Settled<T>`: the new transport's fields, the new producer's id, the
  consumer, or a rejection. The router's `canConsume` is an uninterpreted predicate held in
  `Types.Router`. Each handler returns a ghost list `calls` of the engine requests it
  issued. So "rejects without calling `connect`" is stated as `calls == []`.
- **`Rooms.Room.Coherent`** is the room-wide invariant that every handler keeps:
  - every transport's owner is a joined peer;
  - the video slot holds a producer of kind `"video"`, and the audio slot one of any other kind;
  - each slot's producer carries the `peerId` of a joined peer and the `transportId` of a
    stored transport.
- **`Scenarios`** (`scenarios.dfy`) drives whole sessions through the handlers:
  - publish video, then consume it from a second peer;
  - ask for audio before any audio has been published;
  - publish video twice.

Where the intended design and the code differ, the code is modelled, with one exception.
The transport lookup `getTransport` is modelled on own keys only, which is the behaviour
the handlers' error messages intend. The lookup as written also sees names inherited from
`Object.prototype`. That version is `AsWritten` (`findings.dfy`), and "## Findings"
records the difference. The other differences, all modelled as written:

- `getTransportByPeerId` returns the **oldest** matching transport, not the newest.
  `Transports.FirstMatchAppend` shows that a later transport never shadows an earlier one.
- `sendTrack` does not check that the transport is a send transport.
- `createTransport` does not check that the peer has joined. The handlers only ever pass
  the connection's own, already joined, peer id.
- `receiveTrack` reports a missing producer or a missing receive transport as a
  `TypeError` from dereferencing `undefined`, not as a "not found" error.
  This is `UndefinedDereference("id")` or `UndefinedDereference("consume")`.
- The check order in `receiveTrack` is: producer dereference, then `canConsume`, then
  the transport lookup.
- No code adds a producer to the audio-level observer (`addProducer` is never called), so
  its `volumes` event never fires in this program. `Rooms.Room.OnVolumes` models the
  listener as written, for the case where it would fire.

## Model

| member | source | states |
|---|---|---|
| `Types.Acknowledge` | src/init.ts:18-28 | a handler's outcome is acknowledged as exactly one of `{result}` (promise resolved, carrying its value) or `{error}` (promise rejected, carrying its error) |
| `Transports.Tag` | src/room.ts:141-148 | the stored transport carries the `{peerId, clientDirection}` tag, and picking its public fields gives back exactly what the engine returned |
| `Transports.Put` | src/room.ts:130-132 | `transports[t.id] = t`: `t` is found under its id, every other key keeps its entry, a new key is enumerated last and an existing key keeps its place; the table stays well formed |
| `Transports.PutStoredIsIdentity` | src/init.ts:33-34 | storing a transport already stored under its own id (the `addTransport` after `createTransport`) leaves the table unchanged |
| `Transports.ValuesAfterPutFresh` | src/room.ts:165 | after storing a transport under a new id, `Object.values` lists the old transports in their order followed by the new one |
| `Transports.FirstMatchNone` | src/room.ts:164-169 | the scan finds nothing exactly when no stored transport has that peer id and direction |
| `Transports.FirstMatchIsFirst` | src/room.ts:164-169 | what the scan finds has the requested peer id and direction, and no earlier transport in insertion order does |
| `Transports.FirstMatchAppend` | src/room.ts:164-169 | a transport added later never replaces an earlier match: the result after appending is the old result if there was one, else the new transport if it matches |
| `Rooms.NewPeer` | src/room.ts:121-127 | a joined peer's entry holds the two clock readings and empty `media`, `consumerLayers` and `stats` |
| `Rooms.AppDataPeerId` | src/room.ts:102 | `producer.appData.peerId` is present exactly when the producer's metadata has a `peerId` key, and is then its value |
| `Rooms.Room.constructor` | src/room.ts:16-41 | a new room has no peers, no transports, empty producer slots and an all-null speaker record |
| `Rooms.Room.OnVolumes` | src/room.ts:95-103 | a nonempty `volumes` event sets the record to the first entry's producer id, its volume and that producer's `appData.peerId`, and later entries have no effect; the record is then all set when the producer carries `peerId`, and in particular when it is one of a coherent room's slot producers; an empty list changes nothing |
| `Rooms.Room.OnSilence` | src/room.ts:105-110 | a `silence` event leaves the record all null, whatever it held |
| `Rooms.Room.JoinPeer` | src/room.ts:118-128 | `peers[id]` becomes a fresh entry with empty maps and replaces any earlier one; no other peer changes; the room-wide invariant is kept |
| `Rooms.Room.AddTransport` | src/room.ts:130-132 | the table becomes `Put(old, t)`, and is unchanged when `t` is already stored under its id |
| `Rooms.Room.GetRtpCapabilities` | src/room.ts:134-136 | the answer is the router's capability set, fixed when the room is made |
| `Rooms.Room.CreateTransport` | src/room.ts:138-154 | on the engine's success the new transport is tagged `{peerId, clientDirection: direction}`, stored under its id, returned by `getTransport`, and other entries are unchanged; on failure nothing is stored |
| `Rooms.Room.CanConsume` | src/room.ts:156-158 | the answer is exactly the router's verdict for that producer and capability set |
| `Rooms.Room.GetTransport` | src/room.ts:160-162 | a transport is returned exactly when its id is a key of the table, and the returned transport has that id |
| `Rooms.Room.GetTransportByPeerId` | src/room.ts:164-169 | the loop over the table in insertion order returns `FirstMatch` of the table's values: the first transport with that peer id and direction, or nothing when none matches |
| `Rooms.Room.SetVideoProducer` | src/room.ts:171-177 | afterwards `getVideoProducer()` returns the new producer and the audio slot is untouched |
| `Rooms.Room.SetAudioProducer` | src/room.ts:179-185 | afterwards `getAudioProducer()` returns the new producer and the video slot is untouched |
| `Handlers.Stamp` | src/init.ts:66 | the producer's metadata has the caller's `peerId` and the `transportId`, overriding client keys of those names, and keeps every other client key |
| `Handlers.Describe` | src/init.ts:97-104 | the reply names the selected producer's id, and its id, kind, RTP parameters, type and paused flag are the consumer's |
| `Handlers.Connection.constructor` | src/init.ts:10-16 | a connection joins the room under its peer id, and the room-wide invariant holds with that peer joined |
| `Handlers.Connection.GetRouterRtpCapabilities` | src/init.ts:30 | always resolves, with the router's fixed capability set |
| `Handlers.Connection.CreateTransport` | src/init.ts:32-39 | issues one transport creation tagged with the caller and direction; on success it stores the transport once, replies with the engine's id and ICE/DTLS fields only, and `getTransport` finds it; on failure it replies `{error}` and stores nothing |
| `Handlers.Connection.ConnectTransport` | src/init.ts:41-51 | an id absent from the table is rejected with "Server side transport <id> not found" without calling `connect`; otherwise `connect` is called once, and the reply is `{result: true}` exactly when it succeeds |
| `Handlers.Connection.SendTrack` | src/init.ts:53-78 | an unknown transport is rejected with "Transport <id> does not exist" before any producer is created and no slot changes; otherwise one `produce` is issued with stamped metadata, and on success `"video"` fills only the video slot, any other kind fills only the audio slot, and the reply is the new producer's id |
| `Handlers.Connection.Selected` | src/init.ts:82 | the producer asked for is the video one when `mediaType` is `"video"` and the audio one otherwise |
| `Handlers.Connection.ReceiveTrack` | src/init.ts:80-105 | a missing producer rejects; `canConsume` false rejects with "Can't consume this producer" before the transport lookup and with no consumer; a caller without a receive transport rejects; otherwise one `consume` is issued on the caller's first `"receive"` transport, and a success reply names the selected producer's id and the new consumer |
| `AsWritten.Index` | src/room.ts:160-162 | indexing the plain object gives the stored transport for its own keys, a member of `Object.prototype` for inherited names, and `undefined` otherwise |
| `AsWritten.ConnectTransport` | src/init.ts:41-51 | as written: an own key calls `connect` and answers `true` or the engine's error; an inherited name fails with "transport.connect is not a function"; any other absent id is rejected as not found |
| `AsWritten.InheritedIdEscapesNotFound` | src/init.ts:41-49 | as written, `connectTransport("constructor")` on an empty room fails with "connect is not a function" and not with "not found" |
| `AsWritten.AgreesOffInheritedKeys` | src/init.ts:41-51 | for every id that is not an inherited name, the as-written handler behaves like the own-key model |
| `AsWritten.SendTrack` | src/init.ts:53-78 | as written: an inherited name fails with "transport.produce is not a function" and any other absent id with "does not exist", both leaving the slots unchanged; an own key routes the stamped producer as the handler does |
| `AsWritten.InheritedIdEscapesDoesNotExist` | src/init.ts:55-62 | as written, `sendTrack("constructor", …)` on an empty room fails with "produce is not a function" and not with "does not exist", and no slot changes |
| `Scenarios.PublishVideo` | src/init.ts:53-78 | a peer that joins, creates and connects a send transport and sends a video track leaves a coherent room with exactly that transport stored and its producer in the video slot |
| `Scenarios.VideoPublishThenConsume` | src/init.ts:53-105 | peer A publishes video; peer B creates a receive transport and asks for video with compatible capabilities; B receives a descriptor naming A's producer and the new consumer |
| `Scenarios.AudioBeforePublish` | src/init.ts:80-90 | asking for audio before any audio is published rejects |
| `Scenarios.VideoReplacedBySecondPublish` | src/init.ts:70-74 | after two video publications only the second producer is in the slot |

## Findings

| source | as written | input that shows it | evidently intended | confidence | as-written member | corrected member |
|---|---|---|---|---|---|---|
| src/room.ts:160-162 with src/init.ts:42-49 | `getTransport` indexes a plain object, so a name inherited from `Object.prototype` yields a truthy value that passes the `!transport` guard | `connectTransport("constructor", …)` on a room with no such transport rejects with "transport.connect is not a function" | an unknown transport id is rejected as "Server side transport … not found" | not executed; high | `AsWritten.InheritedIdEscapesNotFound` | `Handlers.Connection.ConnectTransport` |
| src/room.ts:160-162 with src/init.ts:55-62 | the same lookup lets an inherited name pass `sendTrack`'s `!transport` guard | `sendTrack("constructor", …)` on a room with no such transport rejects with "transport.produce is not a function" | an unknown transport id is rejected as "Transport … does not exist" | not executed; high | `AsWritten.InheritedIdEscapesDoesNotExist` | `Handlers.Connection.SendTrack` |

## Left out

- src/main.ts (HTTP server, socket.io server with CORS, `listen`) is startup wiring and I/O. It is not part of this model.
- src/types/config.ts and the config values are not part of this model. They affect only engine options: listen IPs, ports, codecs and bitrate.
- src/types/peer.ts and src/types/transport-direction.ts are not part of this model. The `Peer` map values are modelled as strings. A direction is any string the client sends.
- `Room.makeRoom` (worker, router and audio-level observer creation, the 800 ms interval) is left out because it is engine start-up. The router it yields is the room's `router` parameter.
- The worker `died` handler calls `process.exit(1)`. Process termination is not state this model can hold.
- The `consumers` field is declared and never written, so it is not modelled.
- Everything inside mediasoup is left out: ICE, DTLS, RTP, and what `canConsume`, `connect`, `produce` and `consume` decide. Their replies are parameters.
- `paused: false` on `produce` and `consume` is recorded in the `calls` list. `producerPaused` in the reply is whatever the engine reports.
- Concurrency is not modelled: each handler is one atomic step, so interleavings across an `await` are absent.
- Peer ids come from `uuidV4` and timestamps from `new Date()`. Both are parameters, and peer ids are not assumed distinct, since `JoinPeer` overwrites.
- `console.log` output is left out.
- `Rooms.Room.OnVolumes`: the all-set record is proved only when the reported producer's `appData` has a `peerId` key, for instance when it is one of a coherent room's slot producers. Otherwise the source writes `undefined` into `peerId`. Every producer this code creates is stamped with `peerId` (`Handlers.Stamp`). No code adds producers to the observer, so the event never fires in this program.
- `Rooms.Room.GetTransport`: inherited `Object.prototype` names are treated as absent. The as-written lookup is `AsWritten.Index`, and its effect on `connectTransport` and `sendTrack` is `AsWritten.ConnectTransport` and `AsWritten.SendTrack`.
- The socket argument convention is left out: the acknowledgement is whatever argument comes last. A client that sends no callback, or an acknowledgement that throws and is then called a second time, is not modelled.
- Client `appData` is modelled as a string-keyed map of strings. Spreading a non-object value, or non-string values, is not modelled.
- Object key order is modelled as insertion order. This holds for the UUID keys the engine generates. Integer-like keys, which JavaScript enumerates first, are not modelled.
