/** The room's transport table: a plain object keyed by transport id. Its string keys
    enumerate in insertion order, and assigning an existing key keeps that key's place. */
module Transports {
  import opened Types

  datatype Table = Table(order: seq<TransportId>, byId: map<TransportId, Transport>)

  const Empty: Table := Table([], map[])

  /** Every key is listed once in `order`, and every transport is stored under its own id. */
  ghost predicate WellFormed(tbl: Table)
  {
    && (forall i :: 0 <= i < |tbl.order| ==> tbl.order[i] in tbl.byId)
    && (forall id :: id in tbl.byId ==> id in tbl.order)
    && (forall i, j :: 0 <= i < j < |tbl.order| ==> tbl.order[i] != tbl.order[j])
    && (forall id :: id in tbl.byId ==> tbl.byId[id].id == id)
  }

  /** The transport built from the engine's reply and its `appData` tag. */
  function Tag(options: TransportOptions, appData: TransportAppData): (t: Transport)
    ensures Pick(t) == options
    ensures t.appData == appData
  {
    Transport(options.id, options.iceParameters, options.iceCandidates, options.dtlsParameters, appData)
  }

  /** `pick(transport, "id", "iceParameters", "iceCandidates", "dtlsParameters")`. */
  function Pick(t: Transport): TransportOptions
  {
    TransportOptions(t.id, t.iceParameters, t.iceCandidates, t.dtlsParameters)
  }

  /** `transports[t.id] = t`. */
  function Put(tbl: Table, t: Transport): (r: Table)
    requires WellFormed(tbl)
    ensures WellFormed(r)
    ensures t.id in r.byId && r.byId[t.id] == t
    ensures forall id :: id != t.id ==> (id in r.byId <==> id in tbl.byId)
    ensures forall id :: id != t.id && id in tbl.byId ==> r.byId[id] == tbl.byId[id]
    ensures r.order == if t.id in tbl.byId then tbl.order else tbl.order + [t.id]
  {
    Table(if t.id in tbl.byId then tbl.order else tbl.order + [t.id], tbl.byId[t.id := t])
  }

  /** Storing a transport that is already stored under its own id changes nothing. */
  lemma PutStoredIsIdentity(tbl: Table, t: Transport)
    requires WellFormed(tbl)
    requires t.id in tbl.byId && tbl.byId[t.id] == t
    ensures Put(tbl, t) == tbl
  {
    assert tbl.byId[t.id := t] == tbl.byId;
  }

  /** `Object.values(transports)`. */
  function Values(tbl: Table): (vs: seq<Transport>)
    requires WellFormed(tbl)
    ensures |vs| == |tbl.order|
    ensures forall i :: 0 <= i < |vs| ==> vs[i] == tbl.byId[tbl.order[i]]
  {
    seq(|tbl.order|, i requires 0 <= i < |tbl.order| => tbl.byId[tbl.order[i]])
  }

  /** A new id is enumerated last. */
  lemma ValuesAfterPutFresh(tbl: Table, t: Transport)
    requires WellFormed(tbl)
    requires t.id !in tbl.byId
    ensures Values(Put(tbl, t)) == Values(tbl) + [t]
  {
    var r := Put(tbl, t);
    forall i | 0 <= i < |tbl.order|
      ensures Values(r)[i] == Values(tbl)[i]
    {
      assert tbl.order[i] != t.id;
    }
  }

  predicate Matches(t: Transport, peerId: PeerId, direction: string)
  {
    t.appData.peerId == peerId && t.appData.clientDirection == direction
  }

  /** `vs.find(t => t.appData.peerId === peerId && t.appData.clientDirection === direction)`. */
  function FirstMatch(vs: seq<Transport>, peerId: PeerId, direction: string): Option<Transport>
  {
    if vs == [] then None
    else if Matches(vs[0], peerId, direction) then Some(vs[0])
    else FirstMatch(vs[1..], peerId, direction)
  }

  /** Nothing is found exactly when no transport matches. */
  lemma {:induction false} FirstMatchNone(vs: seq<Transport>, peerId: PeerId, direction: string)
    ensures FirstMatch(vs, peerId, direction).None? <==>
            forall k :: 0 <= k < |vs| ==> !Matches(vs[k], peerId, direction)
  {
    if vs != [] && !Matches(vs[0], peerId, direction) {
      FirstMatchNone(vs[1..], peerId, direction);
      assert forall k :: 1 <= k < |vs| ==> vs[k] == vs[1..][k - 1];
    }
  }

  /** What is found matches, and it is the earliest match. */
  lemma {:induction false} FirstMatchIsFirst(vs: seq<Transport>, peerId: PeerId, direction: string)
    requires FirstMatch(vs, peerId, direction).Some?
    ensures Matches(FirstMatch(vs, peerId, direction).value, peerId, direction)
    ensures exists k :: 0 <= k < |vs| && vs[k] == FirstMatch(vs, peerId, direction).value &&
                        forall j :: 0 <= j < k ==> !Matches(vs[j], peerId, direction)
  {
    if !Matches(vs[0], peerId, direction) {
      var rest := vs[1..];
      FirstMatchIsFirst(rest, peerId, direction);
      var k :| 0 <= k < |rest| && rest[k] == FirstMatch(rest, peerId, direction).value &&
               forall j :: 0 <= j < k ==> !Matches(rest[j], peerId, direction);
      assert vs[k + 1] == rest[k];
      forall j | 0 <= j < k + 1
        ensures !Matches(vs[j], peerId, direction)
      {
        if j > 0 { assert vs[j] == rest[j - 1]; }
      }
    } else {
      assert vs[0] == FirstMatch(vs, peerId, direction).value;
    }
  }

  /** A transport added later never shadows an earlier match: the scan prefers the oldest. */
  lemma {:induction false} FirstMatchAppend(vs: seq<Transport>, t: Transport, peerId: PeerId, direction: string)
    ensures FirstMatch(vs + [t], peerId, direction) ==
            if FirstMatch(vs, peerId, direction).Some? then FirstMatch(vs, peerId, direction)
            else if Matches(t, peerId, direction) then Some(t)
            else None
  {
    if vs == [] {
      assert [] + [t] == [t];
      assert [t][1..] == [];
    } else {
      assert (vs + [t])[0] == vs[0];
      assert (vs + [t])[1..] == vs[1..] + [t];
      if !Matches(vs[0], peerId, direction) {
        FirstMatchAppend(vs[1..], t, peerId, direction);
      }
    }
  }
}
