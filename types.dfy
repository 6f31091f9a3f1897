/**
 The values the tracking server works with: connection ids, reported
 positions, and the records its handlers emit.
 */
module Types {

  /** A Socket.IO connection id. */
  type Id = string

  /** A reported position in decimal degrees. The server never does arithmetic
      on the coordinates (only the distance function reads them), so they are
      kept as reals and passed through unchanged. */
  datatype Pos = Pos(lat: real, lon: real)

  /** The longest trail kept per client. */
  const MaxTrail: nat := 20

  /** The proximity threshold in meters; the comparison is closed (`<=`). */
  const Threshold: nat := 100

  /** Who an emitted record goes to: every connected client (`io.emit`), or
      one connection (`io.to(id).emit`, and `socket.emit` for the sender). */
  datatype Recipient = Everyone | To(id: Id)

  /** The three events of the wire protocol, with their payloads. */
  datatype Message =
    | ProximityAlert(from: Id, distance: nat, path: seq<Pos>)
    | LocationUpdate(id: Id, lat: real, lon: real)
    | RemoveMarker(id: Id)

  /** One emit call: a recipient and the message sent to it. */
  datatype Emit = Emit(to: Recipient, msg: Message)

  /** No id occurs twice. */
  predicate Distinct(s: seq<Id>)
  {
    forall i, j :: 0 <= i < j < |s| ==> s[i] != s[j]
  }

  /** Appending a fresh id keeps the ids distinct. */
  lemma DistinctAppend(s: seq<Id>, x: Id)
    requires Distinct(s) && x !in s
    ensures Distinct(s + [x])
  {
  }

  function Min(a: nat, b: nat): nat
  {
    if a <= b then a else b
  }
}
