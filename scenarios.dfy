/**
 Two walk-throughs stated over the handlers of a `TrackingServer`: two
 clients meeting, and a trail after twenty-five updates.
 */
module Scenarios {
  import opened Types
  import opened Trail
  import opened Proximity
  import opened Server

  /** A client alone in the entries is never alerted about itself. */
  lemma LoneScan(a: Id, pa: Pos, clients: map<Id, Pos>, history: map<Id, seq<Pos>>,
                 dist: (Pos, Pos) -> nat)
    requires a in clients && a in history
    ensures Scan(a, pa, [a], clients, history, dist) == []
  {
    assert [a][..0] == [];
  }

  /** The first update on a server without positions: `a` becomes the only
      entry, its empty trail becomes `[pa]`, and only the broadcast is
      emitted. */
  method FirstUpdate(s: TrackingServer, a: Id, pa: Pos, dist: (Pos, Pos) -> nat)
    returns (out: seq<Emit>)
    requires s.Valid() && s.clients == map[] && s.order == []
    requires a in s.history && s.history[a] == []
    modifies s
    ensures s.Valid() && s.order == [a] && s.clients == map[a := pa]
    ensures s.history == old(s.history)[a := [pa]]
    ensures out == [Emit(Everyone, LocationUpdate(a, pa.lat, pa.lon))]
  {
    out := s.SendLocation(a, pa, dist);
    assert Push([], pa) == [pa];
    LoneScan(a, pa, s.clients, s.history, dist);
  }

  /** Client `a` connects and reports `pa` on an empty server: `a` is the
      only entry, with a one-position trail. */
  method FirstArrives(a: Id, pa: Pos, dist: (Pos, Pos) -> nat)
    returns (s: TrackingServer, out: seq<Emit>)
    ensures fresh(s) && s.Valid()
    ensures out == [Emit(Everyone, LocationUpdate(a, pa.lat, pa.lon))]
    ensures s.order == [a] && s.clients == map[a := pa]
    ensures a in s.history && s.history[a] == [pa]
  {
    s := new TrackingServer();
    var _ := s.Connect(a);
    out := FirstUpdate(s, a, pa, dist);
  }

  /** Then `b` connects: the entries are unchanged and `b` has an empty
      trail. */
  method SecondConnects(s: TrackingServer, a: Id, b: Id, pa: Pos)
    requires s.Valid() && a != b
    requires s.order == [a] && s.clients == map[a := pa]
    requires a in s.history && s.history[a] == [pa]
    modifies s
    ensures s.Valid() && s.order == [a] && s.clients == map[a := pa]
    ensures a in s.history && b in s.history && s.history[a] == [pa] && s.history[b] == []
  {
    var _ := s.Connect(b);
  }

  /** The store after `b`'s first update, with `a` positioned before it,
      scans to the meeting pair. */
  lemma MeetingAfterUpdate(a: Id, b: Id, pa: Pos, pb: Pos, history: map<Id, seq<Pos>>,
                           dist: (Pos, Pos) -> nat)
    requires a != b && dist(pb, pa) <= Threshold
    requires a in history && b in history && history[a] == [pa] && history[b] == []
    ensures Scan(b, pb, [a] + [b], map[a := pa][b := pb], history[b := Push(history[b], pb)], dist)
            == [Emit(To(a), ProximityAlert(b, dist(pb, pa), [pb])),
                Emit(To(b), ProximityAlert(a, dist(pb, pa), [pa]))]
  {
    assert Push([], pb) == [pb];
    assert [a] + [b] == [a, b];
    MeetingScan(a, b, pa, pb, map[a := pa][b := pb], history[b := [pb]], dist);
  }

  /** `b` then reports `pb` within the threshold of `a`: `a` is told about
      `b` with `b`'s single position, `b` is told about `a` with `a`'s, and
      the update is broadcast. */
  method SecondArrives(s: TrackingServer, a: Id, b: Id, pa: Pos, pb: Pos, dist: (Pos, Pos) -> nat)
    returns (out: seq<Emit>)
    requires s.Valid() && a != b && dist(pb, pa) <= Threshold
    requires s.order == [a] && s.clients == map[a := pa]
    requires a in s.history && b in s.history && s.history[a] == [pa] && s.history[b] == []
    modifies s
    ensures out == [Emit(To(a), ProximityAlert(b, dist(pb, pa), [pb])),
                    Emit(To(b), ProximityAlert(a, dist(pb, pa), [pa])),
                    Emit(Everyone, LocationUpdate(b, pb.lat, pb.lon))]
  {
    ghost var history := s.history;
    out := s.SendLocation(b, pb, dist);
    MeetingAfterUpdate(a, b, pa, pb, history, dist);
  }

  /** Two clients meeting, from an empty server: `a`'s update emits only
      the broadcast, `b`'s update the pair of alerts and then the broadcast. */
  method TwoClientsMeet(a: Id, b: Id, pa: Pos, pb: Pos, dist: (Pos, Pos) -> nat)
    returns (first: seq<Emit>, out: seq<Emit>)
    requires a != b && dist(pb, pa) <= Threshold
    ensures first == [Emit(Everyone, LocationUpdate(a, pa.lat, pa.lon))]
    ensures out == [Emit(To(a), ProximityAlert(b, dist(pb, pa), [pb])),
                    Emit(To(b), ProximityAlert(a, dist(pb, pa), [pa])),
                    Emit(Everyone, LocationUpdate(b, pb.lat, pb.lon))]
  {
    var s;
    s, first := FirstArrives(a, pa, dist);
    SecondConnects(s, a, b, pa);
    out := SecondArrives(s, a, b, pa, pb, dist);
  }

  /** Whatever the server's state, a trail whose id has sent exactly 25
      positions since connecting holds positions 6 to 25, in order. */
  lemma TrailOfTwentyFive(s: TrackingServer, id: Id)
    requires s.Valid() && id in s.sent && |s.sent[id]| == 25
    ensures id in s.history && s.history[id] == s.sent[id][5..] && |s.history[id]| == MaxTrail
  {
  }

  /** One `sendLocation` from `id`, seen only through what it does to the
      positions `id` has sent. */
  method SendOne(s: TrackingServer, id: Id, p: Pos, dist: (Pos, Pos) -> nat)
    requires s.Valid() && id in s.sent
    modifies s
    ensures s.Valid() && id in s.sent && s.sent[id] == old(s.sent[id]) + [p]
  {
    var _ := s.SendLocation(id, p, dist);
  }

  /** Sending the positions `ps` in order, one `sendLocation` each, from a
      freshly reset trail: `id` has then sent exactly `ps`. */
  method SendAll(s: TrackingServer, id: Id, ps: seq<Pos>, dist: (Pos, Pos) -> nat)
    requires s.Valid() && id in s.sent && s.sent[id] == []
    modifies s
    ensures s.Valid() && id in s.sent && s.sent[id] == ps
  {
    var i := 0;
    while i < |ps|
      invariant 0 <= i <= |ps|
      invariant s.Valid() && id in s.sent && s.sent[id] == ps[..i]
    {
      SendOne(s, id, ps[i], dist);
      assert ps[..i] + [ps[i]] == ps[..i + 1];
      i := i + 1;
    }
    assert ps[..|ps|] == ps;
  }

  /** A client connects and sends the 25 positions `ps` in order: its trail
      is then positions 6 to 25. */
  method TwentyFiveSends(s: TrackingServer, id: Id, ps: seq<Pos>, dist: (Pos, Pos) -> nat)
    requires s.Valid() && |ps| == 25
    modifies s
    ensures s.Valid() && id in s.history && s.history[id] == ps[5..]
  {
    var _ := s.Connect(id);
    SendAll(s, id, ps, dist);
    TrailOfTwentyFive(s, id);
  }
}
