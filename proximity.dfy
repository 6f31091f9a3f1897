/**
 The proximity scan that follows every position update: the sender is
 compared with every other client that has a position, in the order the
 clients' entries are visited, and each one within the threshold yields a
 pair of alerts.
 */
module Proximity {
  import opened Types

  /** Every id of `ids` has a position and a trail. */
  predicate Known(ids: seq<Id>, clients: map<Id, Pos>, history: map<Id, seq<Pos>>)
  {
    forall x :: x in ids ==> x in clients && x in history
  }

  /** `other` is a different client whose position is within the threshold of
      the sender's new position `p`. The distance is taken from `p` to the
      other's position, in that argument order. */
  predicate InRange(sender: Id, p: Pos, other: Id, q: Pos, dist: (Pos, Pos) -> nat)
  {
    other != sender && dist(p, q) <= Threshold
  }

  /** What one iteration of the scan emits for the entry `other`. */
  function Step(sender: Id, p: Pos, other: Id, clients: map<Id, Pos>,
                history: map<Id, seq<Pos>>, dist: (Pos, Pos) -> nat): seq<Emit>
    requires sender in history && other in clients && other in history
  {
    if InRange(sender, p, other, clients[other], dist) then
      var d := dist(p, clients[other]);
      [Emit(To(other), ProximityAlert(sender, d, history[sender])),
       Emit(To(sender), ProximityAlert(other, d, history[other]))]
    else
      []
  }

  /** Everything the scan over the entries `ids` emits, in order. */
  function Scan(sender: Id, p: Pos, ids: seq<Id>, clients: map<Id, Pos>,
                history: map<Id, seq<Pos>>, dist: (Pos, Pos) -> nat): seq<Emit>
    requires sender in history && Known(ids, clients, history)
    decreases |ids|
  {
    if ids == [] then []
    else
      var last := ids[|ids| - 1];
      Scan(sender, p, ids[..|ids| - 1], clients, history, dist)
        + Step(sender, p, last, clients, history, dist)
  }

  /** Reference definition: the entries of `ids` that are in range, in order. */
  function Partners(sender: Id, p: Pos, ids: seq<Id>, clients: map<Id, Pos>,
                    dist: (Pos, Pos) -> nat): (r: seq<Id>)
    requires forall x :: x in ids ==> x in clients
    ensures forall x :: x in r ==> x in ids
    decreases |ids|
  {
    if ids == [] then []
    else
      var last := ids[|ids| - 1];
      Partners(sender, p, ids[..|ids| - 1], clients, dist)
        + (if InRange(sender, p, last, clients[last], dist) then [last] else [])
  }

  /** A partner is exactly an entry other than the sender within the
      threshold: ids beyond it, and the sender itself, are never partners. */
  lemma {:induction false} PartnersAreInRange(sender: Id, p: Pos, ids: seq<Id>,
                                              clients: map<Id, Pos>, dist: (Pos, Pos) -> nat)
    requires forall x :: x in ids ==> x in clients
    ensures forall x :: x in Partners(sender, p, ids, clients, dist) <==>
              x in ids && x != sender && dist(p, clients[x]) <= Threshold
  {
    if ids != [] {
      var init := ids[..|ids| - 1];
      assert forall x :: x in ids <==> x in init || x == ids[|ids| - 1];
      PartnersAreInRange(sender, p, init, clients, dist);
    }
  }

  /** Partners keep the entries' order, so distinct entries give distinct
      partners: each in-range client is alerted about once. */
  lemma {:induction false} PartnersDistinct(sender: Id, p: Pos, ids: seq<Id>,
                                            clients: map<Id, Pos>, dist: (Pos, Pos) -> nat)
    requires forall x :: x in ids ==> x in clients
    requires Distinct(ids)
    ensures Distinct(Partners(sender, p, ids, clients, dist))
  {
    if ids != [] {
      var init := ids[..|ids| - 1];
      var last := ids[|ids| - 1];
      PartnersDistinct(sender, p, init, clients, dist);
      PartnersAreInRange(sender, p, init, clients, dist);
      assert last !in init;
    }
  }

  /** The scan emits exactly one pair per partner, in the partners' order;
      in each pair the alert to the partner (about the sender, carrying the
      sender's trail) comes first and the alert to the sender (about the
      partner, carrying the partner's trail) second, both with the same
      distance. */
  lemma {:induction false} ScanIsOnePairPerPartner(sender: Id, p: Pos, ids: seq<Id>,
                                                   clients: map<Id, Pos>, history: map<Id, seq<Pos>>,
                                                   dist: (Pos, Pos) -> nat)
    requires sender in history && Known(ids, clients, history)
    ensures var r, q := Scan(sender, p, ids, clients, history, dist),
                        Partners(sender, p, ids, clients, dist);
            && |r| == 2 * |q|
            && forall k :: 0 <= k < |q| ==>
                 && r[2 * k] == Emit(To(q[k]), ProximityAlert(sender, dist(p, clients[q[k]]), history[sender]))
                 && r[2 * k + 1] == Emit(To(sender), ProximityAlert(q[k], dist(p, clients[q[k]]), history[q[k]]))
  {
    if ids != [] {
      var init := ids[..|ids| - 1];
      ScanIsOnePairPerPartner(sender, p, init, clients, history, dist);
    }
  }

  /** No alert goes to the client it is about. */
  lemma {:induction false} NoAlertToSelf(sender: Id, p: Pos, ids: seq<Id>,
                                         clients: map<Id, Pos>, history: map<Id, seq<Pos>>,
                                         dist: (Pos, Pos) -> nat)
    requires sender in history && Known(ids, clients, history)
    ensures forall e :: e in Scan(sender, p, ids, clients, history, dist) ==>
              e.to.To? && e.msg.ProximityAlert? && e.to.id != e.msg.from
  {
    if ids != [] {
      NoAlertToSelf(sender, p, ids[..|ids| - 1], clients, history, dist);
    }
  }

  /** Every alert carries the trail of the client named in its `from` field. */
  lemma {:induction false} PathIsTrailOfFrom(sender: Id, p: Pos, ids: seq<Id>,
                                             clients: map<Id, Pos>, history: map<Id, seq<Pos>>,
                                             dist: (Pos, Pos) -> nat)
    requires sender in history && Known(ids, clients, history)
    ensures forall e :: e in Scan(sender, p, ids, clients, history, dist) ==>
              e.msg.ProximityAlert? && e.msg.from in history && e.msg.path == history[e.msg.from]
  {
    if ids != [] {
      PathIsTrailOfFrom(sender, p, ids[..|ids| - 1], clients, history, dist);
    }
  }

  /** An entry is told about the sender if and only if it is another client
      within the threshold (exactly Threshold meters included), and then with
      that distance and the sender's trail. */
  lemma {:induction false} AlertToOtherIff(sender: Id, p: Pos, ids: seq<Id>,
                                           clients: map<Id, Pos>, history: map<Id, seq<Pos>>,
                                           dist: (Pos, Pos) -> nat, x: Id, d: nat, path: seq<Pos>)
    requires sender in history && Known(ids, clients, history)
    ensures Emit(To(x), ProximityAlert(sender, d, path)) in Scan(sender, p, ids, clients, history, dist)
            <==> x in ids && x != sender && d == dist(p, clients[x]) <= Threshold && path == history[sender]
  {
    if ids != [] {
      var init := ids[..|ids| - 1];
      assert forall y :: y in ids <==> y in init || y == ids[|ids| - 1];
      AlertToOtherIff(sender, p, init, clients, history, dist, x, d, path);
    }
  }

  /** The sender is told about an entry if and only if it is another client
      within the threshold, and then with that distance and that client's
      trail. */
  lemma {:induction false} AlertToSenderIff(sender: Id, p: Pos, ids: seq<Id>,
                                            clients: map<Id, Pos>, history: map<Id, seq<Pos>>,
                                            dist: (Pos, Pos) -> nat, x: Id, d: nat, path: seq<Pos>)
    requires sender in history && Known(ids, clients, history)
    ensures Emit(To(sender), ProximityAlert(x, d, path)) in Scan(sender, p, ids, clients, history, dist)
            <==> x in ids && x != sender && d == dist(p, clients[x]) <= Threshold && path == history[x]
  {
    if ids != [] {
      var init := ids[..|ids| - 1];
      assert forall y :: y in ids <==> y in init || y == ids[|ids| - 1];
      AlertToSenderIff(sender, p, init, clients, history, dist, x, d, path);
    }
  }

  /** Two clients meeting: `a` and then `b` connected and sent one position
      each, `b`'s last. The scan of `b`'s update yields one pair from the
      entry of `a`, each alert carrying the single position of its `from`
      party, and nothing from `b`'s own entry. */
  lemma MeetingScan(a: Id, b: Id, pa: Pos, pb: Pos, clients: map<Id, Pos>,
                    history: map<Id, seq<Pos>>, dist: (Pos, Pos) -> nat)
    requires a != b && dist(pb, pa) <= Threshold
    requires a in clients && b in clients && clients[a] == pa && clients[b] == pb
    requires a in history && b in history && history[a] == [pa] && history[b] == [pb]
    ensures Scan(b, pb, [a, b], clients, history, dist)
            == [Emit(To(a), ProximityAlert(b, dist(pb, pa), [pb])),
                Emit(To(b), ProximityAlert(a, dist(pb, pa), [pa]))]
  {
    assert [a, b][..1] == [a] && [a][..0] == [];
    assert Scan(b, pb, [a], clients, history, dist) == Step(b, pb, a, clients, history, dist);
    assert Scan(b, pb, [a, b], clients, history, dist)
        == Scan(b, pb, [a], clients, history, dist) + Step(b, pb, b, clients, history, dist);
  }
}
