/**
 The Socket.IO handlers of the tracking server as a class over its two
 process-wide dictionaries: `clients` (id to last position) and `history`
 (id to bounded trail). Each handler runs to completion and returns the
 records it emits, in emit order.
 */
module Server {
  import opened Types
  import opened Trail
  import opened Proximity

  /** `s` with `x` deleted; the other ids keep their order, as the remaining
      keys of a JavaScript object do after `delete`. */
  function Without(s: seq<Id>, x: Id): (r: seq<Id>)
    ensures forall y :: y in r <==> y in s && y != x
    ensures Distinct(s) ==> Distinct(r)
  {
    if s == [] then []
    else if s[0] == x then Without(s[1..], x)
    else
      var rest := Without(s[1..], x);
      assert Distinct(s) ==> Distinct(s[1..]) && s[0] !in s[1..];
      [s[0]] + rest
  }

  /** Deleting an absent key changes nothing. */
  lemma {:induction false} WithoutAbsent(s: seq<Id>, x: Id)
    requires x !in s
    ensures Without(s, x) == s
  {
    if s != [] {
      WithoutAbsent(s[1..], x);
    }
  }

  /** Deleting a present key removes exactly its one occurrence and keeps
      the order of the others. */
  lemma {:induction false} WithoutRemovesOne(s: seq<Id>, k: nat)
    requires Distinct(s) && k < |s|
    ensures Without(s, s[k]) == s[..k] + s[k + 1..]
  {
    var x := s[k];
    if k == 0 {
      assert x !in s[1..];
      WithoutAbsent(s[1..], x);
    } else {
      assert Distinct(s[1..]) && s[1..][k - 1] == x;
      WithoutRemovesOne(s[1..], k - 1);
      assert s[..k] + s[k + 1..] == [s[0]] + (s[1..][..k - 1] + s[1..][k..]);
    }
  }

  /** The `for` loop over the entries of `clients` that follows an update
      from `sender` to `p`: alerts are emitted entry by entry, in order. */
  method ScanEntries(sender: Id, p: Pos, ids: seq<Id>, clients: map<Id, Pos>,
                     history: map<Id, seq<Pos>>, dist: (Pos, Pos) -> nat) returns (out: seq<Emit>)
    requires sender in history && Known(ids, clients, history)
    ensures out == Scan(sender, p, ids, clients, history, dist)
  {
    out := [];
    var i := 0;
    while i < |ids|
      invariant 0 <= i <= |ids|
      invariant out == Scan(sender, p, ids[..i], clients, history, dist)
    {
      assert ids[..i + 1][..i] == ids[..i];
      var other := ids[i];
      var coords := clients[other];
      if other != sender {
        var d := dist(p, coords);
        if d <= Threshold {
          out := out + [Emit(To(other), ProximityAlert(sender, d, history[sender]))];
          out := out + [Emit(To(sender), ProximityAlert(other, d, history[other]))];
        }
      }
      i := i + 1;
    }
    assert ids[..|ids|] == ids;
  }

  /** Every trail holds the recent positions its id has sent. */
  ghost predicate TrailsRecent(history: map<Id, seq<Pos>>, sent: map<Id, seq<Pos>>)
  {
    history.Keys == sent.Keys && forall x :: x in history ==> history[x] == Recent(sent[x])
  }

  /** Replacing one id's trail and positions together keeps the others. */
  lemma TrailsRecentUpdate(history: map<Id, seq<Pos>>, sent: map<Id, seq<Pos>>, id: Id, positions: seq<Pos>)
    requires TrailsRecent(history, sent)
    ensures TrailsRecent(history[id := Recent(positions)], sent[id := positions])
  {
  }

  /** `order` lists the keys of `clients`, each once. */
  ghost predicate KeyOrder(order: seq<Id>, clients: map<Id, Pos>)
  {
    Distinct(order) && forall x :: x in order <==> x in clients
  }

  /** Assigning a key keeps the key order; a new key goes last. */
  lemma KeyOrderInsert(order: seq<Id>, clients: map<Id, Pos>, id: Id, p: Pos)
    requires KeyOrder(order, clients)
    ensures id in clients ==> KeyOrder(order, clients[id := p])
    ensures id !in clients ==> KeyOrder(order + [id], clients[id := p])
  {
    if id !in clients {
      DistinctAppend(order, id);
    }
  }

  /** Deleting a key (present or not) keeps the key order. */
  lemma KeyOrderDelete(order: seq<Id>, clients: map<Id, Pos>, id: Id)
    requires KeyOrder(order, clients)
    ensures KeyOrder(Without(order, id), clients - {id})
  {
  }

  class TrackingServer {
    /** id -> last reported position (absent until the first update) */
    var clients: map<Id, Pos>
    /** id -> trail of recent positions, oldest first */
    var history: map<Id, seq<Pos>>
    /** the keys of `clients` in insertion order: the order in which
        `Object.entries(clients)` visits them */
    var order: seq<Id>
    /** id -> every position it sent since its trail was last reset */
    ghost var sent: map<Id, seq<Pos>>

    /** Every positioned id has a trail (so `history[id]` is defined
        wherever the scan reads it), every trail is the recent part of what
        its id sent, and `order` lists the keys of `clients` once each. */
    ghost predicate Valid()
      reads this
    {
      && clients.Keys <= history.Keys
      && TrailsRecent(history, sent)
      && KeyOrder(order, clients)
    }

    /** The server starts with no clients and no trails. */
    constructor ()
      ensures Valid()
      ensures clients == map[] && history == map[] && order == []
    {
      clients, history, order := map[], map[], [];
      sent := map[];
    }

    /** A new connection: its trail is reset to empty; its position, if
        any, is left alone. Nothing is emitted. */
    method Connect(id: Id) returns (out: seq<Emit>)
      requires Valid()
      modifies this
      ensures Valid()
      ensures history == old(history)[id := []] && sent == old(sent)[id := []]
      ensures clients == old(clients) && order == old(order)
      ensures out == []
    {
      history := history[id := []];
      sent := sent[id := []];
      out := [];
    }

    /** The store update at the start of a `sendLocation` from `id`: the
        position is overwritten and pushed onto the trail, which is created
        empty first when it is missing. */
    method Record(id: Id, data: Pos)
      requires Valid()
      modifies this
      ensures Valid()
      ensures clients == old(clients)[id := data]
      ensures order == if id in old(clients) then old(order) else old(order) + [id]
      ensures var before := if id in old(history) then old(history)[id] else [];
              history == old(history)[id := Push(before, data)]
      ensures var before := if id in old(sent) then old(sent)[id] else [];
              sent == old(sent)[id := before + [data]]
    {
      KeyOrderInsert(order, clients, id, data);
      if id !in clients {
        order := order + [id];
      }
      clients := clients[id := data];

      var trail: seq<Pos> := [];
      ghost var positions: seq<Pos> := [];
      if id in history {
        trail, positions := history[id], sent[id];
      }
      ghost var before := trail;
      assert before == if id in history then history[id] else [];
      assert positions == if id in sent then sent[id] else [];
      trail := trail + [data];
      if |trail| > MaxTrail {
        trail := trail[1..];
      }
      assert trail == Push(before, data);
      PushRecent(positions, data);
      TrailsRecentUpdate(history, sent, id, positions + [data]);
      history := history[id := trail];
      sent := sent[id := positions + [data]];
    }

    /** A `sendLocation` event from `id` with position `data`; `dist` stands
        for the great-circle distance in whole meters. */
    method SendLocation(id: Id, data: Pos, dist: (Pos, Pos) -> nat) returns (out: seq<Emit>)
      requires Valid()
      modifies this
      ensures Valid()
      ensures clients == old(clients)[id := data]
      ensures order == if id in old(clients) then old(order) else old(order) + [id]
      ensures var before := if id in old(history) then old(history)[id] else [];
              history == old(history)[id := Push(before, data)]
      ensures var before := if id in old(sent) then old(sent)[id] else [];
              sent == old(sent)[id := before + [data]]
      ensures out == Scan(id, data, order, clients, history, dist)
                     + [Emit(Everyone, LocationUpdate(id, data.lat, data.lon))]
      ensures forall e :: e in out[..|out| - 1] ==> e.msg.ProximityAlert?
    {
      Record(id, data);
      assert Known(order, clients, history);
      out := ScanEntries(id, data, order, clients, history, dist);
      NoAlertToSelf(id, data, order, clients, history, dist);
      ghost var alerts := out;
      out := out + [Emit(Everyone, LocationUpdate(id, data.lat, data.lon))];
      assert out[..|out| - 1] == alerts;
    }

    /** A `disconnect` of `id`: both of its entries are deleted and a
        `removeMarker` with the bare id goes to everyone. */
    method Disconnect(id: Id) returns (out: seq<Emit>)
      requires Valid()
      modifies this
      ensures Valid()
      ensures clients == old(clients) - {id} && history == old(history) - {id}
      ensures sent == old(sent) - {id} && order == Without(old(order), id)
      ensures out == [Emit(Everyone, RemoveMarker(id))]
    {
      KeyOrderDelete(order, clients, id);
      clients := clients - {id};
      history := history - {id};
      sent := sent - {id};
      order := Without(order, id);
      out := [Emit(Everyone, RemoveMarker(id))];
    }
  }
}
