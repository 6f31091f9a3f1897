# Proximity tracking server: a Dafny model

This project models the per-event state machine of the Socket.IO server in
`server.js` (Active-tracking). The server keeps two process-wide
dictionaries:

- `clients` maps a connection id to its last reported position.
- `history` maps a connection id to a trail of at most 20 recent positions.

It reacts to three events:

- **connection** resets the trail of the new id.
- **sendLocation** overwrites the position and pushes it onto the trail,
  dropping the oldest entry once the trail is longer than 20. It then scans
  every client that has a position. For each *other* client at most 100 m
  away (closed threshold), it emits a pair of `proximityAlert`s. Last, it
  broadcasts one `locationUpdate` to everyone.
- **disconnect** deletes both entries and broadcasts `removeMarker` with the
  bare id.

Files:

- `types.dfy` (module `Types`): ids, positions (`Pos`), the three messages,
  and an emitted record `Emit(to, msg)`. The recipient is `Everyone` (for
  `io.emit`) or `To(id)` (for `io.to(id).emit` and `socket.emit`). Also the
  constants `MaxTrail = 20` and `Threshold = 100`.
- `trail.dfy` (module `Trail`): one push-then-shift step (`Push`), the trail
  built by a sequence of updates (`Replay`), and the reference definition
  "the last min(N, 20) positions" (`Recent`), with the lemmas that connect
  them.
- `proximity.dfy` (module `Proximity`): the scan as a specification
  function (`Scan`, one `Step` per entry), a reference definition of the
  in-range partners (`Partners`), and the alert-protocol lemmas.
- `server.dfy` (module `Server`): the class `TrackingServer` with the two
  maps as fields. It also holds `order`, the insertion order of the keys of
  `clients`, which is the order in which `Object.entries` visits them. A
  ghost field `sent` records, per id, every position sent since its trail
  was last reset. The methods are `Connect`, `SendLocation` and
  `Disconnect`; each returns the records it emits, in emit order.
  `ScanEntries` is the handler's `for` loop. `Record` is the handler's store
  update.
- `scenarios.dfy` (module `Scenarios`): two walk-throughs stated over the
  handlers. In the first, two clients meet on an empty server. In the
  second, a client connects to a server in any valid state and sends 25
  positions.

The invariant `TrackingServer.Valid()` holds across all three handlers. It
says:

- every id in `clients` has a trail, so `history[id]` at server.js:49 is
  always defined;
- every trail equals `Recent` of the positions its id sent since connect;
- `order` lists the keys of `clients` once each.

The distance `geolib.getDistance` is a parameter `dist: (Pos, Pos) -> nat`
in whole meters. The model assumes nothing about it, not even symmetry.

## Model

| member | source | states |
|---|---|---|
| `Trail.Replay` | server.js:24-34 | Defines the trail left by the connect reset to `[]` followed by one push-then-shift per position sent; it never holds more than 20 positions. |
| `Trail.Recent` | server.js:31-34 | Reference definition: the last min(N, 20) of the N positions sent, oldest first. |
| `Trail.Push` | server.js:31-34 | After push-then-shift the newest entry is the reported position, and a trail of at most 20 grows to min(length + 1, 20). |
| `Trail.ReplayKeepsLast` | server.js:24-34 | Starting from the empty trail set on connect, N updates leave exactly the last min(N, 20) positions, oldest first. |
| `Trail.PushRecent` | server.js:31-34 | One push-then-shift on the recent positions gives the recent positions of the extended history. This is the step that keeps the trail invariant. |
| `Trail.TwentyFiveUpdates` | server.js:31-34 | After 25 updates the trail is updates 6 to 25, in order. |
| `Proximity.Step` | server.js:38-51 | Defines one iteration of the loop body for one entry. Another client within 100 m yields the alert to it and then the alert to the sender, both with the same distance. The sender's own entry and farther entries yield nothing. |
| `Proximity.Scan` | server.js:37-53 | Defines everything the loop emits: the steps for the entries, concatenated in visiting order. |
| `Proximity.PartnersAreInRange` | server.js:37-40 | A client is alerted about exactly when it is another client with a position within 100 m, with 100 included. The sender and farther clients never are. |
| `Proximity.PartnersDistinct` | server.js:37-40 | Over distinct entries, each in-range client appears once among the partners. |
| `Proximity.ScanIsOnePairPerPartner` | server.js:37-53 | The scan emits exactly two alerts per partner, in entry order. The first goes to the partner with `from` = sender and the sender's trail. The second goes to the sender with `from` = partner and the partner's trail. Both carry the same distance. |
| `Proximity.NoAlertToSelf` | server.js:38-50 | Every record the scan emits is a unicast `proximityAlert` whose recipient differs from its `from`. |
| `Proximity.PathIsTrailOfFrom` | server.js:41-50 | The `path` of every alert is the current trail of the client named in its `from`. |
| `Proximity.AlertToOtherIff` | server.js:38-45 | A client x receives `{from: sender, distance: d, path}` if and only if x is an entry other than the sender, d is the distance from the new position to x's position, d <= 100, and path is the sender's trail. |
| `Proximity.AlertToSenderIff` | server.js:38-50 | The sender receives `{from: x, distance: d, path}` if and only if x is an entry other than the sender, d is that distance, d <= 100, and path is x's trail. |
| `Proximity.MeetingScan` | server.js:37-53 | With two clients, a then b, each with one position within range, b's scan yields one alert to a with b's single position, then one alert to b with a's single position. b's own entry yields nothing. |
| `Server.ScanEntries` | server.js:37-53 | The `for` loop over the entries emits exactly `Scan` of the entries. |
| `Server.Without` | server.js:60 | `delete` removes just that key from the key order and keeps the keys distinct. |
| `Server.WithoutAbsent` | server.js:60 | Deleting a missing key leaves the key order unchanged. |
| `Server.WithoutRemovesOne` | server.js:60 | Deleting a present key removes its single occurrence and keeps the others in order. |
| `Server.TrackingServer.Valid` | server.js:18-62 | The invariant the handlers keep. Every id in `clients` has a trail. Every trail is `Recent` of the positions its id sent since its last connect. `order` lists the keys of `clients` once each. That the new keys go last and deletion keeps the others in order is stated by the ensures of `Record` and `Disconnect`. |
| `Server.TrackingServer.constructor` | server.js:18-19 | The server starts with both dictionaries empty and the invariant established. |
| `Server.TrackingServer.Connect` | server.js:21-24 | The id's trail becomes empty, `clients` and the key order are untouched, nothing is emitted, and the invariant is kept. |
| `Server.TrackingServer.Record` | server.js:27-34 | `clients[id]` becomes the position (a new key goes last in the order). `history[id]` becomes one push-then-shift of its old trail, or of `[]` when it was missing. No other entry of either map changes, and the invariant is kept. |
| `Server.TrackingServer.SendLocation` | server.js:26-56 | The new state is the one `Record` gives. The output is the scan over the entries in key order, using the updated trails, followed by one `locationUpdate {id, lat, lon}` to everyone. Every record before that broadcast is a proximity alert. |
| `Server.TrackingServer.Disconnect` | server.js:58-63 | The id is deleted from `clients`, `history` and the key order, and nothing else changes. Exactly one `removeMarker` with the bare id is emitted to everyone. The invariant is kept. |
| `Scenarios.LoneScan` | server.js:37-53 | When the sender is the only entry, the scan emits nothing, because its own entry is skipped. |
| `Scenarios.FirstUpdate` | server.js:26-55 | On a server with no positions, an update from `a`, whose trail is empty, makes `a` the only entry and its trail `[pa]`. It emits only the broadcast `locationUpdate`. |
| `Scenarios.FirstArrives` | server.js:18-55 | From an empty server, `a` connects and reports `pa`. Afterwards `a` is the only entry, with trail `[pa]`, and the update emitted only the broadcast. |
| `Scenarios.SecondConnects` | server.js:21-24 | When `b` then connects, the entries and `a`'s trail are unchanged, and `b` has an empty trail. |
| `Scenarios.MeetingAfterUpdate` | server.js:27-53 | On the store that `b`'s first update leaves, the scan yields exactly the two meeting alerts, each carrying the single position of its `from` client. |
| `Scenarios.SecondArrives` | server.js:26-56 | When `b` then reports `pb` within 100 m of `a`, `SendLocation` emits exactly three records. First the alert to `a` with `[pb]`, then the alert to `b` with `[pa]`, then the broadcast update. |
| `Scenarios.TwoClientsMeet` | server.js:18-56 | The whole meeting from an empty server. `a`'s update emits only the broadcast. `b`'s update emits exactly those three records. |
| `Scenarios.TrailOfTwentyFive` | server.js:24-34 | In any valid state, an id that has sent exactly 25 positions since connecting has a trail of positions 6 to 25, in order, which is 20 entries. |
| `Scenarios.SendOne` | server.js:26-34 | One `SendLocation` keeps the invariant and appends its position to what the id has sent. |
| `Scenarios.SendAll` | server.js:26-34 | Starting from a reset trail, one `SendLocation` per position of `ps`, in order, leaves the id having sent exactly `ps`. |
| `Scenarios.TwentyFiveSends` | server.js:21-34 | A client connects and sends 25 positions through `SendLocation`. Its trail is then positions 6 to 25, and the invariant still holds. |

## Left out

- Express, HTTP, CORS and `server.listen` (server.js:1-16, 66-68): framework setup with no logic.
- Socket.IO delivery: an emit is modelled as appending a record to the list the handler returns. Delivery, serialisation and dropping messages for closed connections are the transport's concern.
- `console.log` (server.js:22, 59): output only.
- `geolib.getDistance`: floating-point great-circle maths in a library. It is the parameter `dist`, and no property of it is assumed. So the model does not show that A's update and B's update report the same distance; it shows only that the two alerts of one pair carry the same value.
- Coordinates are `real` values that are passed through unchanged. No floating-point arithmetic happens in the modelled code.
- `locationUpdate` payload: the source spreads the whole `data` object (`{id: socket.id, ...data}`). The model carries only `lat` and `lon`. Extra fields are not modelled. Neither is the case where a `data.id` field would override the sender's id in the payload.
- `path` aliasing: the source passes a live reference to the trail array. The model sends the trail's value at emit time. Within one handler the trail does not change after the alerts are emitted.
- Key order of `Object.entries`: modelled as insertion order. JavaScript lists integer-like keys first in numeric order; Socket.IO ids are not of that form, so this is not modelled.
- Payload validation: the source checks nothing, and neither does the model.
- Concurrency: each handler runs to completion on the event loop. The model treats each method call as atomic.
- Error paths: the source has no DuplicateSession or UnknownSession errors, and the model follows the source. A repeated connect resets the trail and keeps the position. An update for an id with no trail starts a new empty trail. A disconnect of an unknown id deletes nothing and still broadcasts `removeMarker`.
- `Record`: this is the first half of the `sendLocation` handler (server.js:27-34), split out as its own method; `SendLocation` calls it before the scan.
