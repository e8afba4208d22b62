# Cabin telemetry server — a verified model

`server.js` runs a small simulated aircraft cabin and streams its telemetry
over WebSockets. The cabin has four channels:

- `sns.temp`, a temperature starting at 22;
- `prop.aircon`, "OFF" or "ON";
- `comms.recd`, a counter that stays 0;
- `comms.sent`, a running byte count.

The server runs one update at start-up and then one every second. An update
has three steps:

1. The temperature falls by 0.02 while the air conditioning is "ON", and
   never goes below 0.
2. Every channel's current value is appended, with one shared timestamp, to
   that channel's history, and every reading's JSON length is added to
   `comms.sent`.
3. Every open connection's listener runs once, in connection order.

Each connection sends space-separated text lines. The verbs are:

- `dictionary`: ask for the channel dictionary;
- `subscribe <id>`: start receiving the channel;
- `unsubscribe <id>`: stop receiving it;
- `history <id>`: ask for the channel's readings so far.

Each listener pushes the latest reading of every subscribed channel that has
a history. A key press on the console flips the air conditioning.

The model has three modules:

- `Simulation` (`simulation.dfy`): the cabin as a value, the decay rule, the
  toggle, and the history store. It specifies one tick as the function
  `RecordAll`, a left fold over the channels in `Object.keys` order.
- `Protocol` (`protocol.dfy`):
  - `split(' ')` and dispatch on the verb;
  - a connection's subscription list, the ordered keys of its
    `subscriptions` object;
  - the replies;
  - `notifySubscribers` as the function `Pushes`;
  - the fan-out of one tick over all listeners, `FanOut`.
- `Server` (`engine.dfy`): the class `Engine`, which holds the mutable server
  state. Its fields are `cabin`, `histories`, `listeners` (one connection id
  per registered `notifySubscribers`) and `subs` (each connection's
  subscription list). Each method is proved against the specification
  functions above. `Valid()` bundles three invariants:
  - the cabin invariant: the temperature is never negative and `comms.recd`
    stays 0;
  - the store invariant: after `n` ticks exactly the four channels have
    histories, each holding `n` readings;
  - the registry invariant: listeners are distinct and in connection order,
    and there is exactly one subscription list per listener with no
    repeated id.

## Model

| member | source | states |
|---|---|---|
| Simulation.Decay | server.js:25-31 | the temperature never goes below 0 and never rises; it drops by exactly 0.02, clamped at 0, when `prop.aircon` is "ON"; with any other value the cabin is unchanged; no other channel changes |
| Simulation.DecayWhileOn | server.js:25-31 | `n` steps with the air conditioning on leave it on and lower the temperature to max(0, t − 0.02·n) |
| Simulation.DecayWhileOff | server.js:25-31 | with the air conditioning not "ON", any number of steps leaves the cabin unchanged |
| Simulation.Toggled | server.js:116-117 | the result is "ON" exactly when the old value was "OFF", and it is always "ON" or "OFF" |
| Simulation.ToggleTwice | server.js:116-117 | toggling twice restores "ON" or "OFF" |
| Simulation.ChannelsFacts | server.js:16-21 | the four cabin keys have distinct names, and they are exactly the channel names |
| Simulation.RecordAllCabin | server.js:35-40 | recording leaves the temperature, `prop.aircon` and `comms.recd` as they were; `comms.sent` grows by at least one per channel recorded |
| Simulation.RecordAllOthers | server.js:35-38 | recording adds exactly the recorded channels' keys to the store (`histories[id] \|\| []`); every other history is untouched |
| Simulation.RecordAllAppends | server.js:33-38 | each recorded channel's history grows by exactly one reading stamped with the tick's timestamp; all earlier readings stay in place |
| Simulation.RecordAllSnoc | server.js:35-40 | recording a list of channels and then one more is the same as recording the longer list, so the loop matches the fold |
| Simulation.RecordOneOthers | server.js:37-38 | recording one channel changes no other channel's history |
| Simulation.TickFirstThree | server.js:35-39 | after the first three keys, `comms.sent` has grown by exactly their three reading sizes, and the three histories each end in the right reading |
| Simulation.TickEffect | server.js:33-40 | one whole tick, exactly: all four readings share the timestamp; `comms.sent`'s own reading already includes the first three sizes; `comms.sent` grows by all four sizes; exactly the four histories gain one reading each |
| Simulation.TickRecordsTemp | server.js:35-38 | a tick records the temperature as it stands and does not change it or `prop.aircon` |
| Protocol.Split | server.js:90 | there is always at least one piece, and no piece contains a space |
| Protocol.JoinSplit | server.js:90 | joining the pieces with single spaces gives the line back, so splitting loses nothing |
| Protocol.SplitJoin | server.js:90 | pieces without spaces, once joined, split back into the same pieces |
| Protocol.SplitWord | server.js:90 | a line without spaces splits into itself alone |
| Protocol.SplitFirst | server.js:90 | `w + " " + rest` splits into `w` followed by the pieces of `rest` |
| Protocol.Parse | server.js:89-95 | a line is ignored exactly when its first piece is not one of the four verbs; each verb gives its own command (`dictionary` ignores any argument); the argument of the other three is the second piece, or "undefined" when there is none |
| Protocol.ParseRender | server.js:90-93 | every command whose argument has no space is read back unchanged from the line a client would send |
| Protocol.ParseIgnoresTrailing | server.js:90-93 | pieces after the argument do not change the command (`apply` drops extra arguments) |
| Protocol.UnknownVerbIsInert | server.js:91-94 | a line with an unknown verb leaves the subscriptions unchanged and gets no reply |
| Protocol.Without | server.js:63-65 | after `delete subscriptions[id]` the keys are exactly the old keys other than `id`; the list is unchanged if `id` was absent |
| Protocol.WithoutNoDup | server.js:63-65 | deleting a key keeps the key list free of duplicates |
| Protocol.WithoutConcat | server.js:98-102 | filtering distributes over concatenation, so the survivors keep their order |
| Protocol.WithoutAt | server.js:98-102 | in a list without duplicates, filtering out the element at position `i` removes exactly that position |
| Protocol.Added | server.js:60-62 | after `subscriptions[id] = true` the keys are the old keys plus `id`; the old keys stay first and in order; an existing key does not move; no key appears twice |
| Protocol.AddedWithout | server.js:60-65 | subscribing to a new id and then unsubscribing restores the subscription list |
| Protocol.Apply | server.js:60-65 | `subscribe` adds exactly the id and keeps the old keys first, in order; `unsubscribe` removes exactly the id; the other verbs leave the list alone |
| Protocol.ApplyNoDup | server.js:60-65 | no command makes a subscription list hold an id twice |
| Protocol.Lookup | server.js:70 | `histories[id]` has a value exactly when the id has been recorded, and then it is the stored sequence |
| Protocol.Respond | server.js:54-72 | at most one reply, sent exactly for `dictionary` and `history`: the dictionary, or the id with its stored history (or none) |
| Protocol.Pushes | server.js:75-86 | a connection's pushes are data messages for subscribed ids that have a history; each carries that history's last reading; there is at most one per subscription |
| Protocol.PushesConcat | server.js:76 | the pushes follow subscription order: pushes for `a + b` are those for `a`, then those for `b` |
| Protocol.PushesComplete | server.js:76-84 | every subscribed id with a history gets its latest reading pushed |
| Protocol.PushesNoDup | server.js:75-86 | a tick pushes no message twice to one connection |
| Protocol.FanOutSound | server.js:41-43 | every delivery of a tick goes to a registered listener and is a data message for an id that listener subscribes to |
| Protocol.FanOutConcat | server.js:41-43 | listeners run in registration order: the fan-out over `a + b` is that over `a`, then that over `b` |
| Protocol.FanOutTo | server.js:41-43 | in one tick a registered connection receives exactly its own pushes, once each, in order; an unregistered connection receives nothing |
| Protocol.ForConcat | server.js:41-43 | a connection's share of two delivery runs is its share of the first, then of the second |
| Protocol.ForAddressed | server.js:79 | a connection receives a listener's messages exactly when that listener is its own |
| Protocol.Addressed | server.js:79 | every message a listener sends goes to that listener's own connection, one delivery per message |
| Server.WithoutIncreasing | server.js:98-102 | the filter on close keeps the remaining listeners in connection order |
| Server.IncreasingCons | server.js:105 | a listener registered before all the others keeps the list in connection order |
| Server.IncreasingNoDup | server.js:105 | listeners in connection order are pairwise distinct |
| Server.WithoutAtEach | server.js:98-102 | closing a registered connection removes exactly its position from the listener list |
| Server.TickKeepsInvariants | server.js:33-40 | a tick keeps the cabin invariant, and takes the store invariant from `n` readings per channel to `n + 1` |
| Server.TickLengths | server.js:33-40 | after a tick, every history holds exactly one more reading than the tick count before it |
| Server.ConnectKeepsRegistry | server.js:104-105 | registering a fresh connection keeps the registry invariant |
| Server.CommandKeepsRegistry | server.js:52-95 | any command of one connection keeps the registry invariant |
| Server.CloseKeepsRegistry | server.js:97-102 | closing a connection keeps the registry invariant |
| Server.Engine.constructor | server.js:16-23 | the server starts with the initial cabin (22, "OFF", 0, 0), no histories, no listeners and the loaded dictionary |
| Server.Engine.UpdateCabin | server.js:25-31 | the new cabin is `Decay` of the old one, and the invariants hold |
| Server.Engine.Notify | server.js:75-86 | the loop over the subscription keys sends exactly `Pushes` of the connection's list |
| Server.Engine.Broadcast | server.js:41-43 | the loop over the listeners sends exactly the fan-out of the current pushes, in registration order |
| Server.Engine.RecordChannels | server.js:35-40 | the loop over the cabin keys leaves cabin and store equal to `RecordAll` over all four channels |
| Server.Engine.Record | server.js:36-39 | one iteration pushes the channel's current value onto its history and adds the reading's size to `comms.sent` |
| Server.Engine.GenerateTelemetry | server.js:33-44 | records all four channels at the given timestamp, then sends exactly the fan-out of the new pushes; the store invariant advances by one tick |
| Server.Engine.Update | server.js:46-49 | one decay step, then one telemetry round over the decayed cabin |
| Server.Engine.Connect | server.js:104-105 | a fresh connection gets an empty subscription list, and its listener is appended after all earlier ones |
| Server.Engine.HandleMessage | server.js:52-95 | the connection's subscription list becomes `Apply` of the parsed command; the replies are `Respond`'s (dictionary, or the stored history or none); an unknown verb changes nothing and sends nothing; other connections are untouched |
| Server.Engine.Close | server.js:97-102 | the connection's listener is removed from exactly its position, the others keep their order, and its subscriptions are dropped |
| Server.Engine.Toggle | server.js:115-117 | `prop.aircon` becomes `Toggled` of its old value; nothing else changes |
| Server.SubscribeTwoDropOne | server.js:60-65 | subscribing to `a` and `b` and then unsubscribing from `a` leaves exactly `[b]` |

Four client methods tie these together and carry no contract of their own:

- `StartAndCool`: the start-up tick runs with the air conditioning off and
  leaves the temperature at 22.
- `CoolOneTick`: after a toggle, the next tick records 21.98.
- `SubscribeThenUnsubscribe`: runs the three messages above through
  `HandleMessage`.
- `PushAfterTick`: shows that the next tick pushes exactly the latest
  reading of the one remaining channel.

## Left out

- WebSocket I/O (`ws.send`, event registration, the server socket and the
  port) is not modelled. Sending is modelled as returning the sent messages:
  `Outbound` values, or `Delivery` values addressed to a connection id.
- JSON encoding is not modelled. The dictionary file is read once and taken
  as an opaque string given to the constructor. The length of a reading's
  JSON text is a function `measure`, given to the constructor and assumed
  positive. Its exact values (digits of a float, escaping) are not modelled.
- The `history` reply for a missing argument carries the id "undefined".
  On the wire `JSON.stringify` omits an `undefined` field. A history of an
  unrecorded id is `None`, for the same reason.
- The clock (`Date.now`) is not modelled: the timestamp is a parameter of
  `Update`. Nothing is claimed about timestamps increasing.
- The timer (`setInterval`) is not modelled. The start-up `update()` is the
  caller's first `Update`.
- The console and stdin are not modelled. Each `data` event is one call to
  `Toggle`, and the log line is dropped.
- Floating point is not modelled: the temperature is a `real`. IEEE-754
  rounding of the repeated 0.02 subtraction is not captured, and neither is
  the float formatting of `comms.sent`.
- JavaScript object quirks are not modelled:
  - a verb that names an `Object.prototype` member (`toString`,
    `constructor`, `__proto__`, …) is treated as unknown and ignored. In
    `server.js`, `handlers[parts[0]]` finds those members, and
    `__proto__` would make `handler.apply` throw;
  - `Object.keys` lists integer-like keys first, in numeric order, so a
    subscription to such an id is not kept in insertion order there. The
    model keeps every key in insertion order.
- Protocol.Lookup, Protocol.Pushes: `histories[id]` at server.js:70 and
  :77 also finds `Object.prototype` members, and the model does not capture
  this. In the model an id that was never recorded has no history. In
  `server.js`, after `subscribe toString` (or `valueOf`, `constructor`, …)
  the function found there is truthy. So every tick pushes a data message
  for that id, and the message has no value field. Similarly, `history
  __proto__` replies with the value `{}` rather than no value.
- Exception isolation between listeners is not modelled. The code has
  none: a throwing `ws.send` would stop the `forEach` in
  `generateTelemetry`. Such failures cannot arise in the model.
- Concurrency is not modelled. Callbacks run to completion one at a time,
  as on the Node.js event loop. Each `Engine` method is one callback.
- Close: `server.js` filters the listener out and lets the `subscriptions`
  object become unreachable. The model deletes the connection's
  subscription list outright, so `subs` and `listeners` always name the
  same connections.
- The local `sent` declared in `generateTelemetry` is never used and is not
  modelled.
- Simulation.RecordAllCabin: states only that `comms.sent` grows by at least
  one per channel. The exact amount depends on `measure` and is given by
  `TickEffect`.
