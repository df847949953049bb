# Mock socket service: event hub and metric simulator

This project models `src/services/socketService.ts` of a Vue dashboard. The file
stands in for a live telemetry feed and has two parts:

- **The event hub** (`event_hub.dfy`, module `EventHub`). It keeps a record from event
  name to a list of callbacks. The record starts with four empty channels:
  `sales-update`, `traffic-update`, `users-update` and `revenue-update`.
  - `on(event, cb)` creates the list if it is missing, appends `cb`, and returns an
    unsubscribe closure.
  - The closure looks up `cb` with `indexOf` and removes that first occurrence with `splice`.
  - `emit(event, data)` calls every callback in the list, in list order.
  - The record is the field `callbacks: map<string, seq<CallbackId>>` of class `Hub`.
  - The closure is the value `Handle(event, callback)`, which is passed to `Hub.Unsubscribe`.
  - `Hub.Emit` returns the calls it makes, as `Call(callback, payload)` values.
  - The pure functions `Subscribed`, `Unsubscribed` and `Deliveries` specify the methods.
    The lemmas are stated about these functions.
- **The metric simulator** (`metric_simulator.dfy`, module `MetricSimulator`). It holds
  three series (sales, traffic, revenue) and two counters (`userCount`, `activeUsers`).
  - Each tick of the interval moves every value by `floor(random * k) - k / 2`.
  - It then emits four events in a fixed order.
  - Each random draw is a parameter `r` with `0 <= r < k`, so a tick is a deterministic step.
  - `Perturb` is the per-series `.map`, and `Next` is the whole state step.
  - `Simulator.Tick` performs the step on the fields of class `Simulator`. It returns the
    four emissions it made through the hub.

Callbacks are opaque, so they are modelled as ids (`CallbackId = nat`). The hub only
compares them for equality.

### Where the code and the design description disagree (the model follows the code)

- A subscription is identified by its callback **value**, not by a separate identity.
  If the same callback is registered twice, either handle removes the first entry.
  Calling one handle twice therefore removes both entries. `UnsubscribeTwice` states
  exactly when a second call changes anything. `ResubscribeHandleRemovesOlder` shows
  that the newer handle removes the older entry.
- A second call of a handle is a no-op only when the callback is no longer in the list
  (`UnsubscribeAbsentIsNoOp`). The design description calls it idempotent in every case.
- The users payload carries no conversion rate in this model (see below).

## Model

| member | source | states |
|---|---|---|
| `EventHub.InitialRegistry` | src/services/socketService.ts:14-19 | the registry starts with exactly the four channels, each with an empty list |
| `EventHub.Hub.constructor` | src/services/socketService.ts:14-19 | a new hub holds the initial registry, so all four channels are present |
| `EventHub.IndexOf` | src/services/socketService.ts:36 | the result is -1 exactly when the callback is absent; otherwise it is a position holding the callback with no earlier occurrence |
| `EventHub.RemoveFirst` | src/services/socketService.ts:36-39 | if the callback is absent the list is unchanged; otherwise the list is one shorter and its multiset loses exactly one copy of the callback |
| `EventHub.RemoveFirstOfSplit` | src/services/socketService.ts:36-38 | removing from `a + [cb] + b`, where `a` has no `cb`, gives `a + b`, so the other entries keep their order |
| `EventHub.Subscribed` | src/services/socketService.ts:29-33 | the event's list (empty if the event was missing) gets `cb` appended; the event becomes a key; no other event's list changes |
| `EventHub.Unsubscribed` | src/services/socketService.ts:35-39 | the event's list loses the first occurrence of `cb`; the keys and every other event's list are unchanged |
| `EventHub.Deliveries` | src/services/socketService.ts:24 | there is one call per list entry, at the same position, each with the emitted payload |
| `EventHub.DeliveryMultiplicity` | src/services/socketService.ts:24 | a callback is invoked as many times as it is registered: twice if registered twice, never if absent |
| `EventHub.EmitUnknownIsSilent` | src/services/socketService.ts:23 | emitting an event that has no list invokes nothing |
| `EventHub.SubscribeDeliversLast` | src/services/socketService.ts:29-33 | after `on`, emit makes the same calls as before plus one call of `cb`, made last |
| `EventHub.UnsubscribeRemovesFirst` | src/services/socketService.ts:36-38 | a handle on `a + [cb] + b`, where `a` has no `cb`, leaves `a + b` |
| `EventHub.UnsubscribeAbsentIsNoOp` | src/services/socketService.ts:36-37 | a handle whose callback is no longer listed leaves the whole registry unchanged |
| `EventHub.UnsubscribeTwice` | src/services/socketService.ts:35-39 | a second call of a handle changes the registry if and only if the callback was registered at least twice |
| `EventHub.SubscribeUnsubscribeRoundTrip` | src/services/socketService.ts:29-39 | `on` followed by its own handle restores the list, if the callback was not already registered |
| `EventHub.ResubscribeHandleRemovesOlder` | src/services/socketService.ts:29-39 | when `cb` was already registered, `on` followed by the new handle moves `cb` to the end instead of removing it |
| `EventHub.TwoSubscribersScenario` | src/services/socketService.ts:22-41 | two callbacks on sales-update, the first unsubscribed: one emit calls only the second, once |
| `EventHub.Hub.On` | src/services/socketService.ts:29-41 | the registry becomes `Subscribed(old, event, cb)`; the returned handle names this event and callback, and the event's list exists; the four channels stay |
| `EventHub.Hub.Unsubscribe` | src/services/socketService.ts:35-40 | the registry becomes `Unsubscribed(old, event, cb)`, computed with `IndexOf` and a splice; the four channels stay |
| `EventHub.Hub.Emit` | src/services/socketService.ts:22-26 | the loop makes exactly `Deliveries` of the event's list (none for an unknown event) and does not change the registry |
| `EventHub.TwoSubscribersOnHub` | src/services/socketService.ts:29-41 | the two-subscriber scenario run through `On`, `Unsubscribe` and `Emit` makes the single call `Call(second, payload)` |
| `MetricSimulator.Perturb` | src/services/socketService.ts:46-48 | the series keeps its length, and element `i` moves by exactly the offset of draw `i` |
| `MetricSimulator.PerturbBounds` | src/services/socketService.ts:46-48 | with legal draws, each element moves by an offset in `[-(k/2), k - 1 - k/2]` |
| `MetricSimulator.PerturbReachesEveryOffset` | src/services/socketService.ts:46-48 | every target inside those bounds, negative values included, is reached by legal draws, so the bounds are exact and nothing is clamped |
| `MetricSimulator.PerturbRecoversDraws` | src/services/socketService.ts:46-48 | the draws can be recovered from the old and new series, so different draws give different series |
| `MetricSimulator.RunDrift` | src/services/socketService.ts:44-68 | after `n` ticks an element lies within `n * (k/2)` below and `n * (k - 1 - k/2)` above its start |
| `MetricSimulator.TickBounds` | src/services/socketService.ts:46-66 | a tick keeps series lengths; sales move in [-100, 99], traffic in [-50, 49] and revenue in [-500, 499]; userCount moves in [-5, 4] and activeUsers in [-4, 3] |
| `MetricSimulator.UsersScenario` | src/services/socketService.ts:58-59 | draws 8 and 2, which are offsets +3 and -2, turn users (1245, 789) into (1248, 787) |
| `MetricSimulator.Simulator.constructor` | src/services/socketService.ts:6-11 | the simulator starts from the initial series and counters |
| `MetricSimulator.Simulator.Tick` | src/services/socketService.ts:44-68 | the new state is `Next(old state, draws)`; exactly four emissions are made, in the order sales, traffic, users, revenue, each carrying the value just computed and the calls the hub made for it |

## Left out

- The `setInterval` timer and its 3000 ms period are not modelled. They are scheduling
  around the tick. `Simulator.Tick` is one run of the interval callback, and `Run`
  repeats it.
- Vue `ref` cells are not modelled. They are a reactivity wrapper, so the values are
  plain fields.
- `conversionRate` and its `toFixed(2)` rounding are not modelled, because they are
  floating-point arithmetic. The users payload carries `userCount` and `activeUsers` only.
- `Math.random` is not modelled. Each draw is an integer parameter with a range
  precondition.
- What callbacks do is not modelled: exceptions they throw, and `on` or unsubscribe
  calls made from inside a callback during `emit`. In particular, a `forEach` over a
  list spliced mid-iteration skips an entry, and the model does not capture that.
  `Hub.Emit` returns the calls it would make, given a registry that does not change
  during the emit.
- The payload is passed by value. In the source, the series arrays are passed by
  reference, so a callback that mutates them would change the simulator's state. That
  aliasing is not modelled.
- Event names that collide with inherited object properties (for example `toString`)
  are not modelled. `callbacks[event]` is truthy for them, so `on` does not create a
  list and `push` fails. The model treats every name as an ordinary key.
- `Hub.Unsubscribe` requires the handle's event to be a key. A closure exists only after
  `on` has created that list, and nothing removes keys, so the source always meets this.
- The exported read accessors (the default export) are not modelled as operations.
  `Simulator.Snapshot` gives the current values.
