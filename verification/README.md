# ez-tickets order core in Dafny

A model of the command side of the ez-tickets order API, which is written in Rust. It covers:

- the event-sourced **Order** and **Table** aggregates:
  - `publish` turns a command into an event;
  - the live `apply` changes the state and reports its effects;
  - the replay projection (`first` and `apply`) rebuilds a state from a log;
- the command and event enums and their payload codec;
- the value newtypes `OrderId`, `TableId`, `ProductId`, `Quantity` and `TableName`;
- order creation from a command (`TryFrom<(OrderId, OrderCommand)> for Order`);
- `OrderCommandService::execute` and the `find_or_replay` helper it uses.

Everything is an immutable datatype or a pure function. The actor runtime underneath the service is modelled as a `World` with three parts:
- a registry of live orders, each with its state and version;
- a log of events per order;
- the event stream.

Delivering a command to a live order (`employ`) publishes an event and then applies it. The live `apply` returns its effects as a list: append the event to the log, emit it on the stream, and stop the actor if the event is terminal. The runtime performs these effects. The log and the stream tag are those of the id the order's state carries (its `aggregate_id`), which need not be the key the actor is registered under.

The Rust projection panics on two kinds of history:
- a first event that is not the creation event;
- a terminal event (`Settled`, `Deregistered`) folded into a state.

Here replay returns the fault `HistoryFault(NotACreationEvent)` or `HistoryFault(FoldedTerminalEvent)` instead. `find_or_replay` reports such a fault as an extra application error, `CorruptHistory`. Every other replay failure is `Formation`, as in the code.

Four things the Rust code takes from its environment are inputs of the model:
- **Runtime failures.** A `Runtime` record says whether `find`, `spawn` or the delivery of `employ` fails on this request.
- **The product catalogue.** It is a function `ProductId -> Result<Option<V>, InquiryError>`.
- **The random id that `OrderId::default()` mints.** It is a parameter `minted`, which must be fresh: not live and with an empty log.
- **`HashMap` key iteration order.** It is a parameter `keyOrder`, which must list the `AddProducts` keys exactly once each.

The main results:
- **Live application and replay reach the same state** (`OrderLifecycle.LiveAndReplayAgree`). The log that a live order writes while it handles a command sequence replays to the state the actor holds. Once the order has settled, replaying that log is the folded-terminal fault.
- **`execute` preserves consistency** (`ServiceProperties.ExecuteKeepsConsistent`). Consistency means two things: every log is stamped with its order, and every live order agrees with its log. The single exception is shown by a lemma (`FailedCreateDeliveryLeavesUnloggedOrder`).
- **Settling is final** (`ServiceProperties.SettleIsFinal`). On a consistent world, a settled order can never be revived by replay.

## Model

| member | source | states |
|---|---|---|
| OrderIds.RoundTrip | kernel/src/entities/order/id.rs:8-24 | `Uuid::from(OrderId::new(u)) == u`, `OrderId::new(Uuid::from(o)) == o`, and `as_ref` yields the same UUID as `From` |
| OrderIds.EqualIffSameUuid | kernel/src/entities/order/id.rs:5-6 | two order ids are equal exactly when their UUIDs are |
| TableIds.RoundTrip | kernel/src/entities/table/id.rs:8-24 | `new` and `From` are mutually inverse, and `as_ref` agrees with `From` |
| TableIds.EqualIffSameUuid | kernel/src/entities/table/id.rs:5-6 | two table ids are equal exactly when their UUIDs are |
| ProductIds.RoundTrip | kernel/src/entities/order/product_id.rs:7-23 | `new` and `From` are mutually inverse, and `as_ref` agrees with `From` |
| ProductIds.EqualIffSameUuid | kernel/src/entities/order/product_id.rs:4-5 | product ids are equal exactly when their UUIDs are, which makes them usable as map keys |
| Quantities.RoundTrip | kernel/src/entities/order/quantity.rs:3-22 | every `i32`, zero and negatives included, wraps and unwraps to itself; `as_ref` agrees with `From` |
| TableNames.RoundTrip | kernel/src/entities/table/name.rs:3-22 | every string, the empty one included, wraps and unwraps to itself; `as_ref` returns the whole string |
| OrderAggregate.New | kernel/src/entities/order.rs:34-40 | a new order has exactly the given id and table and no product batches |
| OrderAggregate.Publish | kernel/src/entities/order.rs:75-93 | `publish` never rejects; the event carries the order's own id, records exactly the given command, and `Settled` carries the order's table |
| OrderAggregate.Apply | kernel/src/entities/order.rs:99-118 | the event is persisted and then published, once each; only `Settled` stops the actor; `AddedProducts` appends exactly its batch at the end; `Created` and `Settled` leave the state unchanged; id and table never change |
| OrderAggregate.First | kernel/src/entities/order.rs:130-135 | replay starts only from `Created{id, table}`, giving `Order::new(id, table)`; any other first event is the `NotACreationEvent` fault |
| OrderAggregate.Project | kernel/src/entities/order.rs:137-151 | folding agrees with live apply on every event except `Settled`, which is the `FoldedTerminalEvent` fault |
| OrderAggregate.LiveStateAccumulates | kernel/src/entities/order.rs:105-108 | live application of a sequence keeps id and table and appends one batch per `AddedProducts`, in order |
| OrderAggregate.Fold | kernel/src/entities/order.rs:137-151 | the projection `apply` folded over the events after the first; characterised by `OrderAggregate.FoldMatchesLive`: it faults exactly on a `Settled` event and otherwise equals live application |
| OrderAggregate.FoldMatchesLive | kernel/src/entities/order.rs:137-151 | a fold fails exactly when it meets a `Settled` event, with the terminal fault; otherwise it equals live application |
| OrderAggregate.Replay | kernel/src/entities/order.rs:128-151 | `projection_to_latest` on an order log: `first` on the head, then the fold, at version = log length; characterised by `OrderAggregate.ReplayCharacterised` |
| OrderAggregate.ReplayCharacterised | kernel/src/entities/order.rs:128-151 | replay succeeds exactly on a non-empty log that starts with `Created` and holds no later `Settled`; it then gives `Order(id, table, batches)` at version = log length; each failure case is stated with its error |
| OrderAggregate.ReplayExtends | kernel/src/entities/order.rs:137-151 | appending an event to a replayable log advances the replayed state by live apply and the version by one; appending `Settled` makes it the terminal fault |
| OrderAggregate.BatchesOfConcatenation | kernel/src/entities/order.rs:139-141 | the batches of a concatenated log are the batches of its parts, in order |
| OrderFormation.TryFrom | kernel/src/io/command/order.rs:20-28 | building an order succeeds exactly for `Create`, giving `Order::new(id, table)` with no batches; the other commands give `FormationError` |
| OrderFormation.CreationRoundTrip | kernel/src/io/command/order.rs:20-28 | the `Created` event that `publish` makes for `Create{table}`, fed to `first`, rebuilds exactly the order `try_from` built; replaying it alone gives that order at version 1 |
| OrderLifecycle.Handle | kernel/src/entities/order.rs:75-118 | one command handled by the live actor: `publish`, then `apply` of the published event; its effects are those of `OrderAggregate.Apply` |
| OrderLifecycle.Run | kernel/src/entities/order.rs:75-118 | commands handled in order until the actor stops; characterised by `OrderLifecycle.RunKeepsReplayInStep` and `OrderLifecycle.LiveAndReplayAgree` |
| OrderLifecycle.SettleHeadStops | kernel/src/entities/order.rs:99-145 | a live order handed `Settle` first stops after it; its log gains `Settled`, and replaying the log is the terminal fault |
| OrderLifecycle.OtherHeadContinues | kernel/src/entities/order.rs:99-114 | a command other than `Settle` does not stop the order; the run's end state, stopping and persisted events are those of the rest of the run, after this command's one event |
| OrderLifecycle.RunKeepsReplayInStep | kernel/src/entities/order.rs:75-151 | handling commands one by one on an order that agrees with its log keeps it agreeing; the run stops exactly at a `Settle`, after which the log ends in `Settled` and replay is the terminal fault |
| OrderLifecycle.LiveAndReplayAgree | kernel/src/entities/order.rs:99-151 | for `Create` followed by any commands, the log starts with `Created`; without a `Settle`, replaying it gives exactly the live state and version; with one, the log ends in `Settled` and replay is the terminal fault |
| TableAggregate.New | kernel/src/entities/table.rs:29-31 | a new table stores exactly the given id and name |
| TableAggregate.Publish | kernel/src/entities/table.rs:62-75 | `publish` never rejects; the event carries the table's own id and records exactly the given command |
| TableAggregate.Apply | kernel/src/entities/table.rs:81-100 | the event is persisted and then published; `Registered` and `Renamed` set the name and keep the id; `Deregistered` leaves the state unchanged and is the only event that stops the actor |
| TableAggregate.RenameIdempotent | kernel/src/entities/table.rs:91-93 | applying the same `Renamed` twice gives the state that applying it once gives |
| TableAggregate.First | kernel/src/entities/table.rs:113-118 | replay starts only from `Registered{id, name}`, giving `Table::new(id, name)`; any other first event is the `NotACreationEvent` fault |
| TableAggregate.Project | kernel/src/entities/table.rs:120-134 | folding agrees with live apply except on `Deregistered`, which is the terminal fault |
| TableAggregate.LiveStateTakesLastName | kernel/src/entities/table.rs:87-97 | after live application of a sequence, the name is that of the last `Registered` or `Renamed` |
| TableAggregate.Fold | kernel/src/entities/table.rs:120-134 | the projection `apply` folded over the events after the first; characterised by `TableAggregate.FoldMatchesLive`: it faults exactly on `Deregistered` and otherwise equals live application |
| TableAggregate.FoldMatchesLive | kernel/src/entities/table.rs:120-134 | a fold fails exactly when it meets `Deregistered`, with the terminal fault; otherwise it equals live application |
| TableAggregate.Replay | kernel/src/entities/table.rs:110-134 | `projection_to_latest` on a table log; characterised by `TableAggregate.ReplayCharacterised` |
| TableAggregate.ReplayCharacterised | kernel/src/entities/table.rs:110-134 | replay succeeds exactly on a non-empty log that starts with `Registered` and holds no later `Deregistered`; the name is then that of the last naming event, at version = log length |
| OrderEvents.Encode | kernel/src/io/event/order.rs:8-22 | the `serde_json::to_vec` half of the codec: the variant name and each named field; inverted by `OrderEvents.Decode`, as `OrderEvents.DecodeEncode` proves |
| OrderEvents.EncodeProducts | kernel/src/io/event/order.rs:14-17 | a product map's payload has exactly the product UUIDs as keys, each mapped to its quantity |
| OrderEvents.DecodeProducts | kernel/src/io/event/order.rs:14-17 | a payload map decodes exactly when every value fits in `i32`, and decodes to a map that encodes back to it |
| OrderEvents.DecodeCreated | kernel/src/io/event/order.rs:10-13 | a `Created` payload decodes only to a `Created` event whose encoding it contains |
| OrderEvents.DecodeAddedProducts | kernel/src/io/event/order.rs:14-17 | an `AddedProducts` payload decodes only to an `AddedProducts` event whose encoding it contains |
| OrderEvents.DecodeSettled | kernel/src/io/event/order.rs:18-21 | a `Settled` payload decodes only to a `Settled` event whose encoding it contains |
| OrderEvents.Decode | kernel/src/io/event/order.rs:7-22 | a payload decodes only to an event whose encoding it contains: the same variant and the same field values |
| OrderEvents.DecodeEncodeProducts | kernel/src/io/event/order.rs:14-17 | decoding an encoded product map gives the map back |
| OrderEvents.DecodeEncode | kernel/src/io/event/order.rs:7-22 | decoding an encoded order event gives the event back |
| OrderEvents.LogRoundTrip | kernel/src/io/event/order.rs:8 | a stored order log decodes, record by record, to the events it was written from (an instance of `Payloads.LogRoundTrip`) |
| TableEvents.Encode | kernel/src/io/event/table.rs:6-19 | the `serde_json::to_vec` half of the table codec; inverted by `TableEvents.Decode`, as `TableEvents.DecodeEncode` proves |
| TableEvents.Decode | kernel/src/io/event/table.rs:5-19 | a payload decodes only to an event whose encoding it contains |
| TableEvents.DecodeEncode | kernel/src/io/event/table.rs:5-19 | decoding an encoded table event gives the event back |
| TableEvents.LogRoundTrip | kernel/src/io/event/table.rs:6 | a stored table log decodes, record by record, to the events it was written from (an instance of `Payloads.LogRoundTrip`) |
| Payloads.GetUuid | kernel/src/io/event/order.rs:10-13 | a UUID field reads back exactly when present with that type, giving its value; a missing field is `MissingField` and a field of another type is `InvalidType` |
| Payloads.GetText | kernel/src/io/event/table.rs:8-11 | a text field reads back exactly when present with that type, giving its value; a missing field is `MissingField` and a field of another type is `InvalidType` |
| Payloads.GetQuantities | kernel/src/io/event/order.rs:14-17 | a quantities field reads back exactly when present with that type, giving its value; a missing field is `MissingField` and a field of another type is `InvalidType` |
| Payloads.DecodeFrom | kernel/src/io/event/order.rs:8 | a log decodes exactly when every record does, to the records' values in order; otherwise the error names the first record that fails and its reason |
| Payloads.LogRoundTrip | kernel/src/io/event/order.rs:8 | for any codec whose decoder inverts its encoder, a log written with the encoder decodes, record by record, to the values it was written from |
| Process.StepEffects | kernel/src/entities/order.rs:99-114 | a live step appends and then emits its event, once each, and stops the actor exactly when the event is terminal |
| Process.EffectsOfConcatenation | kernel/src/entities/order.rs:99-114 | the events persisted and published by consecutive steps are those of each step, in order; the run stops if either part does |
| ProcessManager.ReplayToLatest | app-cmd/src/adapter.rs:33 | `projection_to_latest` reads the whole log of the order and replays it; what it yields is stated by `OrderAggregate.ReplayCharacterised` and used in `Adapter.FindOrReplay` |
| ProcessManager.Spawn | app-cmd/src/adapter.rs:35-36 | spawning registers exactly the given state and version under the id, touching no log and no stream |
| ProcessManager.PerformAllAppends | kernel/src/entities/order.rs:100 | performing a step's effects extends the log of the order the live state names (its `aggregate_id`) by exactly the persisted events |
| ProcessManager.PerformAllIsolated | kernel/src/entities/order.rs:100 | performing a step's effects leaves the log of every order other than the one the live state names as it was |
| ProcessManager.PerformAllEmits | kernel/src/entities/order.rs:101 | performing a step's effects extends the stream by exactly the published events, tagged with the id the live state names |
| ProcessManager.PerformAllStops | kernel/src/entities/order.rs:109-111 | the actor registered under the addressed key leaves the registry exactly when its effects stop it |
| ProcessManager.Employ | app-cmd/src/services/order.rs:46-48 | a failed delivery is `Process` and changes nothing; otherwise the published event carries the live state's own id, the log of that order and the stream (under that id) each grow by that one event and no other log changes; the entry under the addressed key advances by live apply and version + 1, or is removed on `Settle` |
| ProcessManager.AppendKeepsStamped | kernel/src/entities/order.rs:81-89 | appending an event stamped with the order to that order's log alone keeps every log stamped |
| ProcessManager.EmployKeepsAgreement | kernel/src/entities/order.rs:99-151 | after a delivery, every live order still replays from its log to its state and version |
| ProcessManager.EmployKeepsConsistent | app-cmd/src/services/order.rs:46-48 | delivering a command to a live order keeps the world consistent |
| Adapter.ReplayFailure | app-cmd/src/adapter.rs:33-34 | a history fault (a panic in Rust) is `CorruptHistory`; every other replay failure is `Formation` |
| Adapter.FindOrReplay | app-cmd/src/adapter.rs:21-41 | a `find` error is `Process`; a hit is returned with nothing changed; a miss replays the whole log and spawns exactly the replayed state and version, or reports the replay error with nothing spawned, or `Process` if the spawn fails; no log or stream is written |
| Adapter.FindOrReplayKeepsConsistent | app-cmd/src/adapter.rs:33-36 | an order spawned from its replayed log agrees with that log, so the world stays consistent |
| OrderService.CheckProducts | app-cmd/src/services/order.rs:36-44 | the check queries keys in order and stops at the first unavailable one; it passes exactly when every key is available; a query error is `Io` and a missing product is `NotFound` |
| OrderService.Resolve | app-cmd/src/services/order.rs:22-34 | `Create` ignores the caller's id and spawns `Order::new(minted, table)` at version 0, or fails with `Process`; any other command needs an id (`RequiredId`) and goes through find-or-replay; no log or stream is written |
| OrderService.Deliver | app-cmd/src/services/order.rs:36-50 | delivery succeeds exactly when the product check passes and delivery works; a failure changes nothing; a success appends one event recording the command, stamped with the live state's id, to that order's log and emits it under that id |
| OrderService.Execute | app-cmd/src/services/order.rs:16-51 | `Kernel` never surfaces; a failure appends and emits nothing; `Create` never fails with `Formation` and succeeds exactly when spawn and delivery both work; a command without an id is `RequiredId` with nothing changed; a success appends one event recording the command to the log of the order the resolved live state names (the minted one for `Create`), stamped with that id, emits it under that id, and touches no other log |
| OrderService.AddresseeIsTarget | app-cmd/src/adapter.rs:30-38 | on a consistent world the order a resolved request reaches is the one it addressed: the minted id for `Create`, the given id otherwise |
| ServiceProperties.CreateDeliveredKeepsConsistent | app-cmd/src/services/order.rs:22-29 | a delivered `Create` leaves the new order with the log `[Created(minted, table)]` and the world consistent |
| ServiceProperties.ExecuteKeepsConsistent | app-cmd/src/services/order.rs:16-51 | on a consistent world, `execute` keeps every log stamped with its order and every live order agreeing with its log, except for the case in the next row; a success's event carries the addressed id |
| ServiceProperties.FailedCreateDeliveryLeavesUnloggedOrder | app-cmd/src/services/order.rs:28-29 | a `Create` whose spawn succeeds but whose delivery fails reports `Process`, yet leaves a live order with an empty log, so the world is no longer consistent |
| ServiceProperties.AddProductsNeedsEveryProduct | app-cmd/src/services/order.rs:31-48 | `AddProducts` succeeds exactly when an id is given, the order resolves, every product is in the catalogue, and delivery works |
| ServiceProperties.EmptyProductsQueryNothing | app-cmd/src/services/order.rs:36-44 | the catalogue is queried for nothing exactly when the product map is empty; an empty map always passes |
| ServiceProperties.FailedCheckEmploysNothing | app-cmd/src/services/order.rs:33-44 | a failed check returns its own error; the world is left as find-or-replay left it, so a replayed order stays spawned, but no event is logged or emitted |
| ServiceProperties.SettledOrderIsNotResurrected | app-cmd/src/adapter.rs:30-38 | when `find` answers, a command other than `Create` sent to an order that is not live and whose log holds `Settled` fails with `CorruptHistory` and changes nothing |
| ServiceProperties.SettleAppendsSettled | kernel/src/entities/order.rs:75-93 | a successful `Settle` on a consistent world appends exactly `Settled(id, table)`, where `table` is the one the order's `Created` event names |
| ServiceProperties.ForeignLogSettlesItsOwner | kernel/src/entities/order.rs:99-111 | a log under `k` that starts with `Created(j, table)` for another `j` replays to order `j`, so a `Settle` addressed to `k` persists and publishes `Settled(j, table)` under `j`, leaves `k`'s log unchanged, and stops the actor under `k` |
| ServiceProperties.SettleIsFinal | kernel/src/entities/order.rs:109-111 | after a successful `Settle` on a consistent world, the order is no longer live and, whenever `find` answers, every later command to it other than `Create` fails with `CorruptHistory` |
| Scenario.Step | app-cmd/src/services/order.rs:46-50 | a successful request on a consistent world appends to the addressed log exactly the event its command determines: `Created(minted, table)`, `AddedProducts(id, products)`, or `Settled(id, table)` with the table of the log's `Created` |
| Scenario.LiveRequest | app-cmd/src/services/order.rs:30-48 | in a runtime where nothing fails, a command other than `Create` sent to a live order that carries its own id, whose products are all in the catalogue, reaches that order, succeeds, and keeps the minted id fresh |
| Scenario.CreateStage | app-cmd/src/services/order.rs:22-29 | on a consistent world in a healthy runtime, `Create(table)` succeeds and the new order is live with the log `[Created(order, table)]`, the world staying consistent |
| Scenario.AddStage | app-cmd/src/services/order.rs:30-48 | on a consistent world in a healthy runtime, `AddProducts(m)` to a live order whose products are all known succeeds and appends exactly `AddedProducts(order, m)` to its log, the world staying consistent |
| Scenario.SettleStage | app-cmd/src/services/order.rs:30-48 | on a consistent world in a healthy runtime, `Settle` to a live order succeeds and appends exactly `Settled(order, table)`, with the table its `Created` named; the order then leaves the registry, and a following `AddProducts` fails with `CorruptHistory` and changes nothing |

## Left out

- I/O and async. The HTTP server, TCP listener, signal handling and tracing output are not modelled. Neither are the `Display` impls, or the `async` suspension points inside `execute`.
- Concurrency. The race between `find` and `spawn`, and the actor's mailbox serialisation, are not modelled. Each request runs to completion on one world.
- The actor runtime's internals. The mailbox, `poison_pill` scheduling and the storage and stream backends are not modelled. The runtime is the `World` record, plus one flag per failing call in `Runtime`.
- Failing appends and publishes. `apply` awaits the log append and the stream publish and discards their outcome (kernel/src/entities/order.rs:100-101, kernel/src/entities/table.rs:82-83). The model takes both to always succeed; `Runtime` has flags only for `find`, `spawn` and delivery. A store that drops an append would leave the live state one event ahead of its log, which is outside what `Consistent` covers.
- The JSON text syntax. Payloads are modelled at the level of serde's data model: a variant name plus named fields. The logs hold events rather than payloads, because every event round-trips through the codec (`OrderEvents.LogRoundTrip`, `TableEvents.LogRoundTrip`). As a result, the `Undecodable` replay error, which only a log corrupted from outside can raise, never reaches `find_or_replay`.
- Randomness. `OrderId::default()` and the other `Default` impls draw a random UUID. The model takes that UUID as the input `minted`, which must be fresh.
- The product catalogue. `kernel/src/services/product.rs` defines only a trait, so the catalogue is a function argument, and the product view it returns is a type parameter.
- Table-side service. The Table aggregate has no command service in this core, so tables are modelled only at the aggregate level.
- Event type tags. The tags the event macro registers with the runtime are not modelled. Replay is instantiated at one aggregate at a time.
- Panics. The Rust projection panics on a corrupt history. The model returns `HistoryFault` instead, which `find_or_replay` reports as `CorruptHistory`; the Rust application error enum has no such variant.
- Missing equality. `Quantity`, `TableName`, `Order`, `Table`, `OrderCommand`, `OrderEvent`, `TableCommand` and `TableEvent` derive no `PartialEq` in Rust. Dafny datatypes always have one, and the model uses it only in contracts, to say which value a member produces.
- OrderService.Execute: the event is addressed to the id the resolved live state carries, as `aggregate_id` does. That this is the addressed id holds only when the live entry agrees with its key, so it is proved under consistency (`OrderService.AddresseeIsTarget`, `ServiceProperties.ExecuteKeepsConsistent`); `ServiceProperties.ForeignLogSettlesItsOwner` shows a world where it fails.
- ServiceProperties.SettleIsFinal: it requires a consistent world. Outside one, a live entry under the addressed key may carry another order's id, and `Settled` then lands in that order's log, so the addressed order can be replayed again.
- Scenario.LiveRequest: it requires that the live order carry the id it is registered under. Otherwise the event would go to the log of the order the state names, which could be the minted id.
