# esp-ts event-sourcing core in Dafny

This project models the sequential core of a small TypeScript
event-sourcing engine:

- **Stream identity.** Channels are `{service, channel}` and streams are
  `{service, channel, id}`, both compared field by field.
- **The in-memory message log.** `logMessage` stamps every appended
  envelope with three counters:
  - a per-stream `version`, counted from 1;
  - a per-channel `channelVersion`, counted from 1;
  - a per-trace `depth`, counted from 0.
- **The dispatcher.** It holds a list of `(channel, offset)` subscriptions.
  `filter` decides whether a stored message is new to the dispatcher.
  `handle` runs the handler and then moves the offset.
- **`MessageStore.bind`.** It feeds the backfill, then the live items,
  through `distinct(id)`, `filter` and a one-at-a-time `handle`.
- **Aggregate projection.** `doProject` is the fast path, one event
  against a cached state. `hydrate` is the rebuild, a scan over the whole
  history. The two are proved to agree.
- **Message creation and handler APIs.** `createMessage` and
  `getMessageCreator` build messages and run `after` hooks. The three
  handler-definition layers (stream handlers, aggregate handlers,
  subscriptions) turn a declared output schema into a table of message
  creators per channel and tag.

Every operation is a pure function over immutable data:

- The log is a `seq<StoredMessage>`.
- A dispatcher is a value. `handle` returns the next dispatcher.
- A hook or handler function is a name (`HookId`, `HandleId`). Running
  hooks yields the list of calls made, `HookCall(hook, message)`.
- A closure that creates messages is kept as the data it captured
  (`BoundCreator`, `CreatorFactory`).
- The user's `project` function and the `get`/`update` backends are
  function parameters.
- Message ids are parameters, and `logMessage` requires a fresh one.

Files and modules, one module per source file:

| file | module | source |
|---|---|---|
| base.dfy | `Base` | helpers: `Option`, `Result`, a JSON-like `Value`, order-keeping `Select` (the source's `Array.filter`), `IndexBy` (a `reduce` into an object, last key wins), counters stamped per key |
| stream.dfy | `Stream` | src/stream/index.ts |
| message.dfy | `Messages` | src/message/index.ts |
| schema.dfy | `Schema` | channel schemas, `getStreamName`, creator tables |
| store.dfy | `Store` | `InMemoryMessageStoreDB` in src/store/index.ts |
| dispatcher.dfy | `Dispatch` | src/store/dispatcher.ts |
| bind.dfy | `Bind` | `getDispatcherStream` and `MessageStore.bind` in src/store/index.ts |
| aggregate.dfy | `Aggregate` | src/aggregate/index.ts |
| streamhandler.dfy | `StreamHandler` | src/stream/handler.ts |
| aggregatehandler.dfy | `AggregateHandler` | src/aggregate/handler.ts |
| subscription.dfy | `Subscriptions` | src/schema/subscription.ts |

Where the code and the documented design disagree, the model follows the
code:

- **`createMessage` returns a flat record.** The record is
  `{traceId, aggregateId, streamName, _tag, payload?}`
  (`Messages.MessageResult`). The handler tests read `.message._tag`, a
  nesting the code does not build.
- **A throwing handler ends the bound stream.** `handle` rethrows from its
  `finally`, and `concatMap` errors the stream. The design says one
  handler fault must not stop delivery. The model follows the code:
  `Bind.Pump` stops at the first `Threw` and returns the error, and the
  offset has already moved.
- **Channel schemas carry two names.** `getSubscriptionAPI` keys `send`
  by `channel.name`, while the handler modules key by `channel._tag`. The
  channel-schema module is not part of this model. `Schema.ChannelSchema`
  has one `name` field that serves as both.
- **Offsets can move back after `restore`.** The design says offsets
  only increase. `restore` accepts several subscriptions on one channel
  with different offsets, and `handle` then sets all of them to the
  handled message's channel version, which can lower the higher ones
  (`Dispatch.RestoredOffsetMovesBack`). Monotone offsets
  (`Bind.PumpAdvances`) are proved only for dispatchers whose
  subscriptions on one channel agree (`Dispatch.Coherent`), which
  `create` and `fromComponent` give. Each channel's lowest offset never
  drops on any dispatcher, and `filter` admits by that lowest offset, so
  the ordering and once-only delivery properties hold for every
  dispatcher.
- **`getStreamName`, `defineMessage` and `defineChannel` are not part of
  this model.** `getStreamName(channel)(id)` is taken to be
  `{service, channel: name, id}` (`Schema.StreamNameFor`).
- **The test backend of the aggregate is replaced.** That backend's `get`
  returns a state with no version. The agreement lemma uses a map-backed
  `get`/`update` instead (`Aggregate.MapGet`, `Aggregate.MapUpdate`).

## Model

| member | source | states |
|---|---|---|
| Stream.ChannelEqualsIsStructural | src/stream/index.ts:20-25 | two channels are `channelEquals` exactly when service and channel name agree |
| Stream.ChannelEqualsIgnoresId | src/stream/index.ts:20-25 | comparing two stream names as channels looks only at service and channel, never at the instance id |
| Stream.StreamEqualsIsStructural | src/stream/index.ts:14-19 | two stream names are `streamEquals` exactly when service, channel and id agree, and `streamEquals` implies `channelEquals` |
| Stream.EqualitiesAreEquivalences | src/stream/index.ts:14-25 | both equalities are reflexive, symmetric and transitive |
| Messages.RunHooks | src/message/index.ts:77-79 | the hooks are called once each, in list order, each on the same message |
| Messages.Invoke | src/message/index.ts:45-81 | a created message carries exactly the creator's trace id, aggregate id, stream name and tag; the payload is absent exactly when none was given, otherwise it is the argument; every `after` hook runs once, in order, on the message that is returned |
| Messages.CreatorStamps | src/message/index.ts:70-82 | `getMessageCreator(tag, streamName, after)(traceId)(id)(payload)` records the same `id` as `aggregateId` and inside `streamName(id)` |
| Schema.StreamNameFor | src/stream/handler.ts:109 | the stream name for `id` lies on the channel's topic and carries `id` |
| Schema.CreatorTable | src/aggregate/handler.ts:91 | a creator table has one creator for each requested tag and no other |
| Schema.CreatorTableStamps | src/aggregate/handler.ts:91 | each creator in a table stamps the table's trace id, the id as `aggregateId`, the channel's stream for that id, its own tag and the payload, and is seen once by each hook |
| Store.LogMessage | src/store/index.ts:27-35 | appending adds one entry at the end and leaves the earlier entries unchanged; the entry keeps the envelope whole and has the given id; the result is the entry's id, version and depth; a well-formed log stays well-formed |
| Store.AppendKeepsWellFormed | src/store/index.ts:29-33 | an entry stamped by counting the earlier entries, with a fresh id, keeps every entry's counters right and keeps ids distinct |
| Store.Replay | src/store/index.ts:27-35 | logging any list of envelopes into an empty store, with distinct ids, gives a well-formed log that holds the envelopes in call order |
| Store.StampedPerKey | src/store/index.ts:29-31 | in a well-formed log, each entry's version, channel version and depth count the earlier entries with the same stream, channel and trace |
| Store.StreamVersionsConsecutive | src/store/index.ts:41-43 | one stream's entries carry versions 1, 2, 3, ... in log order |
| Store.ChannelVersionsConsecutive | src/store/index.ts:44-46 | one channel's entries carry channel versions 1, 2, 3, ... in log order, whatever their instance ids |
| Store.TraceDepthsConsecutive | src/store/index.ts:47-49 | an entry's depth is its 0-based position among the entries of its trace |
| Store.StreamVersionsIncrease | src/store/index.ts:41-43 | of two entries on one stream, the later has the larger version, so `(streamName, version)` is unique |
| Store.ChannelVersionsIncrease | src/store/index.ts:44-46 | of two entries on one channel, the later has the larger channel version |
| Store.VersionAtMostChannelVersion | src/store/index.ts:29-30 | every entry has `1 <= version <= channelVersion` |
| Dispatch.Create | src/store/dispatcher.ts:19-24 | `create` makes one subscription per channel, in order, each at offset 0 |
| Dispatch.FromComponent | src/store/dispatcher.ts:30-37 | `fromComponent` makes one offset-0 subscription per declared input channel, on the channel's service and name |
| Dispatch.Restore | src/store/dispatcher.ts:41-46 | `restore` keeps the given subscriptions and offsets |
| Dispatch.SetOffset | src/store/dispatcher.ts:66-68 | the intended `setOffset` keeps the number, order and channels of the subscriptions, sets the offset of those on the message's channel and leaves the others alone |
| Dispatch.SetOffsetAsWritten | src/store/dispatcher.ts:66-68 | `setOffset` as written changes no subscription |
| Dispatch.Handle | src/store/dispatcher.ts:48-54 | `handle` passes on the handler's outcome, and the offsets move to the message's channel version whether the handler completed or threw |
| Dispatch.HandleAsWritten | src/store/dispatcher.ts:48-54 | `handle` as written passes on the outcome and leaves the dispatcher as it was |
| Dispatch.CreateAdmits | src/store/dispatcher.ts:56-64 | a created dispatcher admits a message exactly when it is on one of the channels and has a positive channel version |
| Dispatch.RestoreAdmits | src/store/dispatcher.ts:41-64 | restored at offset `k` on channel `c`, a dispatcher admits exactly the messages of `c` with channel version above `k` |
| Dispatch.HandledNotReadmitted | src/store/dispatcher.ts:48-68 | after the intended `handle(m)`, whatever the handler did, `filter(m)` is false |
| Dispatch.HandledReadmittedAsWritten | src/store/dispatcher.ts:66-68 | after `handle(m)` as written, an admitted message is still admitted |
| Dispatch.CreatedCoherent | src/store/dispatcher.ts:19-37 | dispatchers from `create` and `fromComponent` give subscriptions on one channel the same offset |
| Dispatch.AdmittedHandleAdvances | src/store/dispatcher.ts:48-68 | handling an admitted message keeps offsets coherent, never moves an offset back, and moves the message channel's offsets strictly forward to its channel version |
| Dispatch.RejectionPersists | src/store/dispatcher.ts:56-64 | a message a dispatcher turns away stays turned away once the offsets have moved forward |
| Dispatch.AdmittedHandleRaisesFloors | src/store/dispatcher.ts:48-68 | on any dispatcher, handling an admitted message leaves every subscription at or past some subscription of the same channel before, and every subscription on the message's channel at its channel version |
| Dispatch.RejectionPersistsFloors | src/store/dispatcher.ts:56-64 | a message a dispatcher turns away stays turned away while no channel's lowest offset drops |
| Dispatch.RestoredOffsetMovesBack | src/store/dispatcher.ts:41-68 | restored with offsets 5 and 2 on one channel, a message at channel version 3 is admitted and handling it sets both offsets to 3, moving the 5 back |
| Bind.GetDispatcherStream | src/store/index.ts:37-39 | the backfill holds exactly the log entries the dispatcher admits |
| Bind.Pump | src/store/index.ts:82-86 | every delivered item came from the input and had an id not seen before, no id is delivered twice, and the as-written pipeline never changes the dispatcher |
| Bind.PumpAdvances | src/store/index.ts:82-86 | running the pipeline keeps offsets coherent and only moves them forward |
| Bind.PumpDeliversPastOffsets | src/store/index.ts:82-86 | every delivered message was past the starting offset of each subscription it matches |
| Bind.PumpRaisesFloors | src/store/index.ts:82-86 | on any dispatcher, running the pipeline never lowers a channel's lowest offset |
| Bind.PumpDeliversAdmitted | src/store/index.ts:82-86 | on any dispatcher, every delivered message is one the starting dispatcher admits |
| Bind.PumpDeliversInChannelOrder | src/store/index.ts:82-86 | within one bound dispatcher, whatever its starting offsets, a channel's messages are handled in strictly increasing channel-version order, with `filter` checking each item once the handles before it have finished |
| Bind.PumpDeliversAll | src/store/index.ts:82-86 | a one-channel dispatcher is handed every item, in order, when the items are on its channel, past its offset, strictly rising and with fresh distinct ids |
| Bind.ChannelSelectionOrdered | src/store/index.ts:44-46 | in a well-formed log, one channel's entries rise strictly in channel version and have distinct ids |
| Bind.RestoredReceivesTail | src/store/index.ts:79-86 | a dispatcher restored at offset `k` on channel `c` and bound to a log is handed exactly the entries of `c` with channel version above `k`, in log order |
| Bind.RestoredReceivesLastEntries | src/store/index.ts:79-86 | with `n` entries on the channel, a dispatcher restored at offset `k` is handed `max(n - k, 0)` messages with channel versions `k + 1, k + 2, ...` |
| Bind.CreatedStream | src/store/index.ts:37-39 | a created dispatcher's backfill is its channel's entries, in log order |
| Bind.FreshDispatcherReceivesChannel | src/store/__tests__/dispatcher.spec.ts:62-76 | a dispatcher created after all logging is handed exactly its channel's entries, in log order, and none from other channels |
| Bind.BackfillThenLive | src/store/index.ts:73-86 | a created dispatcher's backfill followed by the next stored message on its channel is the channel's selection from the longer log |
| Bind.ChannelEntriesPositive | src/store/index.ts:30 | every entry of a well-formed log has channel version at least 1 |
| Bind.LiveMessageDelivered | src/store/index.ts:73-86 | a message logged while a dispatcher on its channel is bound reaches the handler after the backfill, once the feed carries stored messages |
| Bind.PumpCovers | src/store/index.ts:82-86 | after a complete pass with the intended `setOffset`, from any starting offsets, the dispatcher admits none of the items it was given, with `filter` checking each item once the handles before it have finished |
| Bind.RebindDeliversNothing | src/store/index.ts:79-86 | with the intended `setOffset`, binding the same log a second time delivers nothing, so each message is handled once, for any dispatcher including a restored one |
| Bind.DistinctRaw | src/store/index.ts:83 | `distinct` keyed on the missing `id` of raw envelopes lets at most the first through |
| Bind.BindAsWritten | src/store/index.ts:73-86 | as written, the bound dispatcher's offsets never move, and no raw envelope from the live feed passes `filter` |
| Bind.PumpAsWrittenDeliversAdmitted | src/store/index.ts:82-86 | as written, every admitted item with a fresh, distinct id is delivered and the dispatcher is unchanged |
| Bind.RebindRedeliversAsWritten | src/store/index.ts:79-86 | as written, binding the same log a second time hands the handler the whole backfill again |
| Bind.SampleLogged | src/store/index.ts:27-35 | the first message logged into an empty store gets version 1, depth 0 and channel version 1 |
| Bind.OutOfOrderBurst | src/store/index.ts:82-86 | channel versions 5 then 3 on one channel both pass `filter` against a fresh dispatcher's offsets, yet checked after the first handle only the first is handled, which is where the model's filter timing and the code's differ |
| Bind.RebindExample | src/store/dispatcher.ts:66-68 | with one logged message, the as-written second bind delivers it again, while the intended second bind delivers nothing |
| Bind.LiveExample | src/store/index.ts:73-77 | one message logged while bound: the as-written live feed admits nothing, while a feed of stored messages delivers it |
| Aggregate.DoProject | src/aggregate/index.ts:120-137 | the reply keeps the event's trace id; a failed `get` is returned with no projection and no write; `NotFound` projects from the initial state at version 0, otherwise from the cached state and version; a failed projection is returned with no write; otherwise `update` is called once with `(aggregateId, newState, version + 1)` and its reply is returned |
| Aggregate.ScanAll | src/aggregate/index.ts:141-147 | the scan's final success carries the number of events as its version; a failure carries the 1-based position of an event |
| Aggregate.Hydrate | src/aggregate/index.ts:139-159 | an empty history gives the initial state at version 0 and no write; a scan failure is returned with no write; otherwise the final state is written at version `n` and the update's reply is returned with version `n` |
| Aggregate.ScanIsFold | src/aggregate/index.ts:141-147 | the scan succeeds exactly when the left fold of `project` does, with the same state and version `n`; a failure is the fold's, at the first failing event, with every earlier event projected |
| Aggregate.FailureIsTerminal | src/aggregate/index.ts:142-144 | once the scan fails, later events change nothing |
| Aggregate.Commit | src/aggregate/index.ts:135 | a map-backed `update` stores the written state and version under the instance id and leaves the other instances alone |
| Aggregate.FastPathStep | src/aggregate/index.ts:120-137 | one `doProject` against the map store leaves other instances alone and moves its own instance to the projected state, one version on |
| Aggregate.FastPathIsFold | src/aggregate/index.ts:120-161 | from an empty store, projecting each emitted event in turn leaves each instance at the fold of its own events, at the number of those events |
| Aggregate.FastPathAgreesWithHydrate | src/aggregate/index.ts:120-159 | the fast path and `hydrate` over one instance's events give the same state and version |
| Aggregate.MathFold | src/aggregate/__tests__/aggregate.spec.ts:73-82 | Added 5, Subtracted 7 and Added 4 fold to total 2 |
| Aggregate.MathExample | src/aggregate/__tests__/aggregate.spec.ts:73-82 | those three events give total 2 at version 3 on both the fast path and `hydrate` |
| StreamHandler.DefineHandler | src/stream/handler.ts:56-69 | the tag is recorded as `_tag`, `config._tag` and `config.schema._tag`, the schemas are kept and `handle` becomes `execute` |
| StreamHandler.DefineHandlerInput | src/stream/handler.ts:71-72 | the input schema is the given channel and tag |
| StreamHandler.DefineHandlerChannel | src/stream/handler.ts:74-82 | the tag map has exactly the channel schema's keys, each flagged true exactly when it was requested |
| StreamHandler.DefineHandlerChannels | src/stream/handler.ts:85-90 | entries are keyed by channel name, and a later channel with the same name replaces an earlier one |
| StreamHandler.GetHandlerApi | src/stream/handler.ts:94-114 | for a schema keyed by channel name (as its type demands), the API has one factory per channel, on that entry's channel, whose tags are exactly the keys the `filter` keeps (those flagged true), carrying the trace id and the optional hook |
| StreamHandler.ApiCreatorsStamp | src/stream/handler.ts:99-111 | `api[k](id)` offers a creator for a tag exactly when entry `k` flags it true, and each creator makes that tag's message on the stream of `id` on channel `k`, with the trace id and the payload, seen once by the hook if there is one |
| StreamHandler.HandlerApiCreators | src/stream/handler.ts:94-114 | built from `defineHandlerChannels`, the API offers for each channel creators for exactly the requested declared tags, and each creator stamps the trace id, that channel's stream for the id, the tag and the payload, and runs the hook once |
| StreamHandler.Routes | src/stream/handler.ts:130-137 | the route table has one entry per outer key of the handlers: as written their `_tag`, which `defineHandler` sets to the input tag |
| StreamHandler.DefineHandlerMap | src/stream/handler.ts:125-138 | as written, the map carries its name and has one entry per handler `_tag`, that is per consumed input tag, not per channel |
| StreamHandler.DefineHandlerMapByChannel | src/stream/handler.ts:116-123 | routed as the `HandlerMap` type describes, the map carries its name and has one entry per input channel name |
| StreamHandler.RoutesIndexByKey | src/stream/handler.ts:130-137 | the table under each outer key indexes the handlers with that key by input tag, last wins, keeping the siblings already there |
| StreamHandler.RoutesOtherKey | src/stream/handler.ts:130-137 | adding a handler with another outer key changes neither this key's table nor the handlers with this key |
| StreamHandler.RoutesOwnKey | src/stream/handler.ts:133-136 | adding a handler puts it in its outer key's table under its input tag, keeping the siblings already there, or starts a new table holding only it |
| StreamHandler.NoRoutesNoneSelected | src/stream/handler.ts:130-137 | an outer key without a table belongs to no handler |
| StreamHandler.RoutesSound | src/stream/handler.ts:130-137 | every entry of the route table is one of the handlers, filed under its own outer key and its own input tag |
| StreamHandler.RoutesReachable | src/stream/handler.ts:130-137 | a handler is reachable at `[outer key][input tag]` unless a later handler has the same two keys |
| StreamHandler.HandlerReachable | src/stream/handler.ts:125-138 | as written, each handler is reachable at `[_tag][input tag]` unless a later handler has the same two keys |
| StreamHandler.HandlerMapKeyedByTag | src/stream/handler.ts:56-72 | a handler for tag `t` of channel `c`, built by `defineHandler` and `defineHandlerInput`, is filed as written at `[t][t]`, with no entry under the channel's name, while routed by input channel it sits at `[c][t]` |
| StreamHandler.HandlerReachableByChannel | src/stream/handler.ts:116-138 | routed by input channel, each handler is reachable at `[input channel][input tag]` unless a later handler has the same two keys, and every entry there is a handler of that channel and tag |
| AggregateHandler.DefineHandler | src/aggregate/handler.ts:42-55 | the input schema's tag (read as its `_tag`) is recorded at all three levels, the schemas are kept and `handle` becomes `execute` |
| AggregateHandler.DefineHandlerInput | src/aggregate/handler.ts:57-60 | the result is the channel's schema entry for the tag, and it is missing exactly when the channel does not declare the tag |
| AggregateHandler.DefineHandlerChannel | src/aggregate/handler.ts:62-68 | the output entry is the given channel and tag list |
| AggregateHandler.DefineHandlerChannels | src/aggregate/handler.ts:71-76 | entries are keyed by channel name, and a later channel with the same name replaces an earlier one |
| AggregateHandler.GetHandlerApi | src/aggregate/handler.ts:80-95 | the API has one factory per channel, whose tags are exactly the listed ones with duplicates collapsed, carrying the trace id and the optional hook |
| AggregateHandler.HandlerApiCreators | src/aggregate/handler.ts:80-95 | built from `defineHandlerChannels`, the API offers for each channel creators for exactly the listed tags, and each stamps the trace id, the channel's stream for the id, the tag and the payload, and runs the hook once |
| AggregateHandler.SampleOutputsShape | src/aggregate/__tests__/handler.spec.ts:29-32 | the sample output schema has channel `out` with `Out_1` and `Out_2`, and channel `out_2` with `Out_21` |
| AggregateHandler.SampleApiShape | src/aggregate/__tests__/handler.spec.ts:51-54 | the sample API has factories for `out` and `out_2`, for exactly those tags, with the hook |
| AggregateHandler.HandlerExample | src/aggregate/__tests__/handler.spec.ts:27-73 | the hook sees two messages on `out` and one on `out_2`, each with its tag and payload, stamped with the trace id and the channel's stream for the id |
| Subscriptions.ApiSuccess | src/schema/subscription.ts:106 | `success()` is the `Success` result |
| Subscriptions.ApiFailure | src/schema/subscription.ts:107 | `failure(reason, message)` is a `Failure` carrying both unchanged |
| Subscriptions.ApiIgnore | src/schema/subscription.ts:108 | `ignore()` is the `Ignore` result |
| Subscriptions.CreateHandler | src/schema/subscription.ts:75-84 | `tag` becomes `_tag`, and `input`, `outputs` and `execute` pass through unchanged |
| Subscriptions.CreateSubscription | src/schema/subscription.ts:86-98 | the four arguments come back unchanged as `name`, `input`, `outputs` and `handle` |
| Subscriptions.GetSubscriptionApi | src/schema/subscription.ts:100-123 | fails exactly when no handler is registered for the tag; otherwise `send` has one factory per output channel name, the last listed winning, for exactly that channel's message tags, carrying the trace id and the caller's hooks |
| Subscriptions.SubscriptionApiCreators | src/schema/subscription.ts:110-115 | for an output channel listed last under its name, `send[name](id)` offers a creator for each of its message schemas' tags and nothing else, and each creator makes that tag's message on the channel's stream for `id` with the trace id and payload, seen once by each hook in order |
| Subscriptions.PingPongExample | src/schema/__tests__/subscription.spec.ts:53-78 | the `Ping` handler may send only `Pong` on `pong`; sending it gives one message with the trace id, the `pong` stream of the id and no payload, seen once by the hook; `Pong` has no API |

## Left out

- RxJS and EventEmitter plumbing: `fromEvent`, the `shareReplay` buffer of 1000 live messages, `concat` scheduling and `stopDispatchers` are sequence operations or concurrency. The live feed is a given sequence, as if the buffer never overflowed.
- Asynchronous timing: promises, `await` and the serialisation of handler calls are concurrency. The model is one sequential run.
- Id generation: `generateId` and `generateTraceId` draw random UUIDs. Ids are parameters, and `Store.LogMessage` requires a fresh one.
- The spread `{id, version, channelVersion, depth, ..._message}` lets an envelope's own `id` or counters override the stamped ones. Only plain envelopes are logged in the model, so the stamped values always stand.
- Persistence errors: the in-memory log never fails, so `logMessage` always returns a result.
- Zod validation and payload types: only tags matter to the engine. Payloads are an untyped `Value`.
- Views, the draft component in src/component/index.ts, the demo program and the build script are outside the engine's core.
- `fromComponent`'s handler (`component.recvRaw`) is not modelled. The component is not part of this model; only the derived subscriptions are.
- The user handler, `project`, and the `get`/`update` backends are caller-supplied. A handler is a function from message to `Completed`/`Threw`. `project` is a function parameter. `get`/`update` are parameters, or the map-backed store in `Aggregate.MapGet`/`Aggregate.MapUpdate`.
- Aggregate.FastPathIsFold: proved only while the instance's events all project successfully. After a failure the fast path keeps going with later events while `hydrate` stops, so the two are not claimed to agree there.
- Aggregate.Hydrate: the race between a slow rebuild and concurrent fast-path writes is a concurrency question and is not modelled.
- StreamHandler.GetHandlerApi: requires the schema to be keyed by each entry's channel name, which the `HandlerChannelSchema` type enforces. The model does not decide collisions between differently keyed entries that share a channel name, because they depend on object key order.
- Subscriptions.GetSubscriptionApi: throwing on a missing handler is modelled as an `Err` result. The `success`/`failure`/`ignore` closures of the returned API are the separate functions `ApiSuccess`, `ApiFailure` and `ApiIgnore`.
- `getStreamName`, `defineMessage` and `defineChannel` are not part of this model. A channel schema is a datatype, and a stream name for a channel is `{service, name, id}`.
- Subscriptions.GetSubscriptionApi: each message schema is taken to offer its own tag. The code array-destructures each schema as `[tag, m]`, but a message schema is a `{_tag, schema}` object. Depending on how the code is compiled, that either throws because the object is not iterable, or reads `tag` as `undefined`. The model does not decide which, and reads the destructuring as the schema's `_tag`. Likewise `send` is keyed by `channel.name`, which `defineChannel` does not set; the model's one channel name serves.
- Dispatch.SetOffsetAsWritten: the reference comparison `sub.channel === channel` is taken as always false, because every caller in the repository builds the logged `streamName` as a fresh `{...channel, id}` object. A caller that passed the very subscription channel object as the envelope's `streamName` would match, and that offset would move; `SetOffsetAsWritten`, `HandleAsWritten`, `BindAsWritten` and the first finding do not cover such a caller.
- AggregateHandler.GetHandlerApi: requires the schema to be keyed by each entry's channel name (`KeyedByChannel`), which the `HandlerChannelSchema` type enforces. The code keys the API by `curr.channel._tag`, and the model does not decide collisions between differently keyed entries that share a channel name, because they depend on object key order.
- Caller-supplied functions are assumed not to throw or reject: the aggregate's `get`, `update` and `project`, and message hooks. If one rejects inside `doProject`, the outbox `concatMap` errors and later events are never projected, while `Aggregate.FastPath` carries on. If a hook throws, the creator throws and later hooks never run, while `Messages.RunHooks` runs them all. A throwing dispatcher handler is modelled (`Threw`).
- Bind.Pump: `filter` checks each item against the offsets left by the handles before it. In the code, `filter` runs upstream of `concatMap`, when an item is emitted: the backfill is filtered at once when `bind` is called, and a live item that arrives while a handle is pending is checked against offsets that handle has not yet moved. For items that reach a channel in rising channel-version order, as the backfill and the live feed of `logMessage` do, both timings admit the same items (`Bind.PumpDeliversAll` for a one-channel dispatcher). For items out of order they differ: channel versions 5 then 3 on one channel from offset 0 are both handled by the code, ending at offset 3, while the model handles only 5 (`Bind.OutOfOrderBurst`).
- Bind.PumpDeliversInChannelOrder: holds for the model's timing. In the code it holds only for items that reach the dispatcher in rising channel-version order per channel, as the backfill and the live feed do.
- Bind.PumpCovers: holds for the model's timing. In the code, items that arrive out of channel-version order can lower an offset after a later item was handled, leaving that later item admitted again.
- AggregateHandler.DefineHandler: the code reads the handler's tag as `input.shape._tag.value`, a zod-object accessor. The message schema `defineHandlerInput` returns is a `{_tag, schema}` record with no `shape` field, so as written that access throws. The model reads it as the schema's `_tag`, which is what the handler types (`MessageTag<In>`) describe.

## Findings

| source | as written | input that shows it | evidently intended | confidence | as-written member | corrected member |
|---|---|---|---|---|---|---|
| src/store/dispatcher.ts:66-68 | `setOffset` matches subscriptions with `sub.channel === channel`, a reference comparison between the subscription's channel object and the message's `streamName` object, so no offset moves for callers that build `streamName` fresh, as every caller in the repository does | one message logged on `my-service/my-channel`, a dispatcher created on that channel and bound twice: the second bind hands the message to the handler again | match with `channelEquals`, so the offset moves to the handled message's channel version and a rebind delivers nothing new | high; not executed | Bind.RebindExample | Bind.RebindDeliversNothing |
| src/store/index.ts:73-77 | `MessageStore.logMessage` emits the raw envelope on the live feed, not the stored message, so live items have no `id` and no `channelVersion` | a dispatcher created on a channel and bound to an empty store, then one message logged on that channel: `undefined > 0` is false, so `filter` rejects it and the handler never sees it | emit the stored message (with `id` and `channelVersion`) that the log produced | high; not executed | Bind.LiveExample | Bind.LiveMessageDelivered |
| src/stream/handler.ts:130-136 | `defineHandlerMap` files each handler under `curr._tag`, which `defineHandler` sets to the input message tag, so the outer key is a message tag, not the channel the `HandlerMap` type (src/stream/handler.ts:116-123) keys by | a handler for `Ping` on channel `ping`: the map is `{Ping: {Ping: handler}}`, and `handlers.ping` is undefined | file each handler under its input channel's `_tag`, `curr.config.schema.input.channel._tag` | medium; not executed | StreamHandler.HandlerMapKeyedByTag | StreamHandler.HandlerReachableByChannel |
