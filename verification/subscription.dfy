/** Subscriptions (src/schema/subscription.ts): a subscription routes each
    tag of its input channel to a handler that declares, per output
    channel, the message schemas it may send. `getSubscriptionAPI` gives a
    handler its result constructors and a `send` table of creator
    factories keyed by output channel name. */
module Subscriptions {
  import opened Base
  import opened Stream
  import opened Messages
  import opened Schema

  /** `HandlerResult`. */
  datatype HandlerResult = Success | Failure(reason: string, message: string) | Ignore

  /** `HandlerOutput`: per output channel the message schemas the handler
      may send, and the failure reasons it may report. */
  datatype HandlerOutputs = HandlerOutputs(output: seq<(ChannelSchema, seq<MessageSchema>)>, failures: seq<string>)

  datatype SubscriptionHandler = SubscriptionHandler(tag: string, input: ChannelSchema, outputs: HandlerOutputs, execute: HandleId)

  datatype Subscription = Subscription(name: string, input: ChannelSchema, outputs: seq<ChannelSchema>, handle: map<string, SubscriptionHandler>)

  /** The error `getSubscriptionAPI` throws when the subscription has no
      handler for the tag (`undefined.outputs`). */
  datatype ApiError = NoHandlerFor(tag: string)

  /** `success()`, `failure(reason, message)` and `ignore()`. */
  function ApiSuccess(): (r: HandlerResult)
    ensures r.Success?
  {
    Success
  }

  function ApiFailure(reason: string, message: string): (r: HandlerResult)
    ensures r.Failure? && r.reason == reason && r.message == message
  {
    Failure(reason, message)
  }

  function ApiIgnore(): (r: HandlerResult)
    ensures r.Ignore?
  {
    Ignore
  }

  /** `createHandler({tag, input, outputs, execute})`. */
  function CreateHandler(tag: string, input: ChannelSchema, outputs: HandlerOutputs, execute: HandleId): (h: SubscriptionHandler)
    ensures h.tag == tag && h.input == input && h.outputs == outputs && h.execute == execute
  {
    SubscriptionHandler(tag, input, outputs, execute)
  }

  /** `createSubscription(name, input, outputs, handle)`. */
  function CreateSubscription(name: string, input: ChannelSchema, outputs: seq<ChannelSchema>, handle: map<string, SubscriptionHandler>): (s: Subscription)
    ensures s.name == name && s.input == input && s.outputs == outputs && s.handle == handle
  {
    Subscription(name, input, outputs, handle)
  }

  function OutputName(o: (ChannelSchema, seq<MessageSchema>)): string {
    o.0.name
  }

  /** The tags of a list of message schemas. */
  function TagsOf(schemas: seq<MessageSchema>): set<string> {
    set m | m in schemas :: m.tag
  }

  /** `getSubscriptionAPI(traceId, tag, subscription, hooks)`: the `send`
      table of the handler registered for `tag`, one factory per output
      channel name (a later entry with the same name replaces an earlier
      one), each for the tags of its message schemas, with the trace id and
      the caller's hooks. */
  function GetSubscriptionApi(traceId: TraceId, tag: string, sub: Subscription, hooks: seq<HookId>): (r: Result<map<string, CreatorFactory>, ApiError>)
    ensures r.Err? <==> tag !in sub.handle
    ensures r.Err? ==> r.error == NoHandlerFor(tag)
    ensures r.Ok? ==>
      var output := sub.handle[tag].outputs.output;
      && r.value.Keys == (set o | o in output :: o.0.name)
      && forall i :: 0 <= i < |output| && IsLastWithKey(output, OutputName, i) ==>
           r.value[output[i].0.name] == CreatorFactory(output[i].0, TagsOf(output[i].1), traceId, hooks)
  {
    if tag !in sub.handle then Err(NoHandlerFor(tag))
    else
      var byName := IndexBy(sub.handle[tag].outputs.output, OutputName);
      Ok(map k | k in byName :: CreatorFactory(byName[k].0, TagsOf(byName[k].1), traceId, hooks))
  }

  /** For an output channel listed last under its name, `send[name](id)`
      offers a creator for each of the channel's message schemas and for
      nothing else, and each creator makes the message of that tag on the
      channel's stream for `id`, with the trace id and the payload, seen once
      by each of the caller's hooks, in order. */
  lemma SubscriptionApiCreators(traceId: TraceId, tag: string, sub: Subscription, hooks: seq<HookId>, i: nat,
                                id: AggregateId, t: string, payload: Option<Value>)
    requires tag in sub.handle
    requires i < |sub.handle[tag].outputs.output| && IsLastWithKey(sub.handle[tag].outputs.output, OutputName, i)
    ensures var api := GetSubscriptionApi(traceId, tag, sub, hooks).value;
      var c := sub.handle[tag].outputs.output[i].0;
      var schemas := sub.handle[tag].outputs.output[i].1;
      && c.name in api
      && (forall m :: m in schemas ==> m.tag in api[c.name].For(id))
      && (forall k :: k in api[c.name].For(id) ==> exists m :: m in schemas && m.tag == k)
      && (t in api[c.name].For(id) ==>
            var r := Invoke(api[c.name].For(id)[t], payload);
            && r.message == MessageResult(traceId, id, StreamName(c.service, c.name, id), t, payload)
            && |r.calls| == |hooks|
            && forall h :: 0 <= h < |hooks| ==> r.calls[h] == HookCall(hooks[h], r.message))
  {
    var output := sub.handle[tag].outputs.output;
    var api := GetSubscriptionApi(traceId, tag, sub, hooks).value;
    var c := output[i].0;
    assert output[i] in output;
    assert api[c.name] == CreatorFactory(c, TagsOf(output[i].1), traceId, hooks);
    if t in api[c.name].For(id) {
      CreatorTableStamps(c, TagsOf(output[i].1), traceId, id, hooks, t, payload);
    }
  }

  /* ---- The ping-pong scenario of the subscription test ---- */

  function PingChannel(): ChannelSchema {
    ChannelSchema("my-service", "ping", map["Ping" := MessageSchema("Ping"), "PingMultiple" := MessageSchema("PingMultiple")])
  }

  function PongChannel(): ChannelSchema {
    ChannelSchema("my-service", "pong", map["Pong" := MessageSchema("Pong"), "PongMultiple" := MessageSchema("PongMultiple")])
  }

  function OtherChannel(): ChannelSchema {
    ChannelSchema("my-service", "other", map["Other" := MessageSchema("Other"), "Other_2" := MessageSchema("Other_2")])
  }

  function PingPong(): Subscription {
    CreateSubscription("ping-pong", PingChannel(), [PongChannel(), OtherChannel()], map[
      "Ping" := CreateHandler("Ping", PingChannel(), HandlerOutputs([(PongChannel(), [MessageSchema("Pong")])], ["NoPaddle"]), "ping"),
      "PingMultiple" := CreateHandler("PingMultiple", PingChannel(), HandlerOutputs([(PongChannel(), [MessageSchema("PongMultiple")])], ["NoPaddle"]), "pingMultiple")])
  }

  /** The `send` table of a handler whose only output is `pong` with the
      `Pong` schema. */
  lemma PongOnlyApi(traceId: TraceId, sub: Subscription, hooks: seq<HookId>)
    requires "Ping" in sub.handle
    requires sub.handle["Ping"].outputs.output == [(PongChannel(), [MessageSchema("Pong")])]
    ensures GetSubscriptionApi(traceId, "Ping", sub, hooks) == Ok(map["pong" := CreatorFactory(PongChannel(), {"Pong"}, traceId, hooks)])
  {
    var output := sub.handle["Ping"].outputs.output;
    var r := GetSubscriptionApi(traceId, "Ping", sub, hooks);
    assert IsLastWithKey(output, OutputName, 0);
    assert r.value.Keys == {"pong"} by {
      assert output[0] in output;
    }
    assert TagsOf([MessageSchema("Pong")]) == {"Pong"} by {
      assert MessageSchema("Pong") in [MessageSchema("Pong")];
    }
    var expected := map["pong" := CreatorFactory(PongChannel(), {"Pong"}, traceId, hooks)];
    assert r.value["pong"] == expected["pong"];
    assert r.value == expected;
  }

  /** The `Ping` handler may send only `Pong` on `pong`; sending it for
      instance `id` makes one message, stamped with the trace id, the `pong`
      stream of `id` and no payload, which the caller's hook sees once. An
      unregistered tag has no API. */
  lemma PingPongExample(traceId: TraceId, id: AggregateId, hook: HookId)
    ensures var r := GetSubscriptionApi(traceId, "Ping", PingPong(), [hook]);
      && r.Ok? && r.value.Keys == {"pong"} && r.value["pong"].tags == {"Pong"}
      && var sent := Invoke(r.value["pong"].For(id)["Pong"], None);
      && sent.message == MessageResult(traceId, id, StreamName("my-service", "pong", id), "Pong", None)
      && sent.calls == [HookCall(hook, sent.message)]
    ensures GetSubscriptionApi(traceId, "Pong", PingPong(), [hook]) == Err(NoHandlerFor("Pong"))
  {
    PongOnlyApi(traceId, PingPong(), [hook]);
    CreatorTableStamps(PongChannel(), {"Pong"}, traceId, id, [hook], "Pong", None);
  }
}
