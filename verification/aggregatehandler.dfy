/** Aggregate handler definitions (src/aggregate/handler.ts): a handler
    consumes one message schema and may emit, per output channel, a list of
    that channel's tags. `getHandlerApi` turns the output schema into a
    table of creator factories. */
module AggregateHandler {
  import opened Base
  import opened Stream
  import opened Messages
  import opened Schema

  /** `HandlerChannel`: an output channel and the tags it may emit. */
  datatype HandlerChannel = HandlerChannel(channel: ChannelSchema, tags: seq<string>)

  datatype HandlerSchema = HandlerSchema(tag: string, input: MessageSchema, output: map<string, HandlerChannel>)

  datatype HandlerConfig = HandlerConfig(tag: string, schema: HandlerSchema)

  datatype Handler = Handler(tag: string, config: HandlerConfig, execute: HandleId)

  /** `defineHandler`: the input schema's literal tag is recorded at all
      three levels, the schemas are kept and `handle` becomes `execute`. */
  function DefineHandler(input: MessageSchema, output: map<string, HandlerChannel>, handle: HandleId): (h: Handler)
    ensures h.tag == input.tag && h.config.tag == input.tag && h.config.schema.tag == input.tag
    ensures h.config.schema.input == input && h.config.schema.output == output
    ensures h.execute == handle
  {
    Handler(input.tag, HandlerConfig(input.tag, HandlerSchema(input.tag, input, output)), handle)
  }

  /** `defineHandlerInput(channel, tag)`: the channel's schema entry for the
      tag; `None` stands for the `undefined` an undeclared tag yields. */
  function DefineHandlerInput(channel: ChannelSchema, tag: string): (r: Option<MessageSchema>)
    ensures r.Some? <==> tag in channel.schema
    ensures r.Some? ==> r.value == channel.schema[tag]
    ensures r.Some? && WellKeyedChannel(channel) ==> r.value.tag == tag
  {
    if tag in channel.schema then Some(channel.schema[tag]) else None
  }

  /** `defineHandlerChannel(channel, tags)`. */
  function DefineHandlerChannel(channel: ChannelSchema, tags: seq<string>): (r: HandlerChannel)
    ensures r.channel == channel && r.tags == tags
  {
    HandlerChannel(channel, tags)
  }

  function ChannelName(hc: HandlerChannel): string {
    hc.channel.name
  }

  predicate KeyedByChannel(schema: map<string, HandlerChannel>) {
    forall k :: k in schema ==> schema[k].channel.name == k
  }

  /** `defineHandlerChannels(...channels)`: entries keyed by `channel._tag`;
      a later channel with the same name replaces an earlier one. */
  function DefineHandlerChannels(channels: seq<HandlerChannel>): (r: map<string, HandlerChannel>)
    ensures r.Keys == set hc | hc in channels :: hc.channel.name
    ensures forall i :: 0 <= i < |channels| && IsLastWithKey(channels, ChannelName, i) ==> r[channels[i].channel.name] == channels[i]
    ensures KeyedByChannel(r)
  {
    var r := IndexBy(channels, ChannelName);
    forall k | k in r ensures r[k].channel.name == k {
      var i :| 0 <= i < |channels| && ChannelName(channels[i]) == k;
      var last := LastWithKeyExists(channels, ChannelName, i);
    }
    r
  }

  /** `getHandlerApi(traceId, schema, after)`: for every channel of the
      schema, a factory for its listed tags (a tag listed twice gives one
      creator), each creator carrying the trace id and the optional hook. */
  function GetHandlerApi(traceId: TraceId, schema: map<string, HandlerChannel>, after: Option<HookId>): (api: map<string, CreatorFactory>)
    requires KeyedByChannel(schema)
    ensures api.Keys == schema.Keys
    ensures forall k :: k in api ==>
      && api[k].channel == schema[k].channel
      && (forall t :: t in api[k].tags <==> t in schema[k].tags)
      && api[k].traceId == traceId && api[k].after == HooksOf(after)
  {
    map k | k in schema :: CreatorFactory(schema[k].channel, (set t | t in schema[k].tags), traceId, HooksOf(after))
  }

  /** Every creator of the API built from `defineHandlerChannels` stamps the
      trace id, that channel's stream for the given id, the tag and the
      payload, and runs the hook once; the tags offered are the listed ones. */
  lemma HandlerApiCreators(traceId: TraceId, channels: seq<HandlerChannel>, i: nat, after: Option<HookId>,
                           id: AggregateId, t: string, payload: Option<Value>)
    requires i < |channels| && IsLastWithKey(channels, ChannelName, i)
    ensures var api := GetHandlerApi(traceId, DefineHandlerChannels(channels), after);
      var c := channels[i].channel;
      && c.name in api
      && (forall u :: u in api[c.name].For(id) <==> u in channels[i].tags)
      && (t in channels[i].tags ==>
            var r := Invoke(api[c.name].For(id)[t], payload);
            && r.message == MessageResult(traceId, id, StreamName(c.service, c.name, id), t, payload)
            && r.calls == (if after.Some? then [HookCall(after.value, r.message)] else []))
  {
    var c := channels[i].channel;
    var api := GetHandlerApi(traceId, DefineHandlerChannels(channels), after);
    if t in channels[i].tags {
      CreatorTableStamps(c, api[c.name].tags, traceId, id, HooksOf(after), t, payload);
    }
  }

  /* ---- The handler test's scenario ---- */

  function InChannel(): ChannelSchema {
    ChannelSchema("my-service", "in", map["In_1" := MessageSchema("In_1"), "In_2" := MessageSchema("In_2")])
  }

  function OutChannel(): ChannelSchema {
    ChannelSchema("my-service", "out", map["Out_1" := MessageSchema("Out_1"), "Out_2" := MessageSchema("Out_2")])
  }

  function OutChannel2(): ChannelSchema {
    ChannelSchema("my-service", "out_2", map["Out_21" := MessageSchema("Out_21"), "Out_22" := MessageSchema("Out_22")])
  }

  /** The output schema: `out` may emit `Out_1` and `Out_2`, `out_2` only
      `Out_21`. */
  function SampleOutputs(): map<string, HandlerChannel> {
    DefineHandlerChannels([DefineHandlerChannel(OutChannel(), ["Out_1", "Out_2"]), DefineHandlerChannel(OutChannel2(), ["Out_21"])])
  }

  /** What the test's handler does with the API: two messages on `out` and
      one on `out_2`, all for the incoming message's instance id. */
  function SampleRun(api: map<string, CreatorFactory>, id: AggregateId): seq<Created>
    requires "out" in api && "out_2" in api
    requires "Out_1" in api["out"].tags && "Out_2" in api["out"].tags && "Out_21" in api["out_2"].tags
  {
    [ Invoke(api["out"].For(id)["Out_1"], Some(Num(5))),
      Invoke(api["out"].For(id)["Out_2"], Some(Str("5"))),
      Invoke(api["out_2"].For(id)["Out_21"], Some(Num(10))) ]
  }

  lemma SampleOutputsShape()
    ensures SampleOutputs() == map["out" := HandlerChannel(OutChannel(), ["Out_1", "Out_2"]), "out_2" := HandlerChannel(OutChannel2(), ["Out_21"])]
  {
    var first := DefineHandlerChannel(OutChannel(), ["Out_1", "Out_2"]);
    var second := DefineHandlerChannel(OutChannel2(), ["Out_21"]);
    IndexBySnoc([], first, ChannelName);
    IndexBySnoc([first], second, ChannelName);
    assert [] + [first] == [first] && [first] + [second] == [first, second];
  }

  /** The sample API as a map display. */
  function SampleApi(traceId: TraceId, hook: HookId): map<string, CreatorFactory> {
    map["out" := CreatorFactory(OutChannel(), {"Out_1", "Out_2"}, traceId, [hook]),
        "out_2" := CreatorFactory(OutChannel2(), {"Out_21"}, traceId, [hook])]
  }

  /** One creator of the sample API: the message carries the trace id, the
      channel's stream for the id, the tag and the payload, and the hook
      sees it once. */
  lemma SampleCreatorStamps(c: ChannelSchema, tags: set<string>, traceId: TraceId, id: AggregateId, hook: HookId, t: string, payload: Option<Value>)
    requires t in tags
    ensures var r := Invoke(CreatorFactory(c, tags, traceId, [hook]).For(id)[t], payload);
      r.message == MessageResult(traceId, id, StreamName(c.service, c.name, id), t, payload) && r.calls == [HookCall(hook, r.message)]
  {
    CreatorTableStamps(c, tags, traceId, id, [hook], t, payload);
  }

  lemma SampleApiShape(traceId: TraceId, hook: HookId)
    ensures GetHandlerApi(traceId, SampleOutputs(), Some(hook)) == SampleApi(traceId, hook)
  {
    SampleOutputsShape();
    ApiOfSampleOutputs(traceId, hook, SampleOutputs());
  }

  lemma ApiOfSampleOutputs(traceId: TraceId, hook: HookId, outs: map<string, HandlerChannel>)
    requires outs == map["out" := HandlerChannel(OutChannel(), ["Out_1", "Out_2"]), "out_2" := HandlerChannel(OutChannel2(), ["Out_21"])]
    ensures GetHandlerApi(traceId, outs, Some(hook)) == SampleApi(traceId, hook)
  {
    var api := GetHandlerApi(traceId, outs, Some(hook));
    assert api["out"].tags == {"Out_1", "Out_2"};
    assert api["out_2"].tags == {"Out_21"};
  }

  /** The hook sees every created message once: two on `out` (`Out_1` with
      payload 5, `Out_2` with "5") and one on `out_2` (`Out_21` with 10),
      each stamped with the trace id and the channel's stream for the id. */
  lemma HandlerExample(traceId: TraceId, id: AggregateId, hook: HookId)
    ensures var run := SampleRun(SampleApi(traceId, hook), id);
      && (forall k :: 0 <= k < 3 ==> run[k].calls == [HookCall(hook, run[k].message)])
      && run[0].message == MessageResult(traceId, id, StreamName("my-service", "out", id), "Out_1", Some(Num(5)))
      && run[1].message == MessageResult(traceId, id, StreamName("my-service", "out", id), "Out_2", Some(Str("5")))
      && run[2].message == MessageResult(traceId, id, StreamName("my-service", "out_2", id), "Out_21", Some(Num(10)))
  {
    SampleCreatorStamps(OutChannel(), {"Out_1", "Out_2"}, traceId, id, hook, "Out_1", Some(Num(5)));
    SampleCreatorStamps(OutChannel(), {"Out_1", "Out_2"}, traceId, id, hook, "Out_2", Some(Str("5")));
    SampleCreatorStamps(OutChannel2(), {"Out_21"}, traceId, id, hook, "Out_21", Some(Num(10)));
  }
}
