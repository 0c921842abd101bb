/** Stream handler definitions (src/stream/handler.ts): a handler consumes
    one tag of an input channel and may emit, per output channel, the tags
    flagged `true` in that channel's tag map. `getHandlerApi` turns the
    output schema into a table of creator factories; `defineHandlerMap`
    routes handlers by their `_tag` (the tag they consume) and input tag. */
module StreamHandler {
  import opened Base
  import opened Stream
  import opened Messages
  import opened Schema

  /** `HandlerChannel`: a channel with a flag for each of its tags. */
  datatype HandlerChannel = HandlerChannel(name: string, channel: ChannelSchema, tags: map<string, bool>)

  /** A `HandlerChannelSchema` entry, `{channel, tags}`. */
  datatype ChannelEntry = ChannelEntry(channel: ChannelSchema, tags: map<string, bool>)

  /** `HandlerInputSchema`. */
  datatype HandlerInput = HandlerInput(channel: ChannelSchema, tag: string)

  datatype HandlerSchema = HandlerSchema(tag: string, input: HandlerInput, output: map<string, ChannelEntry>)

  datatype HandlerConfig = HandlerConfig(tag: string, schema: HandlerSchema)

  datatype Handler = Handler(tag: string, config: HandlerConfig, execute: HandleId)

  /** `defineHandler`: the tag is recorded at all three levels, the input
      and output schemas are kept, and `handle` becomes `execute`. */
  function DefineHandler(tag: string, input: HandlerInput, output: map<string, ChannelEntry>, handle: HandleId): (h: Handler)
    ensures h.tag == tag && h.config.tag == tag && h.config.schema.tag == tag
    ensures h.config.schema.input == input && h.config.schema.output == output
    ensures h.execute == handle
  {
    Handler(tag, HandlerConfig(tag, HandlerSchema(tag, input, output)), handle)
  }

  /** `defineHandlerInput`. */
  function DefineHandlerInput(channel: ChannelSchema, tag: string): (i: HandlerInput)
    ensures i.channel == channel && i.tag == tag
  {
    HandlerInput(channel, tag)
  }

  /** `defineHandlerChannel(name, channel, ...tags)`: one flag per tag the
      channel declares, true exactly for the requested ones. Requested tags
      the channel does not declare get no flag. */
  function DefineHandlerChannel(name: string, channel: ChannelSchema, tags: seq<string>): (r: HandlerChannel)
    ensures r.name == name && r.channel == channel
    ensures r.tags.Keys == channel.schema.Keys
    ensures forall k :: k in r.tags ==> (r.tags[k] <==> k in tags)
  {
    HandlerChannel(name, channel, map k | k in channel.schema :: k in tags)
  }

  function ChannelName(hc: HandlerChannel): string {
    hc.channel.name
  }

  /** A handler channel schema keyed by each entry's own channel name, as
      the `HandlerChannelSchema` type demands. */
  predicate KeyedByChannel(schema: map<string, ChannelEntry>) {
    forall k :: k in schema ==> schema[k].channel.name == k
  }

  /** `defineHandlerChannels(...channels)`: entries keyed by `channel._tag`
      (the `name` given to `defineHandlerChannel` plays no part); a later
      channel with the same name replaces an earlier one. */
  function DefineHandlerChannels(channels: seq<HandlerChannel>): (r: map<string, ChannelEntry>)
    ensures r.Keys == set hc | hc in channels :: hc.channel.name
    ensures forall i :: 0 <= i < |channels| && IsLastWithKey(channels, ChannelName, i) ==>
      r[channels[i].channel.name] == ChannelEntry(channels[i].channel, channels[i].tags)
    ensures KeyedByChannel(r)
  {
    var byName := IndexBy(channels, ChannelName);
    forall k | k in byName ensures byName[k].channel.name == k {
      var i :| 0 <= i < |channels| && ChannelName(channels[i]) == k;
      var last := LastWithKeyExists(channels, ChannelName, i);
    }
    map k | k in byName :: ChannelEntry(byName[k].channel, byName[k].tags)
  }

  /** The tags an entry flags `true`. */
  function Enabled(tags: map<string, bool>): set<string> {
    set t | t in tags && tags[t]
  }

  /** `getHandlerApi(traceId, schema, after)`: for every channel of the
      schema, a factory for the tags it flags, each creator carrying the
      trace id and the optional hook. */
  function GetHandlerApi(traceId: TraceId, schema: map<string, ChannelEntry>, after: Option<HookId>): (api: map<string, CreatorFactory>)
    requires KeyedByChannel(schema)
    ensures api.Keys == schema.Keys
    ensures forall k :: k in api ==>
      && api[k].channel == schema[k].channel
      && (forall t :: t in api[k].tags <==> t in schema[k].tags && schema[k].tags[t])
      && api[k].traceId == traceId && api[k].after == HooksOf(after)
  {
    map k | k in schema :: CreatorFactory(schema[k].channel, Enabled(schema[k].tags), traceId, HooksOf(after))
  }

  /** `api[k](id)` offers a creator for exactly the tags entry `k` flags
      `true`, whether or not its channel declares them, and each creator
      makes that tag's message on the stream of `id` on channel `k`, with
      the trace id and the payload, seen once by the hook if there is one. */
  lemma ApiCreatorsStamp(traceId: TraceId, schema: map<string, ChannelEntry>, after: Option<HookId>, k: string,
                         id: AggregateId, t: string, payload: Option<Value>)
    requires KeyedByChannel(schema) && k in schema
    ensures var api := GetHandlerApi(traceId, schema, after);
      var c := schema[k].channel;
      && k in api
      && (t in api[k].For(id) <==> t in schema[k].tags && schema[k].tags[t])
      && (t in api[k].For(id) ==>
            var r := Invoke(api[k].For(id)[t], payload);
            && r.message == MessageResult(traceId, id, StreamName(c.service, k, id), t, payload)
            && r.calls == (if after.Some? then [HookCall(after.value, r.message)] else []))
  {
    var api := GetHandlerApi(traceId, schema, after);
    if t in api[k].For(id) {
      CreatorTableStamps(schema[k].channel, api[k].tags, traceId, id, HooksOf(after), t, payload);
    }
  }

  /** Composing the two: the API built from `defineHandlerChannels` offers,
      for every declared output channel, creators for exactly the tags
      requested of it (among those it declares), and every creator stamps
      the trace id, that channel's stream for the given id, the tag and the
      payload, and runs the hook once. */
  lemma HandlerApiCreators(traceId: TraceId, channels: seq<HandlerChannel>, i: nat, requested: seq<string>, after: Option<HookId>,
                           id: AggregateId, t: string, payload: Option<Value>)
    requires i < |channels| && IsLastWithKey(channels, ChannelName, i)
    requires channels[i] == DefineHandlerChannel(channels[i].name, channels[i].channel, requested)
    ensures var api := GetHandlerApi(traceId, DefineHandlerChannels(channels), after);
      var c := channels[i].channel;
      && c.name in api
      && api[c.name].For(id).Keys == (set k | k in c.schema && k in requested)
      && (t in c.schema && t in requested ==>
            var r := Invoke(api[c.name].For(id)[t], payload);
            && r.message == MessageResult(traceId, id, StreamName(c.service, c.name, id), t, payload)
            && r.calls == (if after.Some? then [HookCall(after.value, r.message)] else []))
  {
    var schema := DefineHandlerChannels(channels);
    var c := channels[i].channel;
    assert schema[c.name] == ChannelEntry(c, channels[i].tags);
    ApiCreatorsStamp(traceId, schema, after, c.name, id, t, payload);
  }

  /* ---- Handler maps ---- */

  /** `HandlerMap`: handlers routed by an outer key, then by input tag. */
  datatype HandlerMap = HandlerMap(tag: string, handlers: map<string, map<string, Handler>>)

  function InputTag(h: Handler): string {
    h.config.schema.input.tag
  }

  /** The outer key `defineHandlerMap` routes by: the handler's `_tag`, which
      `defineHandler` sets to the tag the handler consumes. */
  function HandlerTag(h: Handler): string {
    h.tag
  }

  /** The outer key the `HandlerMap` type describes: the name of the
      handler's input channel. */
  function InputChannel(h: Handler): string {
    h.config.schema.input.channel.name
  }

  function WithKey(key: Handler -> string, k: string): Handler -> bool {
    (h: Handler) => key(h) == k
  }

  /** The reduction in `defineHandlerMap`, over an outer key: a handler is
      added under its outer key and its input tag, keeping the siblings
      already there. */
  function Routes(handlers: seq<Handler>, key: Handler -> string): (r: map<string, map<string, Handler>>)
    ensures r.Keys == set h | h in handlers :: key(h)
  {
    if |handlers| == 0 then map[]
    else
      var acc := Routes(handlers[..|handlers| - 1], key);
      var h := handlers[|handlers| - 1];
      LastSplit(handlers);
      if key(h) in acc then acc[key(h) := acc[key(h)][InputTag(h) := h]]
      else acc[key(h) := map[InputTag(h) := h]]
  }

  /** `defineHandlerMap(name, ...handlers)` as written: the outer key is
      each handler's `_tag`. */
  function DefineHandlerMap(name: string, handlers: seq<Handler>): (r: HandlerMap)
    ensures r.tag == name
    ensures r.handlers.Keys == set h | h in handlers :: h.tag
  {
    HandlerMap(name, Routes(handlers, HandlerTag))
  }

  /** `defineHandlerMap` as its `HandlerMap` result type describes it: the
      outer key is the name of each handler's input channel. */
  function DefineHandlerMapByChannel(name: string, handlers: seq<Handler>): (r: HandlerMap)
    ensures r.tag == name
    ensures r.handlers.Keys == set h | h in handlers :: h.config.schema.input.channel.name
  {
    HandlerMap(name, Routes(handlers, InputChannel))
  }

  /** The table under each outer key is the index, by input tag, of the
      handlers with that key, in order: every handler is reachable at
      `[outer key][input tag]` unless a later one has the same two keys, and
      adding a handler keeps its siblings. */
  lemma {:induction false} RoutesIndexByKey(handlers: seq<Handler>, key: Handler -> string, k: string)
    requires k in Routes(handlers, key)
    ensures Routes(handlers, key)[k] == IndexBy(Select(handlers, WithKey(key, k)), InputTag)
  {
    var front := handlers[..|handlers| - 1];
    var h := handlers[|handlers| - 1];
    if key(h) != k {
      RoutesOtherKey(handlers, key, k);
      RoutesIndexByKey(front, key, k);
    } else {
      RoutesOwnKey(handlers, key);
      IndexBySnoc(Select(front, WithKey(key, k)), h, InputTag);
      if k in Routes(front, key) {
        RoutesIndexByKey(front, key, k);
      } else {
        NoRoutesNoneSelected(front, key, k);
      }
    }
  }

  /** Adding a handler with another outer key changes neither this key's
      table nor the handlers selected by it. */
  lemma RoutesOtherKey(handlers: seq<Handler>, key: Handler -> string, k: string)
    requires |handlers| > 0 && key(handlers[|handlers| - 1]) != k
    requires k in Routes(handlers, key)
    ensures var front := handlers[..|handlers| - 1];
      && k in Routes(front, key)
      && Routes(handlers, key)[k] == Routes(front, key)[k]
      && Select(handlers, WithKey(key, k)) == Select(front, WithKey(key, k))
  {
    LastSplit(handlers);
    SelectSnoc(handlers[..|handlers| - 1], handlers[|handlers| - 1], WithKey(key, k));
  }

  /** Adding a handler puts it in its own key's table under its input tag
      and extends that key's selection by it. */
  lemma RoutesOwnKey(handlers: seq<Handler>, key: Handler -> string)
    requires |handlers| > 0
    ensures var front := handlers[..|handlers| - 1];
      var h := handlers[|handlers| - 1];
      var acc := Routes(front, key);
      && Routes(handlers, key)[key(h)] == (if key(h) in acc then acc[key(h)] else map[])[InputTag(h) := h]
      && Select(handlers, WithKey(key, key(h))) == Select(front, WithKey(key, key(h))) + [h]
  {
    LastSplit(handlers);
    SelectSnoc(handlers[..|handlers| - 1], handlers[|handlers| - 1], WithKey(key, key(handlers[|handlers| - 1])));
  }

  lemma NoRoutesNoneSelected(handlers: seq<Handler>, key: Handler -> string, k: string)
    requires k !in Routes(handlers, key)
    ensures Select(handlers, WithKey(key, k)) == []
  {
  }

  /** Every entry of a route table is one of the handlers, filed under its
      own outer key and its own input tag. */
  lemma RoutesSound(handlers: seq<Handler>, key: Handler -> string, k: string, t: string)
    requires k in Routes(handlers, key) && t in Routes(handlers, key)[k]
    ensures var h := Routes(handlers, key)[k][t];
      h in handlers && key(h) == k && InputTag(h) == t
  {
    var sel := Select(handlers, WithKey(key, k));
    RoutesIndexByKey(handlers, key, k);
    var i :| 0 <= i < |sel| && InputTag(sel[i]) == t;
    var last := LastWithKeyExists(sel, InputTag, i);
    assert sel[last] in sel;
  }

  /** A handler that no later handler shadows is reachable at
      `[outer key][input tag]`. */
  lemma RoutesReachable(handlers: seq<Handler>, key: Handler -> string, i: nat)
    requires i < |handlers|
    requires forall j :: i < j < |handlers| ==> key(handlers[j]) != key(handlers[i]) || InputTag(handlers[j]) != InputTag(handlers[i])
    ensures var r := Routes(handlers, key);
      key(handlers[i]) in r && InputTag(handlers[i]) in r[key(handlers[i])] && r[key(handlers[i])][InputTag(handlers[i])] == handlers[i]
  {
    assert handlers[i] in handlers;
    RoutesIndexByKey(handlers, key, key(handlers[i]));
    SelectedLastWithKey(handlers, WithKey(key, key(handlers[i])), InputTag, i);
  }

  /** As written, the route table keeps every handler that no later
      handler shadows, at `[_tag][input tag]`. */
  lemma HandlerReachable(name: string, handlers: seq<Handler>, i: nat)
    requires i < |handlers|
    requires forall j :: i < j < |handlers| ==> handlers[j].tag != handlers[i].tag || InputTag(handlers[j]) != InputTag(handlers[i])
    ensures var m := DefineHandlerMap(name, handlers).handlers;
      handlers[i].tag in m && InputTag(handlers[i]) in m[handlers[i].tag] && m[handlers[i].tag][InputTag(handlers[i])] == handlers[i]
  {
    RoutesReachable(handlers, HandlerTag, i);
  }

  /** A handler for tag `t` of channel `c`, built by `defineHandler` and
      `defineHandlerInput`, is filed as written under `t` twice over, and
      the channel's name is no key of the map; routed by input channel, it
      sits at `[c.name][t]`. */
  lemma HandlerMapKeyedByTag(name: string, c: ChannelSchema, t: string, output: map<string, ChannelEntry>, handle: HandleId)
    requires c.name != t
    ensures var h := DefineHandler(t, DefineHandlerInput(c, t), output, handle);
      && DefineHandlerMap(name, [h]).handlers == map[t := map[t := h]]
      && c.name !in DefineHandlerMap(name, [h]).handlers
      && DefineHandlerMapByChannel(name, [h]).handlers == map[c.name := map[t := h]]
  {
    var h := DefineHandler(t, DefineHandlerInput(c, t), output, handle);
    assert [h][..0] == [];
  }

  /** Routed by input channel, the map keeps every handler that no later
      handler shadows at `[input channel][input tag]`, and every entry there
      is a handler of that channel and tag. */
  lemma HandlerReachableByChannel(name: string, handlers: seq<Handler>, i: nat, c: string, t: string)
    requires i < |handlers|
    requires forall j :: i < j < |handlers| ==> InputChannel(handlers[j]) != InputChannel(handlers[i]) || InputTag(handlers[j]) != InputTag(handlers[i])
    ensures var m := DefineHandlerMapByChannel(name, handlers).handlers;
      var h := handlers[i];
      && h.config.schema.input.channel.name in m && InputTag(h) in m[h.config.schema.input.channel.name]
      && m[h.config.schema.input.channel.name][InputTag(h)] == h
    ensures var m := DefineHandlerMapByChannel(name, handlers).handlers;
      c in m && t in m[c] ==> m[c][t] in handlers && m[c][t].config.schema.input.channel.name == c && InputTag(m[c][t]) == t
  {
    RoutesReachable(handlers, InputChannel, i);
    var m := DefineHandlerMapByChannel(name, handlers).handlers;
    if c in m && t in m[c] {
      RoutesSound(handlers, InputChannel, c, t);
    }
  }
}
