/** The part of the schema layer the handler tables need: a channel schema
    is a service, a channel name and the message schemas it declares, keyed
    by tag. Payload shapes (zod validators) are not modelled. */
module Schema {
  import Base
  import opened Stream
  import opened Messages

  /** `define(tag, payloadSchema)`: only the tag matters to the engine. */
  datatype MessageSchema = MessageSchema(tag: string)

  /** A declared channel: `{service, _tag: name, schema: {[tag]: MessageSchema}}`. */
  datatype ChannelSchema = ChannelSchema(service: string, name: string, schema: map<string, MessageSchema>) {
    /** The channel's topic. */
    function Topic(): Channel {
      Channel(service, name)
    }
  }

  /** `defineChannel` keys every message schema by its own tag. */
  predicate WellKeyedChannel(c: ChannelSchema) {
    forall t :: t in c.schema ==> c.schema[t].tag == t
  }

  /** `getStreamName(channel)(id)`: the stream of instance `id` on `channel`. */
  function StreamNameFor(c: ChannelSchema, id: AggregateId): (n: StreamName)
    ensures n.AsChannel() == c.Topic() && n.id == id
  {
    StreamName(c.service, c.name, id)
  }

  /** `tags.reduce((a, t) => ({...a, [t]: getMessageCreator(t, getStreamName(channel), hooks)(traceId)(id)}), {})`:
      one creator per tag, each bound to the channel's stream for `id`. */
  function CreatorTable(c: ChannelSchema, tags: set<string>, traceId: TraceId, id: AggregateId, after: seq<HookId>): (r: map<string, BoundCreator>)
    ensures r.Keys == tags
  {
    map t | t in tags :: GetMessageCreator(t, id' => StreamNameFor(c, id'), after, traceId, id)
  }

  /** The function `(id) => {[tag]: creator}` a handler API holds for one
      output channel, kept as the data it closes over. */
  datatype CreatorFactory = CreatorFactory(channel: ChannelSchema, tags: set<string>, traceId: TraceId, after: seq<HookId>) {
    function For(id: AggregateId): (r: map<string, BoundCreator>)
      ensures r.Keys == tags
    {
      CreatorTable(channel, tags, traceId, id, after)
    }
  }

  /** `after ? {after: [after]} : undefined`: an optional single hook as a
      hook list. */
  function HooksOf(after: Base.Option<HookId>): (hooks: seq<HookId>)
    ensures after.None? ==> hooks == []
    ensures after.Some? ==> hooks == [after.value]
  {
    if after.Some? then [after.value] else []
  }

  /** The name of a caller-supplied handler function (`handle`/`execute`). */
  type HandleId = string

  /** Every message a creator table makes carries the table's trace id, the
      instance id as `aggregateId`, the channel's stream for that id, the
      creator's own tag and the given payload, and is seen once by each hook. */
  lemma CreatorTableStamps(c: ChannelSchema, tags: set<string>, traceId: TraceId, id: AggregateId, after: seq<HookId>, t: string, payload: Base.Option<Base.Value>)
    requires t in tags
    ensures var r := Invoke(CreatorTable(c, tags, traceId, id, after)[t], payload);
      && r.message == MessageResult(traceId, id, StreamName(c.service, c.name, id), t, payload)
      && |r.calls| == |after|
      && forall i :: 0 <= i < |after| ==> r.calls[i] == HookCall(after[i], r.message)
  {
    CreatorStamps(t, id' => StreamNameFor(c, id'), after, traceId, id, payload);
  }
}
