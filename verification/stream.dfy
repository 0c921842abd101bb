/** Stream identity (src/stream/index.ts): a channel is a topic of one
    service; a stream name adds the instance id. Both are compared
    structurally, field by field. */
module Stream {

  type AggregateId = string

  /** `{service, channel}`: one topic of one service. */
  datatype Channel = Channel(service: string, channel: string)

  /** `{service, channel, id}`: one aggregate instance's stream in a channel. */
  datatype StreamName = StreamName(service: string, channel: string, id: AggregateId) {
    /** A stream name seen as a channel (the source's structural subtyping). */
    function AsChannel(): Channel {
      Channel(service, channel)
    }
  }

  /** `channelEquals`: same service and same channel name. */
  predicate ChannelEquals(a: Channel, b: Channel) {
    a.service == b.service && a.channel == b.channel
  }

  /** `streamEquals`: same channel and same instance id. */
  predicate StreamEquals(a: StreamName, b: StreamName) {
    ChannelEquals(a.AsChannel(), b.AsChannel()) && a.id == b.id
  }

  /** Channel equality is exactly equality of the `{service, channel}` value. */
  lemma ChannelEqualsIsStructural(a: Channel, b: Channel)
    ensures ChannelEquals(a, b) <==> a == b
  {
  }

  /** Comparing two stream names as channels ignores their ids. */
  lemma ChannelEqualsIgnoresId(a: StreamName, b: StreamName)
    ensures ChannelEquals(a.AsChannel(), b.AsChannel()) <==> a.service == b.service && a.channel == b.channel
  {
  }

  /** Stream equality is exactly equality of the `{service, channel, id}`
      value, and it implies channel equality. */
  lemma StreamEqualsIsStructural(a: StreamName, b: StreamName)
    ensures StreamEquals(a, b) <==> a == b
    ensures StreamEquals(a, b) ==> ChannelEquals(a.AsChannel(), b.AsChannel())
  {
  }

  /** Both relations are equivalence relations. */
  lemma EqualitiesAreEquivalences()
    ensures forall a: Channel :: ChannelEquals(a, a)
    ensures forall a: Channel, b: Channel :: ChannelEquals(a, b) ==> ChannelEquals(b, a)
    ensures forall a: Channel, b: Channel, c: Channel :: ChannelEquals(a, b) && ChannelEquals(b, c) ==> ChannelEquals(a, c)
    ensures forall a: StreamName :: StreamEquals(a, a)
    ensures forall a: StreamName, b: StreamName :: StreamEquals(a, b) ==> StreamEquals(b, a)
    ensures forall a: StreamName, b: StreamName, c: StreamName :: StreamEquals(a, b) && StreamEquals(b, c) ==> StreamEquals(a, c)
  {
  }
}
