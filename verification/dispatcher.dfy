/** Dispatcher subscription state (src/store/dispatcher.ts): a list of
    `(channel, offset)` pairs. `filter` admits a stored message when some
    subscription's channel matches its stream's channel and its channel
    version is past that subscription's offset; `handle` runs the handler
    and then, whether it completed or threw, moves the matching offsets to
    the message's channel version. */
module Dispatch {
  import opened Base
  import opened Stream
  import opened Messages
  import opened Schema

  datatype Subscription = Subscription(channel: Channel, offset: int)

  datatype Dispatcher = Dispatcher(subscriptions: seq<Subscription>)

  /** How the user handler ended: its promise resolved, or it threw. */
  datatype HandlerOutcome = Completed | Threw(error: string)

  /** The dispatcher after `handle`, and how `handle` itself ended: the
      `finally` block rethrows the handler's error. */
  datatype Handled = Handled(dispatcher: Dispatcher, outcome: HandlerOutcome)

  /** `Dispatcher.create`: one subscription per channel, in order, at offset 0. */
  function Create(channels: seq<Channel>): (d: Dispatcher)
    ensures |d.subscriptions| == |channels|
    ensures forall i :: 0 <= i < |channels| ==> d.subscriptions[i] == Subscription(channels[i], 0)
  {
    Dispatcher(seq(|channels|, i requires 0 <= i < |channels| => Subscription(channels[i], 0)))
  }

  /** `Dispatcher.fromComponent` (subscriptions only): one subscription per
      declared input channel, in key order, built as
      `{channel: schema._tag, service: schema.service}` at offset 0. */
  function FromComponent(inputChannels: seq<ChannelSchema>): (d: Dispatcher)
    ensures |d.subscriptions| == |inputChannels|
    ensures forall i :: 0 <= i < |inputChannels| ==>
      d.subscriptions[i] == Subscription(Channel(inputChannels[i].service, inputChannels[i].name), 0)
  {
    Dispatcher(seq(|inputChannels|, i requires 0 <= i < |inputChannels| => Subscription(inputChannels[i].Topic(), 0)))
  }

  /** `Dispatcher.restore`: resumes from the given subscriptions and offsets. */
  function Restore(subscriptions: seq<Subscription>): (d: Dispatcher)
    ensures d.subscriptions == subscriptions
  {
    Dispatcher(subscriptions)
  }

  /** A subscription's channel `channelEquals` the message's stream name. */
  predicate Matches(sub: Subscription, m: StoredMessage) {
    ChannelEquals(m.envelope.streamName.AsChannel(), sub.channel)
  }

  /** `filter`. */
  predicate Filter(d: Dispatcher, m: StoredMessage) {
    exists i :: 0 <= i < |d.subscriptions| && Matches(d.subscriptions[i], m) && m.channelVersion > d.subscriptions[i].offset
  }

  /** The match `setOffset` is meant to make: the subscription's channel is
      structurally the channel of the handled message's stream name. */
  predicate SameChannelStructurally(sub: Subscription, name: StreamName) {
    ChannelEquals(sub.channel, name.AsChannel())
  }

  /** The match `setOffset` makes as written, `sub.channel === channel`: a
      JavaScript reference comparison between the subscription's channel
      object and the message's `streamName` object. The subscription objects
      are the caller's channel objects (`create`, `restore`) or fresh
      literals (`fromComponent`); the stream names come from logged
      envelopes, which every caller in the repository builds as a fresh
      `{...channel, id}`. The two are then never the same object, and the
      model takes the comparison as always false. */
  predicate SameChannelObject(sub: Subscription, name: StreamName) {
    false
  }

  /** `setOffset` with the intended structural match. */
  function SetOffset(subs: seq<Subscription>, name: StreamName, offset: int): (r: seq<Subscription>)
    ensures |r| == |subs|
    ensures forall i :: 0 <= i < |subs| ==> r[i].channel == subs[i].channel
    ensures forall i :: 0 <= i < |subs| ==>
      r[i].offset == (if SameChannelStructurally(subs[i], name) then offset else subs[i].offset)
  {
    seq(|subs|, i requires 0 <= i < |subs| =>
      if SameChannelStructurally(subs[i], name) then subs[i].(offset := offset) else subs[i])
  }

  /** `setOffset` as written: it replaces nothing. */
  function SetOffsetAsWritten(subs: seq<Subscription>, name: StreamName, offset: int): (r: seq<Subscription>)
    ensures r == subs
  {
    seq(|subs|, i requires 0 <= i < |subs| =>
      if SameChannelObject(subs[i], name) then subs[i].(offset := offset) else subs[i])
  }

  /** `handle` with the intended `setOffset`: the handler's outcome is
      passed on and the offset moves either way. */
  function Handle(d: Dispatcher, m: StoredMessage, outcome: HandlerOutcome): (h: Handled)
    ensures h.outcome == outcome
    ensures h.dispatcher.subscriptions == SetOffset(d.subscriptions, m.envelope.streamName, m.channelVersion)
  {
    Handled(Dispatcher(SetOffset(d.subscriptions, m.envelope.streamName, m.channelVersion)), outcome)
  }

  /** `handle` as written. */
  function HandleAsWritten(d: Dispatcher, m: StoredMessage, outcome: HandlerOutcome): (h: Handled)
    ensures h.outcome == outcome && h.dispatcher == d
  {
    Handled(Dispatcher(SetOffsetAsWritten(d.subscriptions, m.envelope.streamName, m.channelVersion)), outcome)
  }

  /* ---- Properties ---- */

  /** A created dispatcher admits every message on one of its channels (all
      logged messages have channel version at least 1) and nothing else. */
  lemma CreateAdmits(channels: seq<Channel>, m: StoredMessage)
    ensures Filter(Create(channels), m) <==> m.envelope.streamName.AsChannel() in channels && m.channelVersion > 0
  {
    var d := Create(channels);
    if m.envelope.streamName.AsChannel() in channels && m.channelVersion > 0 {
      var i :| 0 <= i < |channels| && channels[i] == m.envelope.streamName.AsChannel();
      assert Matches(d.subscriptions[i], m);
    }
  }

  /** Resuming a channel at offset `k` admits exactly that channel's messages
      with channel version above `k`. */
  lemma RestoreAdmits(c: Channel, k: int, m: StoredMessage)
    ensures Filter(Restore([Subscription(c, k)]), m) <==> m.envelope.streamName.AsChannel() == c && m.channelVersion > k
  {
    if m.envelope.streamName.AsChannel() == c && m.channelVersion > k {
      assert Matches(Restore([Subscription(c, k)]).subscriptions[0], m);
    }
  }

  /** Whatever the handler did, a handled message is not admitted again. */
  lemma HandledNotReadmitted(d: Dispatcher, m: StoredMessage, outcome: HandlerOutcome)
    ensures !Filter(Handle(d, m, outcome).dispatcher, m)
  {
    var subs := Handle(d, m, outcome).dispatcher.subscriptions;
    forall i | 0 <= i < |subs| && Matches(subs[i], m)
      ensures m.channelVersion <= subs[i].offset
    {
      assert SameChannelStructurally(d.subscriptions[i], m.envelope.streamName);
    }
  }

  /** As written, `handle` leaves every offset where it was, so a handled
      message stays admitted. */
  lemma HandledReadmittedAsWritten(d: Dispatcher, m: StoredMessage, outcome: HandlerOutcome)
    requires Filter(d, m)
    ensures Filter(HandleAsWritten(d, m, outcome).dispatcher, m)
  {
  }

  /** `restore` accepts two subscriptions on one channel at different
      offsets. Handling a message the lower one admits moves both to its
      channel version, so the higher offset moves back. */
  lemma RestoredOffsetMovesBack(c: Channel, m: StoredMessage)
    requires m.envelope.streamName.AsChannel() == c && m.channelVersion == 3
    ensures var d := Restore([Subscription(c, 5), Subscription(c, 2)]);
      && Filter(d, m)
      && Handle(d, m, Completed).dispatcher.subscriptions == [Subscription(c, 3), Subscription(c, 3)]
  {
    var d := Restore([Subscription(c, 5), Subscription(c, 2)]);
    assert Matches(d.subscriptions[1], m);
    var subs := Handle(d, m, Completed).dispatcher.subscriptions;
    assert SameChannelStructurally(d.subscriptions[0], m.envelope.streamName);
    assert SameChannelStructurally(d.subscriptions[1], m.envelope.streamName);
    assert subs[0] == Subscription(c, 3) && subs[1] == Subscription(c, 3);
  }

  /** Subscriptions on the same channel agree on their offset. `create`,
      `fromComponent` and `handle` keep this; only `restore` can break it. */
  ghost predicate Coherent(d: Dispatcher) {
    forall i, j :: 0 <= i < |d.subscriptions| && 0 <= j < |d.subscriptions| && d.subscriptions[i].channel == d.subscriptions[j].channel
      ==> d.subscriptions[i].offset == d.subscriptions[j].offset
  }

  lemma CreatedCoherent(channels: seq<Channel>, inputs: seq<ChannelSchema>)
    ensures Coherent(Create(channels)) && Coherent(FromComponent(inputs))
  {
  }

  /** `d2` has the same subscriptions as `d1`, with offsets at least as far on. */
  ghost predicate Dominates(d2: Dispatcher, d1: Dispatcher) {
    && |d2.subscriptions| == |d1.subscriptions|
    && forall i :: 0 <= i < |d1.subscriptions| ==>
      d2.subscriptions[i].channel == d1.subscriptions[i].channel && d2.subscriptions[i].offset >= d1.subscriptions[i].offset
  }

  /** Handling an admitted message on a coherent dispatcher keeps it
      coherent and strictly advances the offsets of the message's channel,
      leaving the others alone: offsets never move backwards in the pipeline. */
  lemma AdmittedHandleAdvances(d: Dispatcher, m: StoredMessage, outcome: HandlerOutcome)
    requires Coherent(d) && Filter(d, m)
    ensures var d' := Handle(d, m, outcome).dispatcher;
      && Coherent(d')
      && Dominates(d', d)
      && forall i :: 0 <= i < |d.subscriptions| && Matches(d.subscriptions[i], m) ==>
           d.subscriptions[i].offset < d'.subscriptions[i].offset == m.channelVersion
  {
    var d' := Handle(d, m, outcome).dispatcher;
    var k :| 0 <= k < |d.subscriptions| && Matches(d.subscriptions[k], m) && m.channelVersion > d.subscriptions[k].offset;
    forall i | 0 <= i < |d.subscriptions| && Matches(d.subscriptions[i], m)
      ensures d.subscriptions[i].offset < m.channelVersion
    {
      assert d.subscriptions[i].channel == d.subscriptions[k].channel;
    }
  }

  /** `sub` is at or past some subscription of `d` on the same channel. */
  ghost predicate AtOrPast(sub: Subscription, d: Dispatcher) {
    exists j :: 0 <= j < |d.subscriptions| && d.subscriptions[j].channel == sub.channel && d.subscriptions[j].offset <= sub.offset
  }

  /** Every subscription of `d2` is at or past some subscription of `d1` on
      the same channel. `filter` admits by the lowest offset among a
      channel's subscriptions, so this says no channel's lowest offset has
      dropped -- even where `restore` gave one channel several offsets and
      `handle` moves the higher ones back. */
  ghost predicate FloorsRise(d2: Dispatcher, d1: Dispatcher) {
    forall i :: 0 <= i < |d2.subscriptions| ==> AtOrPast(d2.subscriptions[i], d1)
  }

  lemma FloorsRiseRefl(d: Dispatcher)
    ensures FloorsRise(d, d)
  {
    forall i | 0 <= i < |d.subscriptions| ensures AtOrPast(d.subscriptions[i], d) {
      assert d.subscriptions[i].offset <= d.subscriptions[i].offset;
    }
  }

  lemma FloorsRiseTrans(d1: Dispatcher, d2: Dispatcher, d3: Dispatcher)
    requires FloorsRise(d2, d1) && FloorsRise(d3, d2)
    ensures FloorsRise(d3, d1)
  {
    forall i | 0 <= i < |d3.subscriptions| ensures AtOrPast(d3.subscriptions[i], d1) {
      assert AtOrPast(d3.subscriptions[i], d2);
      var j :| 0 <= j < |d2.subscriptions| && d2.subscriptions[j].channel == d3.subscriptions[i].channel && d2.subscriptions[j].offset <= d3.subscriptions[i].offset;
      assert AtOrPast(d2.subscriptions[j], d1);
      var l :| 0 <= l < |d1.subscriptions| && d1.subscriptions[l].channel == d2.subscriptions[j].channel && d1.subscriptions[l].offset <= d2.subscriptions[j].offset;
    }
  }

  /** Handling an admitted message, on any dispatcher, raises no channel's
      lowest offset less than it was, and every subscription on the
      message's channel ends at its channel version. */
  lemma AdmittedHandleRaisesFloors(d: Dispatcher, m: StoredMessage, outcome: HandlerOutcome)
    requires Filter(d, m)
    ensures var d' := Handle(d, m, outcome).dispatcher;
      && FloorsRise(d', d)
      && forall i :: 0 <= i < |d'.subscriptions| && Matches(d'.subscriptions[i], m) ==> d'.subscriptions[i].offset == m.channelVersion
  {
    var d' := Handle(d, m, outcome).dispatcher;
    var k :| 0 <= k < |d.subscriptions| && Matches(d.subscriptions[k], m) && m.channelVersion > d.subscriptions[k].offset;
    forall i | 0 <= i < |d'.subscriptions| ensures AtOrPast(d'.subscriptions[i], d) {
      if SameChannelStructurally(d.subscriptions[i], m.envelope.streamName) {
        assert d.subscriptions[k].channel == d'.subscriptions[i].channel;
      } else {
        assert d.subscriptions[i] == d'.subscriptions[i];
      }
    }
  }

  /** A message a dispatcher turns away stays turned away once no channel's
      lowest offset has dropped. */
  lemma RejectionPersistsFloors(d1: Dispatcher, d2: Dispatcher, m: StoredMessage)
    requires FloorsRise(d2, d1) && !Filter(d1, m)
    ensures !Filter(d2, m)
  {
    forall i | 0 <= i < |d2.subscriptions| && Matches(d2.subscriptions[i], m)
      ensures m.channelVersion <= d2.subscriptions[i].offset
    {
      assert AtOrPast(d2.subscriptions[i], d1);
      var j :| 0 <= j < |d1.subscriptions| && d1.subscriptions[j].channel == d2.subscriptions[i].channel && d1.subscriptions[j].offset <= d2.subscriptions[i].offset;
      assert Matches(d1.subscriptions[j], m);
    }
  }

  /** A message a dispatcher turns away stays turned away once its offsets
      have moved on. */
  lemma RejectionPersists(d1: Dispatcher, d2: Dispatcher, m: StoredMessage)
    requires Dominates(d2, d1) && !Filter(d1, m)
    ensures !Filter(d2, m)
  {
    forall i | 0 <= i < |d2.subscriptions| && Matches(d2.subscriptions[i], m)
      ensures m.channelVersion <= d2.subscriptions[i].offset
    {
      assert Matches(d1.subscriptions[i], m);
    }
  }
}
