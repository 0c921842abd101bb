/** `MessageStore.bind` and `getDispatcherStream` (src/store/index.ts) as a
    sequence pipeline: the backfill (log entries the dispatcher admits at
    bind time) followed by the live items, items whose `id` was already seen
    dropped (`distinct`), the rest passed through `filter` against the
    dispatcher's current offsets, and each admitted item handled to
    completion before the next (`concatMap`). A handler that throws makes
    `handle` reject, which errors the stream: nothing after it is delivered.

    The live part is a supplied sequence of stored messages -- the intended
    feed. What the code as written puts on the feed (the raw envelope) is
    modelled separately by `BindAsWritten`. */
module Bind {
  import opened Base
  import opened Stream
  import opened Messages
  import opened Store
  import opened Dispatch

  /** Which `handle` the pipeline calls: with the intended structural
      `setOffset`, or with `setOffset` as written. */
  datatype Variant = Intended | AsWritten

  /** What a bound dispatcher's handler received, in order, the dispatcher
      afterwards, and the error that ended the stream, if any. */
  datatype Delivery = Delivery(delivered: seq<StoredMessage>, dispatcher: Dispatcher, error: Option<string>)

  function Admits(d: Dispatcher): StoredMessage -> bool {
    m => Filter(d, m)
  }

  /** `getDispatcherStream`: the log entries `filter` admits, in log order. */
  function GetDispatcherStream(log: Log, d: Dispatcher): (r: seq<StoredMessage>)
    ensures forall m :: m in r <==> m in log && Filter(d, m)
  {
    Select(log, Admits(d))
  }

  function HandleWith(v: Variant, d: Dispatcher, m: StoredMessage, outcome: HandlerOutcome): Handled {
    if v == Intended then Handle(d, m, outcome) else HandleAsWritten(d, m, outcome)
  }

  /** The `distinct` / `filter` / `concatMap(handle)` stages over `items`,
      with `seen` the ids `distinct` has already let through. */
  function Pump(v: Variant, d: Dispatcher, items: seq<StoredMessage>, seen: set<MessageId>, handler: StoredMessage -> HandlerOutcome): (r: Delivery)
    ensures forall x :: x in r.delivered ==> x in items && x.id !in seen
    ensures forall i, j :: 0 <= i < j < |r.delivered| ==> r.delivered[i].id != r.delivered[j].id
    ensures v == AsWritten ==> r.dispatcher == d
    decreases |items|
  {
    if |items| == 0 then Delivery([], d, None)
    else
      var m := items[0];
      if m.id in seen then Pump(v, d, items[1..], seen, handler)
      else if !Filter(d, m) then Pump(v, d, items[1..], seen + {m.id}, handler)
      else
        var h := HandleWith(v, d, m, handler(m));
        if h.outcome.Threw? then Delivery([m], h.dispatcher, Some(h.outcome.error))
        else
          var rest := Pump(v, h.dispatcher, items[1..], seen + {m.id}, handler);
          Delivery([m] + rest.delivered, rest.dispatcher, rest.error)
  }

  /** `bind(dispatcher)` fed with `live` after the backfill from `log`. */
  function Bind(d: Dispatcher, log: Log, live: seq<StoredMessage>, handler: StoredMessage -> HandlerOutcome): Delivery {
    Pump(Intended, d, GetDispatcherStream(log, d) + live, {}, handler)
  }

  ghost predicate NeverThrows(handler: StoredMessage -> HandlerOutcome) {
    forall m :: handler(m) == Completed
  }

  /* ---- Ordering: per channel, strictly increasing channel versions ---- */

  lemma DominatesRefl(d: Dispatcher)
    ensures Dominates(d, d)
  {
  }

  lemma DominatesTrans(d1: Dispatcher, d2: Dispatcher, d3: Dispatcher)
    requires Dominates(d2, d1) && Dominates(d3, d2)
    ensures Dominates(d3, d1)
  {
  }

  /** Pumping a coherent dispatcher keeps it coherent and only moves its
      offsets forward. */
  lemma {:induction false} PumpAdvances(d: Dispatcher, items: seq<StoredMessage>, seen: set<MessageId>, handler: StoredMessage -> HandlerOutcome)
    requires Coherent(d)
    ensures Coherent(Pump(Intended, d, items, seen, handler).dispatcher)
    ensures Dominates(Pump(Intended, d, items, seen, handler).dispatcher, d)
    decreases |items|
  {
    if |items| == 0 {
      DominatesRefl(d);
    } else {
      var m := items[0];
      if m.id in seen {
        PumpAdvances(d, items[1..], seen, handler);
      } else if !Filter(d, m) {
        PumpAdvances(d, items[1..], seen + {m.id}, handler);
      } else {
        var h := Handle(d, m, handler(m));
        AdmittedHandleAdvances(d, m, handler(m));
        if !h.outcome.Threw? {
          PumpAdvances(h.dispatcher, items[1..], seen + {m.id}, handler);
          DominatesTrans(d, h.dispatcher, Pump(Intended, h.dispatcher, items[1..], seen + {m.id}, handler).dispatcher);
        }
      }
    }
  }

  /** Every delivered message was past the offset of every subscription of
      the starting dispatcher that matches it. */
  lemma {:induction false} PumpDeliversPastOffsets(d: Dispatcher, items: seq<StoredMessage>, seen: set<MessageId>, handler: StoredMessage -> HandlerOutcome)
    requires Coherent(d)
    ensures var r := Pump(Intended, d, items, seen, handler);
      forall x, i :: x in r.delivered && 0 <= i < |d.subscriptions| && Matches(d.subscriptions[i], x) ==>
        x.channelVersion > d.subscriptions[i].offset
    decreases |items|
  {
    if |items| > 0 {
      var m := items[0];
      if m.id in seen {
        PumpDeliversPastOffsets(d, items[1..], seen, handler);
      } else if !Filter(d, m) {
        PumpDeliversPastOffsets(d, items[1..], seen + {m.id}, handler);
      } else {
        var h := Handle(d, m, handler(m));
        AdmittedHandleAdvances(d, m, handler(m));
        if !h.outcome.Threw? {
          PumpDeliversPastOffsets(h.dispatcher, items[1..], seen + {m.id}, handler);
        }
      }
    }
  }

  /** On any dispatcher -- including a restored one whose subscriptions on
      one channel disagree -- pumping never lowers a channel's lowest
      offset. */
  lemma {:induction false} PumpRaisesFloors(d: Dispatcher, items: seq<StoredMessage>, seen: set<MessageId>, handler: StoredMessage -> HandlerOutcome)
    ensures FloorsRise(Pump(Intended, d, items, seen, handler).dispatcher, d)
    decreases |items|
  {
    if |items| == 0 {
      FloorsRiseRefl(d);
    } else {
      var m := items[0];
      if m.id in seen {
        PumpRaisesFloors(d, items[1..], seen, handler);
      } else if !Filter(d, m) {
        PumpRaisesFloors(d, items[1..], seen + {m.id}, handler);
      } else {
        var h := Handle(d, m, handler(m));
        AdmittedHandleRaisesFloors(d, m, handler(m));
        if !h.outcome.Threw? {
          PumpRaisesFloors(h.dispatcher, items[1..], seen + {m.id}, handler);
          FloorsRiseTrans(d, h.dispatcher, Pump(Intended, h.dispatcher, items[1..], seen + {m.id}, handler).dispatcher);
        }
      }
    }
  }

  /** On any dispatcher, every delivered message is one the starting
      dispatcher admits. */
  lemma {:induction false} PumpDeliversAdmitted(d: Dispatcher, items: seq<StoredMessage>, seen: set<MessageId>, handler: StoredMessage -> HandlerOutcome)
    ensures forall x :: x in Pump(Intended, d, items, seen, handler).delivered ==> Filter(d, x)
    decreases |items|
  {
    if |items| > 0 {
      var m := items[0];
      if m.id in seen {
        PumpDeliversAdmitted(d, items[1..], seen, handler);
      } else if !Filter(d, m) {
        PumpDeliversAdmitted(d, items[1..], seen + {m.id}, handler);
      } else {
        var h := Handle(d, m, handler(m));
        if !h.outcome.Threw? {
          var d' := h.dispatcher;
          PumpDeliversAdmitted(d', items[1..], seen + {m.id}, handler);
          AdmittedHandleRaisesFloors(d, m, handler(m));
          forall x | x in Pump(Intended, d', items[1..], seen + {m.id}, handler).delivered
            ensures Filter(d, x)
          {
            if !Filter(d, x) {
              RejectionPersistsFloors(d, d', x);
            }
          }
        }
      }
    }
  }

  /** Messages of one channel appear in strictly increasing channel-version
      order. */
  predicate InChannelOrder(del: seq<StoredMessage>) {
    forall i, j :: 0 <= i < j < |del| && ChannelOf(del[i]) == ChannelOf(del[j]) ==> del[i].channelVersion < del[j].channelVersion
  }

  lemma ConsKeepsChannelOrder(m: StoredMessage, rest: seq<StoredMessage>)
    requires InChannelOrder(rest)
    requires forall x :: x in rest && ChannelOf(x) == ChannelOf(m) ==> x.channelVersion > m.channelVersion
    ensures InChannelOrder([m] + rest)
  {
    var del := [m] + rest;
    forall i, j | 0 <= i < j < |del| && ChannelOf(del[i]) == ChannelOf(del[j])
      ensures del[i].channelVersion < del[j].channelVersion
    {
      if i == 0 {
        assert del[j] in rest;
      } else {
        assert del[i] == rest[i - 1] && del[j] == rest[j - 1];
      }
    }
  }

  /** Within one bound dispatcher, messages of one channel are handled in
      strictly increasing channel-version order, from whatever offsets the
      dispatcher starts, when `filter` checks each item once the handles
      before it have finished. */
  lemma {:induction false} PumpDeliversInChannelOrder(d: Dispatcher, items: seq<StoredMessage>, seen: set<MessageId>, handler: StoredMessage -> HandlerOutcome)
    ensures InChannelOrder(Pump(Intended, d, items, seen, handler).delivered)
    decreases |items|
  {
    if |items| > 0 {
      var m := items[0];
      if m.id in seen {
        PumpDeliversInChannelOrder(d, items[1..], seen, handler);
      } else if !Filter(d, m) {
        PumpDeliversInChannelOrder(d, items[1..], seen + {m.id}, handler);
      } else {
        var h := Handle(d, m, handler(m));
        if !h.outcome.Threw? {
          var d' := h.dispatcher;
          var rest := Pump(Intended, d', items[1..], seen + {m.id}, handler).delivered;
          PumpDeliversInChannelOrder(d', items[1..], seen + {m.id}, handler);
          PumpDeliversAdmitted(d', items[1..], seen + {m.id}, handler);
          AdmittedHandleRaisesFloors(d, m, handler(m));
          forall x | x in rest && ChannelOf(x) == ChannelOf(m)
            ensures x.channelVersion > m.channelVersion
          {
            assert Filter(d', x);
            var i :| 0 <= i < |d'.subscriptions| && Matches(d'.subscriptions[i], x) && x.channelVersion > d'.subscriptions[i].offset;
            assert Matches(d'.subscriptions[i], m);
          }
          ConsKeepsChannelOrder(m, rest);
        }
      }
    }
  }

  /* ---- Replay after logging, resumption and rebinding ---- */

  /** Past offset `k`. */
  function Above(k: int): StoredMessage -> bool {
    (m: StoredMessage) => m.channelVersion > k
  }

  function OnChannelAbove(c: Channel, k: int): StoredMessage -> bool {
    (m: StoredMessage) => ChannelOf(m) == c && m.channelVersion > k
  }

  /** A single-subscription dispatcher whose offset is below the first
      item's channel version is handed every item, in order, when the items
      are on its channel, rise strictly in channel version and have fresh,
      distinct ids. */
  lemma {:induction false} PumpDeliversAll(c: Channel, offset: int, items: seq<StoredMessage>, seen: set<MessageId>, handler: StoredMessage -> HandlerOutcome)
    requires NeverThrows(handler)
    requires forall x :: x in items ==> ChannelOf(x) == c && x.channelVersion > offset && x.id !in seen
    requires forall i, j :: 0 <= i < j < |items| ==> items[i].channelVersion < items[j].channelVersion && items[i].id != items[j].id
    ensures Pump(Intended, Dispatcher([Subscription(c, offset)]), items, seen, handler).delivered == items
    decreases |items|
  {
    if |items| > 0 {
      var d := Dispatcher([Subscription(c, offset)]);
      var m := items[0];
      assert m in items;
      assert Matches(d.subscriptions[0], m);
      var d' := Handle(d, m, handler(m)).dispatcher;
      assert d' == Dispatcher([Subscription(c, m.channelVersion)]);
      RisingTail(c, offset, items, seen);
      PumpDeliversAll(c, m.channelVersion, items[1..], seen + {m.id}, handler);
      assert items == [m] + items[1..];
    }
  }

  /** The items after the first are still on `c`, now past the first item's
      channel version, with ids fresh once the first id is seen. */
  lemma RisingTail(c: Channel, offset: int, items: seq<StoredMessage>, seen: set<MessageId>)
    requires |items| > 0
    requires forall x :: x in items ==> ChannelOf(x) == c && x.channelVersion > offset && x.id !in seen
    requires forall i, j :: 0 <= i < j < |items| ==> items[i].channelVersion < items[j].channelVersion && items[i].id != items[j].id
    ensures forall x :: x in items[1..] ==> ChannelOf(x) == c && x.channelVersion > items[0].channelVersion && x.id !in seen + {items[0].id}
  {
    forall x | x in items[1..]
      ensures ChannelOf(x) == c && x.channelVersion > items[0].channelVersion && x.id !in seen + {items[0].id}
    {
      var j :| 0 <= j < |items[1..]| && items[1..][j] == x;
      assert items[j + 1] == x;
    }
  }

  /** In a well-formed log, one channel's entries rise strictly in channel
      version and have distinct ids. */
  lemma ChannelSelectionOrdered(log: Log, p: StoredMessage -> bool, c: Channel)
    requires WellFormed(log)
    requires forall x :: p(x) ==> ChannelOf(x) == c
    ensures forall i, j :: 0 <= i < j < |Select(log, p)| ==>
      Select(log, p)[i].channelVersion < Select(log, p)[j].channelVersion && Select(log, p)[i].id != Select(log, p)[j].id
  {
    var rel := (a: StoredMessage, b: StoredMessage) => a.channelVersion < b.channelVersion && a.id != b.id;
    forall i, j | 0 <= i < j < |log| && p(log[i]) && p(log[j])
      ensures rel(log[i], log[j])
    {
      ChannelVersionsIncrease(log, i, j);
    }
    SelectKeepsOrder(log, p, rel);
  }

  /** Resumption: a dispatcher restored at offset `k` on channel `c` and
      bound to a well-formed log is handed exactly that channel's entries
      with channel version above `k`, in log order. */
  lemma RestoredReceivesTail(log: Log, c: Channel, k: int, handler: StoredMessage -> HandlerOutcome)
    requires WellFormed(log) && NeverThrows(handler)
    ensures Bind(Restore([Subscription(c, k)]), log, [], handler).delivered == Select(log, OnChannelAbove(c, k))
  {
    var d := Restore([Subscription(c, k)]);
    forall m | m in log ensures Admits(d)(m) == OnChannelAbove(c, k)(m) {
      RestoreAdmits(c, k, m);
    }
    SelectExt(log, Admits(d), OnChannelAbove(c, k));
    var items := Select(log, OnChannelAbove(c, k));
    ChannelSelectionOrdered(log, OnChannelAbove(c, k), c);
    PumpDeliversAll(c, k, items, {}, handler);
    assert GetDispatcherStream(log, d) + [] == items;
  }

  /** Resumption, counted: with `n` entries on channel `c` and offset
      `0 <= k`, the restored dispatcher is handed `max(n - k, 0)` messages
      whose channel versions are `k + 1, k + 2, ...`. */
  lemma RestoredReceivesLastEntries(log: Log, c: Channel, k: nat, handler: StoredMessage -> HandlerOutcome)
    requires WellFormed(log) && NeverThrows(handler)
    ensures var del := Bind(Restore([Subscription(c, k)]), log, [], handler).delivered;
      var n := |Select(log, OnChannel(c))|;
      && |del| == (if n > k then n - k else 0)
      && forall j :: 0 <= j < |del| ==> del[j].channelVersion == k + 1 + j
  {
    RestoredReceivesTail(log, c, k, handler);
    var s := Select(log, OnChannel(c));
    ChannelVersionsConsecutive(log, c);
    SelectOfSelect(log, OnChannel(c), Above(k), OnChannelAbove(c, k));
    ConsecutiveTail(s, k);
  }

  /** Dropping the entries of a 1, 2, 3, ... numbered sequence up to `k`
      leaves the suffix from position `k`, numbered `k + 1, k + 2, ...`. */
  lemma ConsecutiveTail(s: seq<StoredMessage>, k: nat)
    requires forall j :: 0 <= j < |s| ==> s[j].channelVersion == j + 1
    ensures |Select(s, Above(k))| == (if |s| > k then |s| - k else 0)
    ensures forall j :: 0 <= j < |Select(s, Above(k))| ==> Select(s, Above(k))[j].channelVersion == k + 1 + j
  {
    var m := if |s| > k then k else |s|;
    forall j | 0 <= j < |s| ensures Above(k)(s[j]) == (j >= m) {
    }
    SelectSuffix(s, Above(k), m);
  }



  /** A created dispatcher's backfill from a well-formed log is its
      channel's entries: every logged entry has channel version at least 1. */
  lemma CreatedStream(log: Log, c: Channel)
    requires WellFormed(log)
    ensures GetDispatcherStream(log, Create([c])) == Select(log, OnChannel(c))
  {
    forall m | m in log ensures Admits(Create([c]))(m) == OnChannel(c)(m) {
      var i :| 0 <= i < |log| && log[i] == m;
      assert StampedAt(log, i);
      CreateAdmits([c], m);
    }
    SelectExt(log, Admits(Create([c])), OnChannel(c));
  }

  /** A dispatcher created on channel `c` after all logging is handed
      exactly that channel's entries, in log order. */
  lemma FreshDispatcherReceivesChannel(log: Log, c: Channel, handler: StoredMessage -> HandlerOutcome)
    requires WellFormed(log) && NeverThrows(handler)
    ensures Bind(Create([c]), log, [], handler).delivered == Select(log, OnChannel(c))
  {
    CreatedStream(log, c);
    assert GetDispatcherStream(log, Create([c])) + [] == Select(log, OnChannel(c));
    CreatedTakesChannel(log, c, handler);
  }


  /** A created dispatcher's backfill followed by the next stored message
      on its channel is the channel's selection from the longer log. */
  lemma BackfillThenLive(log: Log, c: Channel, env: Envelope, id: MessageId)
    requires WellFormed(log)
    requires env.streamName.AsChannel() == c && id !in Ids(log)
    ensures var log' := LogMessage(log, env, id).log;
      GetDispatcherStream(log, Create([c])) + [log'[|log|]] == Select(log', OnChannel(c))
  {
    var log' := LogMessage(log, env, id).log;
    assert log' == log + [log'[|log|]];
    CreatedStream(log, c);
    SelectSnoc(log, log'[|log|], OnChannel(c));
  }

  /** A channel's entries in a well-formed log have channel version at least 1. */
  lemma ChannelEntriesPositive(log: Log, c: Channel)
    requires WellFormed(log)
    ensures forall x :: x in Select(log, OnChannel(c)) ==> x.channelVersion > 0
  {
    forall x | x in Select(log, OnChannel(c)) ensures x.channelVersion > 0 {
      var i :| 0 <= i < |log| && log[i] == x;
      assert StampedAt(log, i);
    }
  }

  /** A created dispatcher pumped over its channel's entries in a
      well-formed log is handed all of them, in order. */
  lemma CreatedTakesChannel(log: Log, c: Channel, handler: StoredMessage -> HandlerOutcome)
    requires WellFormed(log) && NeverThrows(handler)
    ensures Pump(Intended, Create([c]), Select(log, OnChannel(c)), {}, handler).delivered == Select(log, OnChannel(c))
  {
    var items := Select(log, OnChannel(c));
    ChannelSelectionOrdered(log, OnChannel(c), c);
    ChannelEntriesPositive(log, c);
    assert Create([c]) == Dispatcher([Subscription(c, 0)]);
    PumpDeliversAll(c, 0, items, {}, handler);
  }

  /** A message logged while a dispatcher on its channel is bound reaches the
      handler after the backfill, once the feed carries the stored message. */
  lemma LiveMessageDelivered(log: Log, c: Channel, env: Envelope, id: MessageId, handler: StoredMessage -> HandlerOutcome)
    requires WellFormed(log) && NeverThrows(handler)
    requires env.streamName.AsChannel() == c && id !in Ids(log)
    ensures var stored := LogMessage(log, env, id).log[|log|];
      Bind(Create([c]), log, [stored], handler).delivered == Select(log, OnChannel(c)) + [stored]
  {
    var log' := LogMessage(log, env, id).log;
    BackfillThenLive(log, c, env, id);
    CreatedStream(log, c);
    CreatedTakesChannel(log', c, handler);
  }

  /** After one pass, with the intended `setOffset` and `filter` checking
      each item once the handles before it have finished, none of the items
      is admitted any more. */
  lemma {:induction false} PumpCovers(d: Dispatcher, items: seq<StoredMessage>, seen: set<MessageId>, handler: StoredMessage -> HandlerOutcome)
    requires NeverThrows(handler)
    requires forall x :: x in items ==> x.id !in seen
    requires forall i, j :: 0 <= i < j < |items| ==> items[i].id != items[j].id
    ensures forall x :: x in items ==> !Filter(Pump(Intended, d, items, seen, handler).dispatcher, x)
    decreases |items|
  {
    if |items| > 0 {
      var m := items[0];
      var rest := items[1..];
      assert m in items;
      forall x | x in rest ensures x.id !in seen + {m.id} {
        var j :| 0 <= j < |rest| && rest[j] == x;
        assert items[j + 1] == x;
      }
      var d' := if Filter(d, m) then Handle(d, m, handler(m)).dispatcher else d;
      if Filter(d, m) {
        HandledNotReadmitted(d, m, handler(m));
      }
      PumpCovers(d', rest, seen + {m.id}, handler);
      PumpRaisesFloors(d', rest, seen + {m.id}, handler);
      var final := Pump(Intended, d', rest, seen + {m.id}, handler).dispatcher;
      assert Pump(Intended, d, items, seen, handler).dispatcher == final;
      RejectionPersistsFloors(d', final, m);
      assert items == [m] + rest;
    }
  }

  /** With the intended `setOffset`, binding the same log again after a
      complete pass delivers nothing: every message is handled once. */
  lemma RebindDeliversNothing(log: Log, d: Dispatcher, handler: StoredMessage -> HandlerOutcome)
    requires WellFormed(log) && NeverThrows(handler)
    ensures Bind(Bind(d, log, [], handler).dispatcher, log, [], handler).delivered == []
  {
    var items := GetDispatcherStream(log, d);
    assert items + [] == items;
    var idsDiffer := (a: StoredMessage, b: StoredMessage) => a.id != b.id;
    SelectKeepsOrder(log, Admits(d), idsDiffer);
    PumpCovers(d, items, {}, handler);
    PumpRaisesFloors(d, items, {}, handler);
    var d1 := Bind(d, log, [], handler).dispatcher;
    forall m | m in log ensures !Filter(d1, m) {
      if !Filter(d, m) {
        RejectionPersistsFloors(d, d1, m);
      }
    }
  }

  /* ---- `bind` as written ---- */

  /** JavaScript's `a > b` when `a` may be `undefined`: false then. */
  predicate JsGreater(a: Option<int>, b: int) {
    a.Some? && a.value > b
  }

  /** The channel version `filter` reads off a raw envelope: it has none. */
  function RawChannelVersion(e: Envelope): Option<int> {
    None
  }

  /** `filter` applied to a raw envelope. */
  predicate FilterRaw(d: Dispatcher, e: Envelope) {
    exists i :: 0 <= i < |d.subscriptions| && ChannelEquals(e.streamName.AsChannel(), d.subscriptions[i].channel)
      && JsGreater(RawChannelVersion(e), d.subscriptions[i].offset)
  }

  /** `distinct` keyed by `id` over raw envelopes: every key is
      `undefined`, so only the first envelope gets through. */
  function DistinctRaw(live: seq<Envelope>): (r: seq<Envelope>)
    ensures |r| <= 1 && (|live| > 0 ==> r == [live[0]])
  {
    if |live| == 0 then [] else [live[0]]
  }

  /** `bind` as written: the backfill runs through `handle` as written, and
      the live feed carries the raw envelopes `logMessage` emits. */
  datatype AsWrittenDelivery = AsWrittenDelivery(backfill: Delivery, liveAdmitted: seq<Envelope>)

  function BindAsWritten(d: Dispatcher, log: Log, live: seq<Envelope>, handler: StoredMessage -> HandlerOutcome): (r: AsWrittenDelivery)
    ensures r.backfill.dispatcher == d
    ensures r.liveAdmitted == []
  {
    var backfill := Pump(AsWritten, d, GetDispatcherStream(log, d), {}, handler);
    AsWrittenDelivery(backfill, Select(DistinctRaw(live), (e: Envelope) => FilterRaw(backfill.dispatcher, e)))
  }

  /** As written, pumping never changes the dispatcher, and every admitted
      item with a fresh id is delivered. */
  lemma {:induction false} PumpAsWrittenDeliversAdmitted(d: Dispatcher, items: seq<StoredMessage>, seen: set<MessageId>, handler: StoredMessage -> HandlerOutcome)
    requires NeverThrows(handler)
    requires forall x :: x in items ==> Filter(d, x) && x.id !in seen
    requires forall i, j :: 0 <= i < j < |items| ==> items[i].id != items[j].id
    ensures Pump(AsWritten, d, items, seen, handler) == Delivery(items, d, None)
    decreases |items|
  {
    if |items| > 0 {
      var m := items[0];
      var rest := items[1..];
      assert m in items;
      forall x | x in rest ensures Filter(d, x) && x.id !in seen + {m.id} {
        var j :| 0 <= j < |rest| && rest[j] == x;
        assert items[j + 1] == x;
      }
      PumpAsWrittenDeliversAdmitted(d, rest, seen + {m.id}, handler);
      assert items == [m] + rest;
    }
  }

  /** As written, binding the same log again hands the handler the same
      backfill again: offsets never move, so nothing is ever consumed. */
  lemma RebindRedeliversAsWritten(log: Log, d: Dispatcher, handler: StoredMessage -> HandlerOutcome)
    requires WellFormed(log) && NeverThrows(handler)
    ensures var first := BindAsWritten(d, log, [], handler).backfill;
      && first.delivered == GetDispatcherStream(log, d)
      && BindAsWritten(first.dispatcher, log, [], handler).backfill.delivered == first.delivered
  {
    var items := GetDispatcherStream(log, d);
    var idsDiffer := (a: StoredMessage, b: StoredMessage) => a.id != b.id;
    SelectKeepsOrder(log, Admits(d), idsDiffer);
    PumpAsWrittenDeliversAdmitted(d, items, {}, handler);
  }

  function SampleChannel(): Channel { Channel("my-service", "my-channel") }

  function SampleEnvelope(): Envelope {
    Envelope("t1", StreamName("my-service", "my-channel", "a1"), Message("Tick", None))
  }

  /** Logging the sample envelope into an empty store. */
  lemma SampleLogged()
    ensures LogMessage([], SampleEnvelope(), "m1").log == [StoredMessage(SampleEnvelope(), "m1", 1, 0, 1)]
  {
    assert Select([], OnChannel(SampleChannel())) == [];
  }

  /** One message on a subscribed channel: as written it is delivered on
      every bind; with the intended `setOffset` the second bind hands over
      nothing. */
  lemma RebindExample(handler: StoredMessage -> HandlerOutcome)
    requires NeverThrows(handler)
    ensures var log := [StoredMessage(SampleEnvelope(), "m1", 1, 0, 1)];
      var d := Create([SampleChannel()]);
      && BindAsWritten(BindAsWritten(d, log, [], handler).backfill.dispatcher, log, [], handler).backfill.delivered == log
      && Bind(d, log, [], handler).delivered == log
      && Bind(Bind(d, log, [], handler).dispatcher, log, [], handler).delivered == []
  {
    SampleLogged();
    var c := SampleChannel();
    var log := LogMessage([], SampleEnvelope(), "m1").log;
    var d := Create([c]);
    CreatedStream(log, c);
    SelectSnoc([], log[0], OnChannel(c));
    assert [] + [log[0]] == log;
    RebindRedeliversAsWritten(log, d, handler);
    RebindDeliversNothing(log, d, handler);
    FreshDispatcherReceivesChannel(log, c, handler);
  }

  /** Two items on one channel that reach a fresh dispatcher out of order,
      channel version 5 then 3: both pass `filter` against the starting
      offsets, as when the code filters them on emission, but checked once
      the first handle has finished the second no longer passes, so only
      the first is handled. */
  lemma OutOfOrderBurst(c: Channel, m5: StoredMessage, m3: StoredMessage, handler: StoredMessage -> HandlerOutcome)
    requires NeverThrows(handler)
    requires ChannelOf(m5) == c && ChannelOf(m3) == c && m5.id != m3.id
    requires m5.channelVersion == 5 && m3.channelVersion == 3
    ensures Filter(Create([c]), m5) && Filter(Create([c]), m3)
    ensures Pump(Intended, Create([c]), [m5, m3], {}, handler).delivered == [m5]
  {
    var d := Create([c]);
    assert Matches(d.subscriptions[0], m5) && Matches(d.subscriptions[0], m3);
    var d' := Handle(d, m5, Completed).dispatcher;
    assert d'.subscriptions == [Subscription(c, 5)];
    assert !Filter(d', m3);
    assert [m5, m3][1..] == [m3] && [m3][1..] == [];
    assert handler(m5) == Completed;
    assert HandleWith(Intended, d, m5, handler(m5)) == Handle(d, m5, Completed);
    var seen: set<MessageId> := {};
    var rest := Pump(Intended, d', [m5, m3][1..], seen + {m5.id}, handler);
    assert m3.id !in seen + {m5.id};
    assert rest == Pump(Intended, d', [], seen + {m5.id} + {m3.id}, handler);
    assert Pump(Intended, d, [m5, m3], seen, handler).delivered == [m5] + rest.delivered;
  }

  /** One message logged while bound: as written the live feed admits
      nothing; with stored messages on the feed it is delivered. */
  lemma LiveExample(handler: StoredMessage -> HandlerOutcome)
    requires NeverThrows(handler)
    ensures var c := SampleChannel();
      var stored := StoredMessage(SampleEnvelope(), "m1", 1, 0, 1);
      && BindAsWritten(Create([c]), [], [SampleEnvelope()], handler).liveAdmitted == []
      && Bind(Create([c]), [], [stored], handler).delivered == [stored]
  {
    SampleLogged();
    LiveMessageDelivered([], SampleChannel(), SampleEnvelope(), "m1", handler);
  }
}
