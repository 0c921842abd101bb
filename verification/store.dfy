/** The in-memory message log (`InMemoryMessageStoreDB`, src/store/index.ts).
    The log is a sequence of stored messages; appending stamps three
    counters by counting earlier entries:
    - `version`: 1 + earlier entries on the same stream (`streamEquals`),
    - `channelVersion`: 1 + earlier entries on the same channel (`channelEquals`),
    - `depth`: earlier entries with the same trace id. */
module Store {
  import opened Base
  import opened Stream
  import opened Messages

  type Log = seq<StoredMessage>

  /** What `logMessage` returns. */
  datatype LogResult = LogResult(id: MessageId, version: int, depth: int)

  /** The log after an append, and the append's result. */
  datatype Logged = Logged(log: Log, result: LogResult)

  function OnStream(name: StreamName): StoredMessage -> bool {
    (m: StoredMessage) => StreamEquals(m.envelope.streamName, name)
  }

  function OnChannel(c: Channel): StoredMessage -> bool {
    (m: StoredMessage) => ChannelEquals(m.envelope.streamName.AsChannel(), c)
  }

  function InTrace(traceId: TraceId): StoredMessage -> bool {
    (m: StoredMessage) => m.envelope.traceId == traceId
  }

  /** `getAggregateVersion`: entries already on the envelope's stream. */
  function AggregateVersion(log: Log, env: Envelope): nat {
    |Select(log, OnStream(env.streamName))|
  }

  /** `getChannelVersion`: entries already on the envelope's channel. */
  function ChannelVersion(log: Log, env: Envelope): nat {
    |Select(log, OnChannel(env.streamName.AsChannel()))|
  }

  /** `getDepth`: entries already in the envelope's trace. */
  function Depth(log: Log, env: Envelope): nat {
    |Select(log, InTrace(env.traceId))|
  }

  function Ids(log: Log): set<MessageId> {
    set m | m in log :: m.id
  }

  /** The entry at `i` carries the counters `logMessage` gives it when the
      log is `log[..i]`. */
  ghost predicate StampedAt(log: Log, i: nat)
    requires i < |log|
  {
    && log[i].version == AggregateVersion(log[..i], log[i].envelope) + 1
    && log[i].channelVersion == ChannelVersion(log[..i], log[i].envelope) + 1
    && log[i].depth == Depth(log[..i], log[i].envelope)
  }

  /** The invariant every log built by `logMessage` keeps: each entry is
      stamped from the entries before it, and ids are distinct. */
  ghost predicate WellFormed(log: Log) {
    && (forall i :: 0 <= i < |log| ==> StampedAt(log, i))
    && (forall i, j :: 0 <= i < j < |log| ==> log[i].id != log[j].id)
  }

  /** `logMessage`: stamps the envelope and pushes it at the end of the log.
      The id comes from `generateId` and is assumed fresh. */
  function LogMessage(log: Log, env: Envelope, id: MessageId): (r: Logged)
    requires id !in Ids(log)
    ensures |r.log| == |log| + 1 && r.log[..|log|] == log
    ensures r.log[|log|].envelope == env && r.log[|log|].id == id
    ensures r.result == LogResult(r.log[|log|].id, r.log[|log|].version, r.log[|log|].depth)
    ensures WellFormed(log) ==> WellFormed(r.log)
  {
    var stored := StoredMessage(env, id, AggregateVersion(log, env) + 1, Depth(log, env), ChannelVersion(log, env) + 1);
    var log' := log + [stored];
    AppendKeepsWellFormed(log, stored);
    Logged(log', LogResult(id, stored.version, stored.depth))
  }

  lemma AppendKeepsWellFormed(log: Log, m: StoredMessage)
    requires m.id !in Ids(log)
    requires m.version == AggregateVersion(log, m.envelope) + 1
    requires m.channelVersion == ChannelVersion(log, m.envelope) + 1
    requires m.depth == Depth(log, m.envelope)
    ensures WellFormed(log) ==> WellFormed(log + [m])
  {
    var log' := log + [m];
    if WellFormed(log) {
      forall i | 0 <= i < |log'|
        ensures StampedAt(log', i)
      {
        if i < |log| {
          assert log'[..i] == log[..i];
          assert StampedAt(log, i);
        } else {
          assert log'[..i] == log;
        }
      }
      forall i, j | 0 <= i < j < |log'|
        ensures log'[i].id != log'[j].id
      {
        if j == |log| {
          assert log[i] in log;
        }
      }
    }
  }

  /** Logs `envs` in order into an empty store, the k-th with id `ids[k]`. */
  function Replay(envs: seq<Envelope>, ids: seq<MessageId>): (log: Log)
    requires |ids| == |envs|
    requires forall i, j :: 0 <= i < j < |ids| ==> ids[i] != ids[j]
    ensures |log| == |envs| && WellFormed(log)
    ensures forall k :: 0 <= k < |log| ==> log[k].envelope == envs[k] && log[k].id == ids[k]
  {
    if |envs| == 0 then []
    else
      var n := |envs| - 1;
      var prefix := Replay(envs[..n], ids[..n]);
      ReplayIdFresh(prefix, ids, n);
      var r := LogMessage(prefix, envs[n], ids[n]);
      ReplayStep(envs, ids, prefix, r.log);
      r.log
  }

  lemma ReplayIdFresh(prefix: Log, ids: seq<MessageId>, n: nat)
    requires n < |ids| && |prefix| == n
    requires forall i, j :: 0 <= i < j < |ids| ==> ids[i] != ids[j]
    requires forall k :: 0 <= k < n ==> prefix[k].id == ids[..n][k]
    ensures ids[n] !in Ids(prefix)
  {
    forall k | 0 <= k < |prefix|
      ensures prefix[k].id != ids[n]
    {
      assert ids[..n][k] == ids[k];
    }
  }

  lemma ReplayStep(envs: seq<Envelope>, ids: seq<MessageId>, prefix: Log, r: Log)
    requires |ids| == |envs| > 0 && |prefix| == |envs| - 1 && |r| == |envs|
    requires forall k :: 0 <= k < |prefix| ==> prefix[k].envelope == envs[..|envs| - 1][k] && prefix[k].id == ids[..|envs| - 1][k]
    requires r[..|prefix|] == prefix
    requires r[|prefix|].envelope == envs[|prefix|] && r[|prefix|].id == ids[|prefix|]
    ensures forall k :: 0 <= k < |r| ==> r[k].envelope == envs[k] && r[k].id == ids[k]
  {
    forall k | 0 <= k < |r|
      ensures r[k].envelope == envs[k] && r[k].id == ids[k]
    {
      if k < |prefix| {
        assert r[k] == prefix[k];
      }
    }
  }

  /* ---- The counter invariants, stated per key. ---- */

  function StreamOf(m: StoredMessage): StreamName { m.envelope.streamName }
  function ChannelOf(m: StoredMessage): Channel { m.envelope.streamName.AsChannel() }
  function TraceOf(m: StoredMessage): TraceId { m.envelope.traceId }
  function VersionOf(m: StoredMessage): int { m.version }
  function ChannelVersionOf(m: StoredMessage): int { m.channelVersion }
  function DepthOf(m: StoredMessage): int { m.depth }

  lemma OnStreamIsKey(xs: Log, name: StreamName)
    ensures Select(xs, OnStream(name)) == Select(xs, KeyIs(StreamOf, name))
  {
    SelectExt(xs, OnStream(name), KeyIs(StreamOf, name));
  }

  lemma OnChannelIsKey(xs: Log, c: Channel)
    ensures Select(xs, OnChannel(c)) == Select(xs, KeyIs(ChannelOf, c))
  {
    SelectExt(xs, OnChannel(c), KeyIs(ChannelOf, c));
  }

  lemma InTraceIsKey(xs: Log, t: TraceId)
    ensures Select(xs, InTrace(t)) == Select(xs, KeyIs(TraceOf, t))
  {
    SelectExt(xs, InTrace(t), KeyIs(TraceOf, t));
  }

  lemma StampedPerKey(log: Log)
    requires WellFormed(log)
    ensures StampedByKey(log, StreamOf, VersionOf, 1)
    ensures StampedByKey(log, ChannelOf, ChannelVersionOf, 1)
    ensures StampedByKey(log, TraceOf, DepthOf, 0)
  {
    forall i | 0 <= i < |log|
      ensures VersionOf(log[i]) == 1 + |Select(log[..i], KeyIs(StreamOf, StreamOf(log[i])))|
      ensures ChannelVersionOf(log[i]) == 1 + |Select(log[..i], KeyIs(ChannelOf, ChannelOf(log[i])))|
      ensures DepthOf(log[i]) == 0 + |Select(log[..i], KeyIs(TraceOf, TraceOf(log[i])))|
    {
      assert StampedAt(log, i);
      OnStreamIsKey(log[..i], StreamOf(log[i]));
      OnChannelIsKey(log[..i], ChannelOf(log[i]));
      InTraceIsKey(log[..i], TraceOf(log[i]));
    }
  }

  /** One stream's entries carry versions 1, 2, 3, ... in log order. */
  lemma StreamVersionsConsecutive(log: Log, name: StreamName)
    requires WellFormed(log)
    ensures forall j :: 0 <= j < |Select(log, OnStream(name))| ==> Select(log, OnStream(name))[j].version == j + 1
  {
    StampedPerKey(log);
    StampsConsecutive(log, StreamOf, VersionOf, 1, name);
    OnStreamIsKey(log, name);
  }

  /** One channel's entries carry channel versions 1, 2, 3, ... in log order,
      whatever their instance ids. */
  lemma ChannelVersionsConsecutive(log: Log, c: Channel)
    requires WellFormed(log)
    ensures forall j :: 0 <= j < |Select(log, OnChannel(c))| ==> Select(log, OnChannel(c))[j].channelVersion == j + 1
  {
    StampedPerKey(log);
    StampsConsecutive(log, ChannelOf, ChannelVersionOf, 1, c);
    OnChannelIsKey(log, c);
  }

  /** Within one trace, the depth is the 0-based position in log order. */
  lemma TraceDepthsConsecutive(log: Log, t: TraceId)
    requires WellFormed(log)
    ensures forall j :: 0 <= j < |Select(log, InTrace(t))| ==> Select(log, InTrace(t))[j].depth == j
  {
    StampedPerKey(log);
    StampsConsecutive(log, TraceOf, DepthOf, 0, t);
    InTraceIsKey(log, t);
  }

  /** Two entries on the same channel: the later has the larger channel
      version. */
  lemma ChannelVersionsIncrease(log: Log, i: nat, j: nat)
    requires WellFormed(log)
    requires i < j < |log| && ChannelOf(log[i]) == ChannelOf(log[j])
    ensures log[i].channelVersion < log[j].channelVersion
  {
    StampedPerKey(log);
    StampsIncrease(log, ChannelOf, ChannelVersionOf, 1, i, j);
  }

  /** Two entries on the same stream: the later has the larger version, so
      `(streamName, version)` identifies an entry. */
  lemma StreamVersionsIncrease(log: Log, i: nat, j: nat)
    requires WellFormed(log)
    requires i < j < |log| && StreamOf(log[i]) == StreamOf(log[j])
    ensures log[i].version < log[j].version
  {
    StampedPerKey(log);
    StampsIncrease(log, StreamOf, VersionOf, 1, i, j);
  }

  /** Every entry's stream version is at most its channel version: a
      stream's earlier entries are among its channel's earlier entries. */
  lemma VersionAtMostChannelVersion(log: Log, i: nat)
    requires WellFormed(log) && i < |log|
    ensures 1 <= log[i].version <= log[i].channelVersion
  {
    assert StampedAt(log, i);
    var n := log[i].envelope.streamName;
    assert forall m :: OnStream(n)(m) ==> OnChannel(n.AsChannel())(m);
    SelectMonotone(log[..i], OnStream(n), OnChannel(n.AsChannel()));
  }
}
