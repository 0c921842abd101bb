/** Aggregate projection (src/aggregate/index.ts). `doProject` is the fast
    path run on every emitted event: fetch the cached state, project the one
    event, write the result back one version on. `hydrate` rebuilds the
    state from the whole event history with a scan. The `get`/`update`
    backends and `project` are caller-supplied functions; `update` is
    modelled by the write it is asked to perform and the reply it gives. */
module Aggregate {
  import opened Base
  import opened Stream
  import opened Messages

  /** `ProjectionResult`: what `project` and `update` return (`api`). */
  datatype Projection<S> = Success(state: S) | Failure(reason: string, message: string)

  /** `ProjectionFetchResultWithVersion`: what `get` returns (`fetchApi`). */
  datatype Fetched<S> = FetchSuccess(state: S, version: int) | FetchFailure(reason: string, message: string) | NotFound

  /** `ProjectionResultWithVersion` (`internalApi`). Inside `hydrate`'s scan
      a failure also carries the version of the event that produced it. */
  datatype Versioned<S> = VSuccess(state: S, version: int) | VFailure(reason: string, message: string, version: int)

  /** A result spread with the event's trace id, as `doProject` returns it. */
  datatype Traced<S> = Traced(result: Projection<S>, traceId: TraceId)

  /** One call `update(id, state, version)`. */
  datatype Write<S> = Write(id: AggregateId, state: S, version: int)

  /** What `doProject` returns and the `update` call it made, if any. */
  datatype Step<S> = Step(reply: Traced<S>, write: Option<Write<S>>)

  /** What `hydrate` returns and the `update` call it made, if any. */
  datatype Hydration<S> = Hydration(result: Versioned<S>, write: Option<Write<S>>)

  /** `config.initialState` and the user's `project(api)`. */
  datatype Config<!S> = Config(initialState: S, project: (S, MessageResult) -> Projection<S>)

  /** `doProject(event)` against `get(fetchApi)` and `update(api)`. */
  function DoProject<S>(cfg: Config<S>, get: AggregateId -> Fetched<S>, update: (AggregateId, S, int) -> Projection<S>, event: MessageResult): (r: Step<S>)
    ensures r.reply.traceId == event.traceId
    ensures get(event.aggregateId).FetchFailure? ==>
      r.reply.result == Failure(get(event.aggregateId).reason, get(event.aggregateId).message) && r.write == None
    ensures !get(event.aggregateId).FetchFailure? ==>
      var (base, version) := if get(event.aggregateId).NotFound? then (cfg.initialState, 0)
        else (get(event.aggregateId).state, get(event.aggregateId).version);
      var p := cfg.project(base, event);
      && (p.Failure? ==> r.reply.result == p && r.write == None)
      && (p.Success? ==> r.write == Some(Write(event.aggregateId, p.state, version + 1))
                         && r.reply.result == update(event.aggregateId, p.state, version + 1))
  {
    var fetched := get(event.aggregateId);
    if fetched.FetchFailure? then
      Step(Traced(Failure(fetched.reason, fetched.message), event.traceId), None)
    else
      var version := if fetched.NotFound? then 0 else fetched.version;
      var result := if fetched.NotFound? then cfg.project(cfg.initialState, event) else cfg.project(fetched.state, event);
      if result.Failure? then Step(Traced(result, event.traceId), None)
      else
        var w := Write(event.aggregateId, result.state, version + 1);
        Step(Traced(update(w.id, w.state, w.version), event.traceId), Some(w))
  }

  /** The `scan` in `hydrate`: the value emitted after the last event. Once a
      failure is emitted it is passed on unchanged; otherwise the event is
      projected and stamped with its 1-based position. */
  function ScanAll<S>(cfg: Config<S>, events: seq<MessageResult>): (r: Versioned<S>)
    ensures r.VSuccess? ==> r.version == |events|
    ensures r.VFailure? ==> 1 <= r.version <= |events|
  {
    if |events| == 0 then VSuccess(cfg.initialState, 0)
    else
      var n := |events| - 1;
      var last := ScanAll(cfg, events[..n]);
      if last.VFailure? then last
      else
        var p := cfg.project(last.state, events[n]);
        if p.Success? then VSuccess(p.state, n + 1) else VFailure(p.reason, p.message, n + 1)
  }

  /** `{...updateResult, version}`. */
  function WithVersion<S>(p: Projection<S>, version: int): Versioned<S> {
    if p.Success? then VSuccess(p.state, version) else VFailure(p.reason, p.message, version)
  }

  /** `hydrate(id, events)`: an empty history gives the initial state at
      version 0 with no write; a failure is returned with no write;
      otherwise the final state is written at its version, and the update's
      reply is returned with that version. */
  function Hydrate<S>(cfg: Config<S>, update: (AggregateId, S, int) -> Projection<S>, id: AggregateId, events: seq<MessageResult>): (r: Hydration<S>)
    ensures |events| == 0 ==> r == Hydration(VSuccess(cfg.initialState, 0), None)
    ensures |events| > 0 && ScanAll(cfg, events).VFailure? ==> r == Hydration(ScanAll(cfg, events), None)
    ensures |events| > 0 && ScanAll(cfg, events).VSuccess? ==>
      r.write == Some(Write(id, ScanAll(cfg, events).state, |events|))
      && r.result == WithVersion(update(id, ScanAll(cfg, events).state, |events|), |events|)
  {
    if |events| == 0 then Hydration(VSuccess(cfg.initialState, 0), None)
    else
      var result := ScanAll(cfg, events);
      if result.VFailure? then Hydration(result, None)
      else Hydration(WithVersion(update(id, result.state, result.version), result.version), Some(Write(id, result.state, result.version)))
  }

  /* ---- The reference fold ---- */

  /** Projecting `events` one after another from `s`; the first failure
      ends the fold. */
  function Fold<S>(cfg: Config<S>, s: S, events: seq<MessageResult>): Projection<S>
    decreases |events|
  {
    if |events| == 0 then Success(s)
    else
      var p := cfg.project(s, events[0]);
      if p.Failure? then p else Fold(cfg, p.state, events[1..])
  }

  lemma {:induction false} FoldSnoc<S>(cfg: Config<S>, s: S, events: seq<MessageResult>, e: MessageResult)
    ensures Fold(cfg, s, events + [e]) ==
      (var f := Fold(cfg, s, events); if f.Failure? then f else cfg.project(f.state, e))
    decreases |events|
  {
    if |events| > 0 {
      assert (events + [e])[1..] == events[1..] + [e];
      var p := cfg.project(s, events[0]);
      if p.Success? {
        FoldSnoc(cfg, p.state, events[1..], e);
      }
    }
  }

  /** `hydrate`'s scan agrees with the fold: it succeeds exactly when the
      fold does, with the same state and the history's length as version,
      and a failure it reports is the fold's, stamped with the position of
      the first failing event, every earlier event having projected. */
  lemma {:induction false} ScanIsFold<S>(cfg: Config<S>, events: seq<MessageResult>)
    ensures var r := ScanAll(cfg, events);
      var f := Fold(cfg, cfg.initialState, events);
      && (r.VSuccess? <==> f.Success?)
      && (r.VSuccess? ==> r.state == f.state && r.version == |events|)
      && (r.VFailure? ==>
            && f == Failure(r.reason, r.message)
            && Fold(cfg, cfg.initialState, events[..r.version - 1]).Success?
            && cfg.project(Fold(cfg, cfg.initialState, events[..r.version - 1]).state, events[r.version - 1]) == f)
  {
    if |events| > 0 {
      var n := |events| - 1;
      ScanIsFold(cfg, events[..n]);
      LastSplit(events);
      FoldSnoc(cfg, cfg.initialState, events[..n], events[n]);
      var last := ScanAll(cfg, events[..n]);
      if last.VFailure? {
        assert events[..n][..last.version - 1] == events[..last.version - 1];
        assert events[..n][last.version - 1] == events[last.version - 1];
      }
    }
  }

  /** The first failure is terminal: events after it change nothing. */
  lemma {:induction false} FailureIsTerminal<S>(cfg: Config<S>, events: seq<MessageResult>, later: seq<MessageResult>)
    requires ScanAll(cfg, events).VFailure?
    ensures ScanAll(cfg, events + later) == ScanAll(cfg, events)
    decreases |later|
  {
    if |later| == 0 {
      assert events + later == events;
    } else {
      var n := |later| - 1;
      FailureIsTerminal(cfg, events, later[..n]);
      var all := events + later;
      assert all[..|all| - 1] == events + later[..n];
    }
  }

  /* ---- The fast path against a map-backed store ---- */

  /** A map-backed `get`/`update` store: instance id to `(state, version)`. */
  type Cache<S> = map<AggregateId, (S, int)>

  function MapGet<S>(cache: Cache<S>): AggregateId -> Fetched<S> {
    id => if id in cache then FetchSuccess(cache[id].0, cache[id].1) else NotFound
  }

  /** The map-backed `update` replies with the state it stored. */
  function MapUpdate<S>(): (AggregateId, S, int) -> Projection<S> {
    (id: AggregateId, s: S, v: int) => Success(s)
  }

  /** The store after an `update` call, if one was made. */
  function Commit<S>(cache: Cache<S>, w: Option<Write<S>>): (r: Cache<S>)
    ensures w.None? ==> r == cache
    ensures w.Some? ==> r.Keys == cache.Keys + {w.value.id} && r[w.value.id] == (w.value.state, w.value.version)
    ensures forall id :: id in cache && (w.None? || id != w.value.id) ==> id in r && r[id] == cache[id]
  {
    if w.None? then cache else cache[w.value.id := (w.value.state, w.value.version)]
  }

  /** The outbox pipeline `concatMap(doProject)`: every emitted event is
      projected in turn against the store the previous ones left. */
  function FastPath<S>(cfg: Config<S>, cache: Cache<S>, events: seq<MessageResult>): Cache<S> {
    if |events| == 0 then cache
    else
      var prev := FastPath(cfg, cache, events[..|events| - 1]);
      Commit(prev, DoProject(cfg, MapGet(prev), MapUpdate(), events[|events| - 1]).write)
  }

  /** What `get` would report for `id`, defaulting to the initial state at
      version 0 the way `doProject` treats `NotFound`. */
  function Materialized<S>(cfg: Config<S>, cache: Cache<S>, id: AggregateId): (S, int) {
    if id in cache then cache[id] else (cfg.initialState, 0)
  }

  function ForAggregate(id: AggregateId): MessageResult -> bool {
    (e: MessageResult) => e.aggregateId == id
  }

  /** One `doProject` against the map store: another instance's event
      leaves this instance alone; this instance's event, when it projects,
      moves it to the projected state one version on. */
  lemma FastPathStep<S>(cfg: Config<S>, prev: Cache<S>, e: MessageResult, id: AggregateId)
    ensures var next := Commit(prev, DoProject(cfg, MapGet(prev), MapUpdate(), e).write);
      var (s, v) := Materialized(cfg, prev, id);
      && (e.aggregateId != id ==> Materialized(cfg, next, id) == (s, v))
      && (e.aggregateId == id && cfg.project(s, e).Success? ==> Materialized(cfg, next, id) == (cfg.project(s, e).state, v + 1))
  {
    assert MapGet(prev)(e.aggregateId) == (if e.aggregateId in prev then FetchSuccess(prev[e.aggregateId].0, prev[e.aggregateId].1) else NotFound);
  }

  /** A fold that succeeds on `events + [e]` succeeded on `events`, and its
      last step projected `e`. */
  lemma FoldSnocSuccess<S>(cfg: Config<S>, s: S, events: seq<MessageResult>, e: MessageResult)
    requires Fold(cfg, s, events + [e]).Success?
    ensures Fold(cfg, s, events).Success?
    ensures Fold(cfg, s, events + [e]) == cfg.project(Fold(cfg, s, events).state, e)
  {
    FoldSnoc(cfg, s, events, e);
  }

  /** The fast path and the rebuild agree. Starting from an empty store, and
      as long as projecting one instance's events does not fail, the state
      and version the fast path leaves for that instance are the fold of its
      events, at the number of its events -- which is what `hydrate`
      returns from that instance's history. */
  lemma {:induction false} FastPathIsFold<S>(cfg: Config<S>, events: seq<MessageResult>, id: AggregateId)
    requires Fold(cfg, cfg.initialState, Select(events, ForAggregate(id))).Success?
    ensures var mine := Select(events, ForAggregate(id));
      Materialized(cfg, FastPath(cfg, map[], events), id) == (Fold(cfg, cfg.initialState, mine).state, |mine|)
  {
    if |events| > 0 {
      var n := |events| - 1;
      var e := events[n];
      var p := ForAggregate(id);
      LastSplit(events);
      SelectSnoc(events[..n], e, p);
      var before := Select(events[..n], p);
      if p(e) {
        assert Select(events, p) == before + [e];
        FoldSnocSuccess(cfg, cfg.initialState, before, e);
      } else {
        assert Select(events, p) == before;
      }
      FastPathIsFold(cfg, events[..n], id);
      FastPathStep(cfg, FastPath(cfg, map[], events[..n]), e, id);
    }
  }

  lemma FastPathAgreesWithHydrate<S>(cfg: Config<S>, events: seq<MessageResult>, id: AggregateId)
    requires Fold(cfg, cfg.initialState, Select(events, ForAggregate(id))).Success?
    ensures var h := Hydrate(cfg, MapUpdate(), id, Select(events, ForAggregate(id))).result;
      h.VSuccess? && Materialized(cfg, FastPath(cfg, map[], events), id) == (h.state, h.version)
  {
    FastPathIsFold(cfg, events, id);
    ScanIsFold(cfg, Select(events, ForAggregate(id)));
  }

  /* ---- The arithmetic aggregate of the aggregate tests ---- */

  /** `Added n` adds, `Subtracted n` subtracts; anything else fails. */
  function MathProject(total: int, e: MessageResult): Projection<int> {
    if e.payload.Some? && e.payload.value.Num? then
      if e.tag == "Added" then Success(total + e.payload.value.n)
      else if e.tag == "Subtracted" then Success(total - e.payload.value.n)
      else Failure("unknown", e.tag)
    else Failure("invalid", e.tag)
  }

  function MathEvent(tag: string, n: int): MessageResult {
    MessageResult("t1", "a1", StreamName("math", "math", "a1"), tag, Some(Num(n)))
  }

  function MathEvents(): seq<MessageResult> {
    [MathEvent("Added", 5), MathEvent("Subtracted", 7), MathEvent("Added", 4)]
  }

  lemma MathFold()
    ensures Fold(Config(0, MathProject), 0, MathEvents()) == Success(2)
  {
    var cfg := Config(0, MathProject);
    var events := MathEvents();
    assert MathProject(0, events[0]) == Success(5);
    assert events[1..] == [MathEvent("Subtracted", 7), MathEvent("Added", 4)];
    assert MathProject(5, events[1]) == Success(-2);
    assert events[1..][1..] == [MathEvent("Added", 4)];
    assert MathProject(-2, events[2]) == Success(2);
    assert Fold(cfg, 2, []) == Success(2);
  }

  lemma MathEventsMine()
    ensures Select(MathEvents(), ForAggregate("a1")) == MathEvents()
  {
    var events := MathEvents();
    assert forall x :: x in events ==> ForAggregate("a1")(x);
    SelectKeepsAll(events, ForAggregate("a1"));
  }

  /** When every event belongs to the instance and the fold succeeds, both
      paths give the fold's state at version "number of events". */
  lemma AllMineBothPaths<S>(cfg: Config<S>, events: seq<MessageResult>, id: AggregateId, s: S)
    requires Select(events, ForAggregate(id)) == events
    requires Fold(cfg, cfg.initialState, events) == Success(s)
    ensures Materialized(cfg, FastPath(cfg, map[], events), id) == (s, |events|)
    ensures Hydrate(cfg, MapUpdate(), id, events).result == VSuccess(s, |events|)
  {
    FastPathIsFold(cfg, events, id);
    FastPathAgreesWithHydrate(cfg, events, id);
  }

  /** Add 5, subtract 7, add 4: both paths end at total 2, version 3. */
  lemma MathExample()
    ensures Materialized(Config(0, MathProject), FastPath(Config(0, MathProject), map[], MathEvents()), "a1") == (2, 3)
    ensures Hydrate(Config(0, MathProject), MapUpdate(), "a1", MathEvents()).result == VSuccess(2, 3)
  {
    MathEventsMine();
    MathFold();
    AllMineBothPaths(Config(0, MathProject), MathEvents(), "a1", 2);
  }
}
