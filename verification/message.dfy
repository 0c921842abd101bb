/** Messages, envelopes and message creators (src/message/index.ts). */
module Messages {
  import opened Base
  import opened Stream

  type MessageId = string
  type TraceId = string

  /** The name of an `after` hook. A hook is a caller-supplied callback; the
      model records each call instead of running it. */
  type HookId = string

  /** `{_tag, payload}`; `None` stands for an undefined payload. */
  datatype Message = Message(tag: string, payload: Option<Value>)

  /** A message addressed to one stream, correlated by its trace id. */
  datatype Envelope = Envelope(traceId: TraceId, streamName: StreamName, message: Message)

  /** An envelope with its store-assigned id and per-stream version. */
  datatype IncomingMessage = IncomingMessage(envelope: Envelope, id: MessageId, version: int)

  /** An incoming message with its trace depth and per-channel version. The
      envelope is kept whole: the stored fields extend it. */
  datatype StoredMessage = StoredMessage(envelope: Envelope, id: MessageId, version: int, depth: int, channelVersion: int) {
    function Incoming(): IncomingMessage {
      IncomingMessage(envelope, id, version)
    }
  }

  /** What `createMessage` returns: the flat record
      `{traceId, aggregateId, streamName, _tag, payload?}`. `payload` is
      `None` exactly when the record has no payload field. */
  datatype MessageResult = MessageResult(traceId: TraceId, aggregateId: AggregateId, streamName: StreamName, tag: string, payload: Option<Value>)

  /** One call of an `after` hook on a created message. */
  datatype HookCall = HookCall(hook: HookId, message: MessageResult)

  /** The closure `getMessageCreator(tag, streamName, hooks)(traceId)(id)`,
      kept as the data it captured. */
  datatype BoundCreator = BoundCreator(tag: string, traceId: TraceId, aggregateId: AggregateId, streamName: StreamName, after: seq<HookId>)

  /** A created message together with the hook calls creating it caused, in
      order. */
  datatype Created = Created(message: MessageResult, calls: seq<HookCall>)

  function CreateMessage(traceId: TraceId, aggregateId: AggregateId, streamName: StreamName, tag: string, payload: Option<Value>): MessageResult {
    MessageResult(traceId, aggregateId, streamName, tag, payload)
  }

  /** Applies `getMessageCreator(tag, streamName, {after})` to a trace id and
      an aggregate id. An absent `after` list is the empty list. */
  function GetMessageCreator(tag: string, streamName: AggregateId -> StreamName, after: seq<HookId>, traceId: TraceId, id: AggregateId): BoundCreator {
    BoundCreator(tag, traceId, id, streamName(id), after)
  }

  /** `hooks.after.forEach(hook => hook(message))`. */
  function RunHooks(hooks: seq<HookId>, m: MessageResult): (calls: seq<HookCall>)
    ensures |calls| == |hooks|
    ensures forall i :: 0 <= i < |hooks| ==> calls[i] == HookCall(hooks[i], m)
  {
    if |hooks| == 0 then [] else [HookCall(hooks[0], m)] + RunHooks(hooks[1..], m)
  }

  /** Calls a bound creator with a payload: the message is created, every
      hook runs once on it in list order, and that same message is returned. */
  function Invoke(c: BoundCreator, payload: Option<Value>): (r: Created)
    ensures r.message.traceId == c.traceId && r.message.aggregateId == c.aggregateId
    ensures r.message.streamName == c.streamName && r.message.tag == c.tag
    ensures r.message.payload == payload
    ensures |r.calls| == |c.after|
    ensures forall i :: 0 <= i < |c.after| ==> r.calls[i].hook == c.after[i] && r.calls[i].message == r.message
  {
    var m := CreateMessage(c.traceId, c.aggregateId, c.streamName, c.tag, payload);
    Created(m, RunHooks(c.after, m))
  }

  /** Everything `getMessageCreator` stamps: the trace id, the id both as
      `aggregateId` and through `streamName(id)`, the tag and the payload;
      the hooks see the returned message once each, in order. */
  lemma CreatorStamps(tag: string, streamName: AggregateId -> StreamName, after: seq<HookId>, traceId: TraceId, id: AggregateId, payload: Option<Value>)
    ensures var r := Invoke(GetMessageCreator(tag, streamName, after, traceId, id), payload);
      && r.message == MessageResult(traceId, id, streamName(id), tag, payload)
      && |r.calls| == |after|
      && forall i :: 0 <= i < |after| ==> r.calls[i] == HookCall(after[i], r.message)
  {
  }
}
