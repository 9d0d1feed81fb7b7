/** What one indexer does with a schedule of events, as functions on values: the reference the
    classes of module Indexing are proved against. */
module IndexerSpec {
  import opened Lines
  import opened Documents

  /** Go's zero time, or a point in time in nanoseconds. */
  datatype Instant = Never | At(ns: int)

  datatype Config = Config(msgLimit: int, bytesLimit: int, interval: int)

  /** A bulk call as sendToES sees it: transport error, error status (its body is drained before
      the decode), undecodable body, or a decoded answer. */
  datatype Response = TransportError | ErrorStatus | Undecodable | Decoded(hasErrors: bool, items: seq<Item>)

  /** answer(n, body): the response to the n-th bulk call. republish: errorChan is not nil. */
  datatype Env = Env(cfg: Config, answer: (nat, seq<byte>) -> Response, republish: bool)

  /** No answer makes parseESErrors index past the lines of its body. */
  ghost predicate Conforming(answer: (nat, seq<byte>) -> Response) {
    forall n: nat, body: seq<byte> :: ConformsAt(answer, n, body)
  }

  ghost predicate ConformsAt(answer: (nat, seq<byte>) -> Response, n: nat, body: seq<byte>) {
    var r := answer(n, body);
    r.Decoded? && r.hasErrors ==> ErrorBody(SplitAfter(body), r.items).Some?
  }

  datatype Reason = TimeLimit | BytesLimit | MsgLimit | Shutdown

  /** A message and the time it was bulked. */
  datatype Entry = Entry(body: seq<byte>, at: int)

  datatype Flush = Flush(reason: Reason, batch: seq<Entry>, at: int)

  /** The flush metrics: reason, flushed bytes, flushed messages. */
  datatype Report = Report(reason: Reason, bytes: nat, msgs: nat)

  /** The part of the state behind the flush callback: bulk calls made, error buffers sent on
      errorChan, whether it is closed, and the time of the next tick. */
  datatype Sink = Sink(calls: nat, sent: seq<seq<byte>>, closed: bool, deadline: int)

  datatype State = State(flushes: seq<Flush>, pending: seq<Entry>, lastFlush: Instant, sink: Sink)

  datatype Event = Msg(now: int, body: seq<byte>) | Tick(now: int, healthy: bool) | Closed(now: int)

  datatype Outcome = Running | Stopped | Errored

  /** The bytes of a batch: its messages back to back. */
  function Body(batch: seq<Entry>): seq<byte> {
    if batch == [] then [] else Body(batch[..|batch| - 1]) + batch[|batch| - 1].body
  }

  function Reports(flushes: seq<Flush>): (r: seq<Report>)
    ensures |r| == |flushes|
  {
    seq(|flushes|, i requires 0 <= i < |flushes| =>
      Report(flushes[i].reason, |Body(flushes[i].batch)|, |flushes[i].batch|))
  }

  /** The buffer sendToES returns, nil as None. */
  function Extracted(env: Env, calls: nat, body: seq<byte>): Option<seq<byte>> {
    if |body| < MINIMUM_BUFFER_SIZE then None else
    match env.answer(calls, body)
    case Decoded(true, items) => ErrorBody(SplitAfter(body), items)
    case _ => None
  }

  function FlushBuffer(env: Env, k: Sink, body: seq<byte>, now: int): Sink {
    var out := Extracted(env, k.calls, body);
    Sink(
      if |body| < MINIMUM_BUFFER_SIZE then k.calls else k.calls + 1,
      if out.Some? && env.republish && |out.value| >= 1 then k.sent + [out.value] else k.sent,
      k.closed,
      now + env.cfg.interval)
  }

  function DoFlush(env: Env, s: State, reason: Reason, now: int): State {
    State(s.flushes + [Flush(reason, s.pending, now)], [], At(now), FlushBuffer(env, s.sink, Body(s.pending), now))
  }

  /** timeLimit < time.Since(lastFlush); the zero time lies further back than any limit. */
  predicate TimeUp(cfg: Config, last: Instant, now: int) {
    last.Never? || cfg.interval < now - last.ns
  }

  predicate OverBytes(cfg: Config, buffered: nat, msg: nat) {
    cfg.bytesLimit < buffered + msg
  }

  function TimeCheck(env: Env, s: State, now: int): State {
    if TimeUp(env.cfg, s.lastFlush, now) && 0 < |s.pending| then DoFlush(env, s, TimeLimit, now) else s
  }

  function BytesCheck(env: Env, s: State, msg: seq<byte>, now: int): State {
    if OverBytes(env.cfg, |Body(s.pending)|, |msg|) then DoFlush(env, s, BytesLimit, now) else s
  }

  function Append(s: State, msg: seq<byte>, now: int): State {
    s.(pending := s.pending + [Entry(msg, now)])
  }

  function CountCheck(env: Env, s: State, now: int): State {
    if env.cfg.msgLimit == |s.pending| then DoFlush(env, s, MsgLimit, now) else s
  }

  function Bulk(env: Env, s: State, msg: Option<seq<byte>>, now: int): State {
    var timed := TimeCheck(env, s, now);
    match msg
    case None => timed
    case Some(m) => CountCheck(env, Append(BytesCheck(env, timed, m, now), m, now), now)
  }

  function CloseErrors(env: Env, s: State): State {
    s.(sink := s.sink.(closed := env.republish))
  }

  /** One turn of the select loop; the outcome is Running unless the loop returns. */
  function Step(env: Env, s: State, e: Event): (State, Outcome) {
    match e
    case Msg(now, body) => (Bulk(env, s, Some(body), now), Running)
    case Tick(now, healthy) =>
      if !healthy then (CloseErrors(env, s), Errored) else
      var b := Bulk(env, s, None, now);
      (b.(sink := b.sink.(deadline := now + env.cfg.interval)), Running)
    case Closed(now) => (CloseErrors(env, DoFlush(env, s, Shutdown, now)), Stopped)
  }

  /** The state after a list of events; events after the loop has returned are not looked at. */
  function Run(env: Env, start: int, events: seq<Event>): (State, Outcome) {
    if events == [] then (Initial(env, start), Running) else
    var (s, o) := Run(env, start, events[..|events| - 1]);
    if o == Running then Step(env, s, events[|events| - 1]) else (s, o)
  }

  function Initial(env: Env, start: int): State {
    State([], [], Never, Sink(0, [], false, start + env.cfg.interval))
  }

  lemma BodySnoc(batch: seq<Entry>, e: Entry)
    ensures Body(batch + [e]) == Body(batch) + e.body
  {
    assert (batch + [e])[..|batch|] == batch;
  }

  lemma RunSnoc(env: Env, start: int, events: seq<Event>, e: Event)
    ensures Run(env, start, events + [e]) ==
            if Run(env, start, events).1 == Running then Step(env, Run(env, start, events).0, e)
            else Run(env, start, events)
  {
    assert (events + [e])[..|events|] == events;
  }

  /** A message's configured byte cap (WithMaxBufferedBytes). */
  const BULK_MAX_BYTES_LIMIT := 90 * 1024 * 1024

  function CappedBytes(maxBytes: int): int {
    if maxBytes < BULK_MAX_BYTES_LIMIT then maxBytes else BULK_MAX_BYTES_LIMIT
  }
}
