/** The indexer and its bulker as the program runs them: objects whose methods change fields. */
module Indexing {
  import opened Lines
  import opened Documents
  import opened IndexerSpec
  import opened Reasons

  /** An indexer goroutine: what its flush callback can reach. */
  class Indexer {
    const env: Env
    var bulkCalls: nat
    var errorChan: seq<seq<byte>>
    var errorChanClosed: bool
    var nextTick: int

    ghost predicate Valid()
      reads this
    {
      Conforming(env.answer)
    }

    ghost function View(): Sink
      reads this
    {
      Sink(bulkCalls, errorChan, errorChanClosed, nextTick)
    }

    constructor (env: Env, now: int)
      requires Conforming(env.answer)
      ensures Valid() && this.env == env && View() == Initial(env, now).sink
    {
      this.env := env;
      bulkCalls := 0;
      errorChan := [];
      errorChanClosed := false;
      nextTick := now + env.cfg.interval;
    }

    /** Send one bulk body; the result is the buffer of failed documents, or nil. */
    method SendToES(body: seq<byte>) returns (out: Option<seq<byte>>)
      requires Valid()
      modifies this`bulkCalls
      ensures out == Extracted(env, old(bulkCalls), body)
      ensures out.None? <==>
                || |body| < 5 || !env.answer(old(bulkCalls), body).Decoded?
                || !env.answer(old(bulkCalls), body).hasErrors
      ensures bulkCalls == if |body| < MINIMUM_BUFFER_SIZE then old(bulkCalls) else old(bulkCalls) + 1
    {
      if |body| < MINIMUM_BUFFER_SIZE {
        return None;
      }
      var resp := env.answer(bulkCalls, body);
      assert ConformsAt(env.answer, bulkCalls, body);
      bulkCalls := bulkCalls + 1;
      match resp {
        case TransportError => return None;
        case ErrorStatus => return None;
        case Undecodable => return None;
        case Decoded(hasErrors, items) =>
          if hasErrors {
            out := ParseESErrors(body, items);
            assert out.Some?;
          } else {
            return None;
          }
      }
    }

    method SendErrors(buffer: Option<seq<byte>>)
      modifies this`errorChan
      ensures errorChan == if buffer.Some? && env.republish && |buffer.value| >= 1
                           then old(errorChan) + [buffer.value] else old(errorChan)
    {
      if buffer.None? {
        return;
      }
      if !env.republish {
        return;
      }
      if |buffer.value| < 1 {
        return;
      }
      errorChan := errorChan + [buffer.value];
    }

    /** The flush callback: bulk call, failed documents onwards, ticker reset. */
    method FlushBuffer(body: seq<byte>, now: int)
      requires Valid()
      modifies this
      ensures View() == IndexerSpec.FlushBuffer(env, old(View()), body, now)
    {
      var failed := SendToES(body);
      SendErrors(failed);
      nextTick := now + env.cfg.interval;
    }

    /** One turn of the select loop. */
    method Turn(bulker: Bulker, e: Event) returns (outcome: Outcome)
      requires bulker.Valid() && bulker.indexer == this
      modifies this, bulker
      ensures bulker.Valid() && (bulker.View(), outcome) == Step(env, old(bulker.View()), e)
      ensures outcome != Running ==> errorChanClosed == env.republish
    {
      match e {
        case Msg(t, body) =>
          bulker.Bulk(Some(body), t);
          outcome := Running;
        case Tick(t, healthy) =>
          if healthy {
            bulker.Bulk(None, t);
            nextTick := t + env.cfg.interval;
            outcome := Running;
          } else {
            outcome := Errored;
            errorChanClosed := env.republish;
          }
        case Closed(t) =>
          bulker.FinalFlush(t);
          outcome := Stopped;
          errorChanClosed := env.republish;
      }
    }

    /** The select loop over a schedule: which case the loop picks each time, and when. It
        returns how the loop ended (Running when the schedule is a prefix of an endless run)
        and the flush metrics. */
    method Start(events: seq<Event>, now: int) returns (outcome: Outcome, metrics: seq<Report>)
      requires Valid() && View() == Initial(env, now).sink
      modifies this
      ensures outcome == Run(env, now, events).1
      ensures View() == Run(env, now, events).0.sink
      ensures metrics == Reports(Run(env, now, events).0.flushes)
      ensures errorChanClosed <==> env.republish && outcome != Running
    {
      outcome := Running;
      var bulker := new Bulker(this);
      var i := 0;
      while i < |events| && outcome == Running
        invariant 0 <= i <= |events|
        invariant fresh(bulker) && bulker.Valid() && bulker.indexer == this
        invariant Run(env, now, events[..i]) == (bulker.View(), outcome)
      {
        RunSnoc(env, now, events[..i], events[i]);
        assert events[..i + 1] == events[..i] + [events[i]];
        outcome := Turn(bulker, events[i]);
        i := i + 1;
      }
      metrics := bulker.metrics;
      ClosedExactly(env, now, events);
      RunStops(env, now, events, i);
      assert events[..|events|] == events;
    }
  }

  /** Once the loop has returned, later events change nothing. */
  lemma {:induction false} RunStops(env: Env, start: int, events: seq<Event>, i: nat)
    requires i <= |events| && (i < |events| ==> Run(env, start, events[..i]).1 != Running)
    ensures Run(env, start, events) == Run(env, start, events[..i])
    decreases |events|
  {
    if i == |events| {
      assert events[..i] == events;
    } else {
      var front := events[..|events| - 1];
      assert front[..i] == events[..i];
      RunStops(env, start, front, i);
    }
  }

  /** The bulker: a buffer appended to in place, a message count and the last flush time. The
      ghost fields keep the messages behind the buffer and the flushes made so far. */
  class Bulker {
    const indexer: Indexer
    var bulkedMsgCount: nat
    var buffer: seq<byte>
    var lastFlush: Instant
    var metrics: seq<Report>
    ghost var pending: seq<Entry>
    ghost var flushes: seq<Flush>

    ghost predicate Valid()
      reads this, indexer
    {
      && indexer.Valid()
      && bulkedMsgCount == |pending|
      && buffer == Body(pending)
      && metrics == Reports(flushes)
    }

    ghost function View(): State
      reads this, indexer
    {
      State(flushes, pending, lastFlush, indexer.View())
    }

    constructor (indexer: Indexer)
      requires indexer.Valid()
      ensures Valid() && this.indexer == indexer
      ensures View() == State([], [], Never, indexer.View())
    {
      this.indexer := indexer;
      bulkedMsgCount := 0;
      buffer := [];
      lastFlush := Never;
      metrics := [];
      pending := [];
      flushes := [];
    }

    method Bulk(msg: Option<seq<byte>>, now: int)
      requires Valid()
      modifies this, indexer
      ensures Valid() && View() == IndexerSpec.Bulk(indexer.env, old(View()), msg, now)
    {
      var cfg := indexer.env.cfg;
      ghost var env := indexer.env;
      ghost var before := View();
      if TimeUp(cfg, lastFlush, now) && 0 < bulkedMsgCount {
        FlushNow(TimeLimit, now);
      }
      assert View() == TimeCheck(env, before, now);
      if msg.None? {
        return;
      }
      var m := msg.value;
      before := View();
      if OverBytes(cfg, |buffer|, |m|) {
        FlushNow(BytesLimit, now);
      }
      assert View() == BytesCheck(env, before, m, now);
      BodySnoc(pending, Entry(m, now));
      before := View();
      buffer := buffer + m;
      pending := pending + [Entry(m, now)];
      bulkedMsgCount := bulkedMsgCount + 1;
      assert View() == Append(before, m, now);
      if cfg.msgLimit == bulkedMsgCount {
        FlushNow(MsgLimit, now);
      }
    }

    method FlushNow(reason: Reason, now: int)
      requires Valid()
      modifies this, indexer
      ensures Valid() && View() == DoFlush(indexer.env, old(View()), reason, now)
    {
      metrics := metrics + [Report(reason, |buffer|, bulkedMsgCount)];
      indexer.FlushBuffer(buffer, now);
      flushes := flushes + [Flush(reason, pending, now)];
      buffer := [];
      pending := [];
      lastFlush := At(now);
      bulkedMsgCount := 0;
    }

    method FinalFlush(now: int)
      requires Valid()
      modifies this, indexer
      ensures Valid() && View() == DoFlush(indexer.env, old(View()), Shutdown, now)
    {
      FlushNow(Shutdown, now);
    }
  }
}
