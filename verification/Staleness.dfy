/** How long a message can stay buffered, in a timed model where events are handled when they
    happen: a tick comes exactly when the ticker is due, and no event comes later than that. */
module Staleness {
  import opened Lines
  import opened Documents
  import opened IndexerSpec

  function Clock(start: int, events: seq<Event>): int {
    if events == [] then start else events[|events| - 1].now
  }

  predicate Timely(env: Env, start: int, events: seq<Event>) {
    events == [] ||
    (var front, e := events[..|events| - 1], events[|events| - 1];
     var (s, o) := Run(env, start, front);
     && Timely(env, start, front) && o == Running
     && Clock(start, front) <= e.now <= s.sink.deadline
     && (e.Tick? ==> e.now == s.sink.deadline))
  }

  /** A timely run that is in state s and still going. */
  predicate TimelyRun(env: Env, start: int, events: seq<Event>, s: State) {
    Timely(env, start, events) && Run(env, start, events) == (s, Running)
  }

  /** At time t the message has been buffered for at most two intervals. */
  predicate WithinTwoIntervals(env: Env, e: Entry, t: int) {
    t - e.at <= 2 * env.cfg.interval
  }

  /** Every message of a flush had been buffered for at most two intervals. */
  predicate FreshFlush(env: Env, f: Flush) {
    forall e :: e in f.batch ==> e.at <= f.at && WithinTwoIntervals(env, e, f.at)
  }

  /** The next tick comes at most two intervals after any buffered message: directly if the time
      test will fire there, or else after one more interval. */
  predicate FreshBuffer(env: Env, s: State, clock: int) {
    var p, due := env.cfg.interval, s.sink.deadline;
    && clock <= due <= clock + p
    && (forall e :: e in s.pending ==> e.at <= clock)
    && match s.lastFlush
       case Never => forall e :: e in s.pending ==> due <= e.at + p
       case At(f) =>
         && f + p <= due
         && (forall e :: e in s.pending ==> f <= e.at)
         && (f + p < due ==> forall e :: e in s.pending ==> due <= e.at + 2 * p)
  }

  predicate AllFresh(env: Env, s: State, clock: int) {
    FreshBuffer(env, s, clock) && forall f :: f in s.flushes ==> FreshFlush(env, f)
  }

  lemma FlushFresh(env: Env, s: State, reason: Reason, clock: int, now: int)
    requires env.cfg.interval > 0 && AllFresh(env, s, clock) && clock <= now <= s.sink.deadline
    ensures AllFresh(env, DoFlush(env, s, reason, now), now)
  {
    assert FreshFlush(env, Flush(reason, s.pending, now));
  }

  lemma MessageFresh(env: Env, s: State, m: seq<byte>, clock: int, now: int)
    requires env.cfg.interval > 0 && AllFresh(env, s, clock) && clock <= now <= s.sink.deadline
    ensures AllFresh(env, CountCheck(env, Append(BytesCheck(env, s, m, now), m, now), now), now)
  {
    FlushFresh(env, s, BytesLimit, clock, now);
    var c := BytesCheck(env, s, m, now);
    assert AllFresh(env, c, now);
    var a := Append(c, m, now);
    assert AllFresh(env, a, now);
    FlushFresh(env, a, MsgLimit, now, now);
  }

  lemma StepFresh(env: Env, s: State, clock: int, e: Event)
    requires env.cfg.interval > 0 && AllFresh(env, s, clock)
    requires clock <= e.now <= s.sink.deadline && (e.Tick? ==> e.now == s.sink.deadline)
    ensures Step(env, s, e).1 != Errored ==> AllFresh(env, Step(env, s, e).0, e.now)
  {
    FlushFresh(env, s, TimeLimit, clock, e.now);
    match e {
      case Msg(now, body) =>
        var t := TimeCheck(env, s, now);
        MessageFresh(env, t, body, if t == s then clock else now, now);
      case Tick(now, healthy) =>
      case Closed(now) =>
        FlushFresh(env, s, Shutdown, clock, now);
    }
  }

  lemma {:induction false} RunFresh(env: Env, start: int, events: seq<Event>)
    requires env.cfg.interval > 0 && Timely(env, start, events)
    requires Run(env, start, events).1 != Errored
    ensures AllFresh(env, Run(env, start, events).0, Clock(start, events))
  {
    if events != [] {
      var front := events[..|events| - 1];
      RunFresh(env, start, front);
      StepFresh(env, Run(env, start, front).0, Clock(start, front), events[|events| - 1]);
    }
  }

  /** Staleness bound: no message is flushed more than two intervals after it was bulked, and at
      no moment before the next tick is due is a buffered message older than that. */
  lemma StalenessBound(env: Env, start: int, events: seq<Event>)
    requires env.cfg.interval > 0 && Timely(env, start, events)
    requires Run(env, start, events).1 != Errored
    ensures var (s, o) := Run(env, start, events);
            && (forall f, e :: f in s.flushes && e in f.batch ==> WithinTwoIntervals(env, e, f.at))
            && (forall e, t :: e in s.pending && Clock(start, events) <= t <= s.sink.deadline ==>
                  WithinTwoIntervals(env, e, t))
  {
    RunFresh(env, start, events);
  }

  /** The single-interval bound fails for every limit, interval and Elasticsearch, unless each
      message is flushed at once (msgLimit 1), and for every message m: when it follows a flush at
      the same instant, it sees one tick that finds exactly one interval elapsed, and waits for
      the next. */
  lemma TwoIntervalsReached(env: Env, start: int, m: seq<byte>) returns (events: seq<Event>, s: State, f: Flush)
    requires env.cfg.interval > 0 && env.cfg.msgLimit != 1
    ensures TimelyRun(env, start, events, s) && f in s.flushes
    ensures f.batch == [Entry(m, start)] && f.at - start == 2 * env.cfg.interval
  {
    var p := env.cfg.interval;
    var e3, s3 := OneTick(env, start, m);
    LateTick(env, s3, start + 2 * p);
    events, s := Extend(env, start, e3, s3, Tick(start + 2 * p, true));
    f := Flush(TimeLimit, [Entry(m, start)], start + 2 * p);
  }

  /** After one interval the tick finds nothing to flush. */
  lemma OneTick(env: Env, start: int, m: seq<byte>) returns (events: seq<Event>, s: State)
    requires env.cfg.interval > 0 && env.cfg.msgLimit != 1
    ensures TimelyRun(env, start, events, s) && Clock(start, events) == start + env.cfg.interval
    ensures s.pending == [Entry(m, start)] && s.lastFlush == At(start)
    ensures s.sink.deadline == start + 2 * env.cfg.interval
  {
    var now := start + env.cfg.interval;
    var e2, s2 := TwoMessages(env, start, m);
    QuietTick(env, s2, now);
    events, s := Extend(env, start, e2, s2, Tick(now, true));
  }

  /** Message m twice at the start: the first has been flushed, the second is buffered. */
  lemma TwoMessages(env: Env, start: int, m: seq<byte>) returns (events: seq<Event>, s: State)
    requires env.cfg.interval > 0 && env.cfg.msgLimit != 1
    ensures TimelyRun(env, start, events, s) && Clock(start, events) == start
    ensures s.pending == [Entry(m, start)] && s.lastFlush == At(start)
    ensures s.sink.deadline == start + env.cfg.interval
  {
    var e, s0 := Msg(start, m), Initial(env, start);
    MessageAtOnce(env, s0, start, m);
    var e1, s1 := Extend(env, start, [], s0, e);
    MessageAtOnce(env, s1, start, m);
    events, s := Extend(env, start, e1, s1, e);
  }

  lemma QuietTick(env: Env, s: State, now: int)
    requires s.lastFlush == At(now - env.cfg.interval)
    ensures Step(env, s, Tick(now, true)) == (s.(sink := s.sink.(deadline := now + env.cfg.interval)), Running)
  {
  }

  lemma LateTick(env: Env, s: State, now: int)
    requires env.cfg.interval > 0 && s.lastFlush == At(now - 2 * env.cfg.interval) && s.pending != []
    ensures var (s', o) := Step(env, s, Tick(now, true));
            o == Running && Flush(TimeLimit, s.pending, now) in s'.flushes
  {
  }

  /** Message m at the current instant: it ends up alone in the buffer, and one that was there
      before has just been flushed. */
  lemma MessageAtOnce(env: Env, s: State, now: int, m: seq<byte>)
    requires env.cfg.interval > 0 && env.cfg.msgLimit != 1 && s.sink.deadline == now + env.cfg.interval
    requires s.lastFlush == Never || s.lastFlush == At(now)
    requires s.pending == [] || s.pending == [Entry(m, now)]
    requires s.pending != [] ==> s.lastFlush == Never || env.cfg.bytesLimit < |m|
    ensures var s' := Bulk(env, s, Some(m), now);
            && s'.pending == [Entry(m, now)] && s'.sink.deadline == now + env.cfg.interval
            && s'.lastFlush ==
               if s.pending == [] && env.cfg.bytesLimit >= |m| then s.lastFlush else At(now)
  {
    OneBody(m, now);
    var t := TimeCheck(env, s, now);
    var c := BytesCheck(env, t, m, now);
    assert c.pending == [] && c.sink.deadline == now + env.cfg.interval;
    var a := Append(c, m, now);
    assert a.pending == [Entry(m, now)] && CountCheck(env, a, now) == a;
  }

  lemma OneBody(m: seq<byte>, now: int)
    ensures Body([]) == [] && Body([Entry(m, now)]) == m
  {
    BodySnoc([], Entry(m, now));
    assert [] + [Entry(m, now)] == [Entry(m, now)];
    assert [] + m == m;
  }

  /** A timely run goes on with an event that is not late. */
  lemma Extend(env: Env, start: int, events: seq<Event>, s: State, e: Event) returns (more: seq<Event>, s': State)
    requires TimelyRun(env, start, events, s)
    requires Clock(start, events) <= e.now <= s.sink.deadline && (e.Tick? ==> e.now == s.sink.deadline)
    requires !e.Closed? && (e.Tick? ==> e.healthy)
    ensures TimelyRun(env, start, more, s') && Clock(start, more) == e.now
    ensures s' == Step(env, s, e).0
  {
    RunSnoc(env, start, events, e);
    more, s' := events + [e], Step(env, s, e).0;
    assert more[..|more| - 1] == events;
  }

  predicate NoWait(s: State) {
    s.pending == [] && forall f, e :: f in s.flushes && e in f.batch ==> f.at == e.at
  }

  lemma FlushNoWait(env: Env, s: State, reason: Reason, now: int)
    requires NoWait(s.(pending := [])) && forall e :: e in s.pending ==> e.at == now
    ensures NoWait(DoFlush(env, s, reason, now))
  {
  }

  lemma StepNoWait(env: Env, s: State, e: Event)
    requires env.cfg.msgLimit == 1 && NoWait(s)
    ensures NoWait(Step(env, s, e).0)
  {
    match e {
      case Msg(now, m) =>
        FlushNoWait(env, s, BytesLimit, now);
        var a := Append(BytesCheck(env, s, m, now), m, now);
        assert a.pending == [Entry(m, now)];
        FlushNoWait(env, a, MsgLimit, now);
      case Tick(now, healthy) =>
      case Closed(now) => FlushNoWait(env, s, Shutdown, now);
    }
  }

  /** With msgLimit 1 no message waits at all. */
  lemma {:induction false} ImmediateWhenOne(env: Env, start: int, events: seq<Event>)
    requires env.cfg.msgLimit == 1
    ensures NoWait(Run(env, start, events).0)
  {
    if events != [] {
      var front := events[..|events| - 1];
      ImmediateWhenOne(env, start, front);
      StepNoWait(env, Run(env, start, front).0, events[|events| - 1]);
    }
  }
}
