/** How the bulker cuts the message stream: nothing is lost or reordered, every batch respects
    the limits, and the cut is the shortest possible one, up to its time flushes. */
module Batching {
  import opened Lines
  import opened Documents
  import opened IndexerSpec

  // ------------------------------------------------ refines concatenation

  /** The loop has not returned yet. */
  predicate Live(events: seq<Event>) {
    forall e :: e in events ==> !e.Closed? && (e.Tick? ==> e.healthy)
  }

  /** The messages received before the loop returned, with their arrival times. */
  function Received(events: seq<Event>): seq<Entry> {
    if events == [] then [] else
    var front, e := events[..|events| - 1], events[|events| - 1];
    if Live(front) && e.Msg? then Received(front) + [Entry(e.body, e.now)] else Received(front)
  }

  function Flatten<T>(parts: seq<seq<T>>): seq<T> {
    if parts == [] then [] else Flatten(parts[..|parts| - 1]) + parts[|parts| - 1]
  }

  function Batches(flushes: seq<Flush>): (r: seq<seq<Entry>>)
    ensures |r| == |flushes|
    ensures forall i :: 0 <= i < |r| ==> r[i] == flushes[i].batch
  {
    seq(|flushes|, i requires 0 <= i < |flushes| => flushes[i].batch)
  }

  /** Everything the bulker has been given: flushed batches, then the buffered rest. */
  function Given(s: State): seq<Entry> {
    Flatten(Batches(s.flushes)) + s.pending
  }

  lemma FlattenSnoc<T>(parts: seq<seq<T>>, part: seq<T>)
    ensures Flatten(parts + [part]) == Flatten(parts) + part
  {
    assert (parts + [part])[..|parts|] == parts;
  }

  lemma FlushKeepsGiven(env: Env, s: State, reason: Reason, now: int)
    ensures Given(DoFlush(env, s, reason, now)) == Given(s)
  {
    var f := Flush(reason, s.pending, now);
    assert Batches(s.flushes + [f]) == Batches(s.flushes) + [s.pending];
    FlattenSnoc(Batches(s.flushes), s.pending);
  }

  lemma AppendGiven(s: State, m: seq<byte>, now: int)
    ensures Given(Append(s, m, now)) == Given(s) + [Entry(m, now)]
  {
  }

  lemma MessageGiven(env: Env, s: State, m: seq<byte>, now: int)
    ensures Given(CountCheck(env, Append(BytesCheck(env, s, m, now), m, now), now)) == Given(s) + [Entry(m, now)]
  {
    FlushKeepsGiven(env, s, BytesLimit, now);
    var checked := BytesCheck(env, s, m, now);
    AppendGiven(checked, m, now);
    FlushKeepsGiven(env, Append(checked, m, now), MsgLimit, now);
  }

  lemma BulkGiven(env: Env, s: State, msg: Option<seq<byte>>, now: int)
    ensures Given(Bulk(env, s, msg, now)) == Given(s) + if msg.Some? then [Entry(msg.value, now)] else []
  {
    FlushKeepsGiven(env, s, TimeLimit, now);
    if msg.Some? {
      MessageGiven(env, TimeCheck(env, s, now), msg.value, now);
    }
  }

  lemma {:induction false} RunningWhileLive(env: Env, start: int, events: seq<Event>)
    ensures Run(env, start, events).1 == Running <==> Live(events)
  {
    if events != [] {
      var front, e := events[..|events| - 1], events[|events| - 1];
      RunningWhileLive(env, start, front);
      assert events == front + [e];
    }
  }

  /** The flushed batches, in order, followed by the buffer, are exactly the messages received,
      in order: every batch boundary is a message boundary. */
  lemma {:induction false} NothingLostOrReordered(env: Env, start: int, events: seq<Event>)
    ensures Given(Run(env, start, events).0) == Received(events)
  {
    if events != [] {
      var front, e := events[..|events| - 1], events[|events| - 1];
      var (s, o) := Run(env, start, front);
      NothingLostOrReordered(env, start, front);
      RunningWhileLive(env, start, front);
      if o == Running {
        match e {
          case Msg(now, body) => BulkGiven(env, s, Some(body), now);
          case Tick(now, healthy) => BulkGiven(env, s, None, now);
          case Closed(now) => FlushKeepsGiven(env, s, Shutdown, now);
        }
      }
    }
  }

  function SumBytes(reports: seq<Report>): nat {
    if reports == [] then 0 else SumBytes(reports[..|reports| - 1]) + reports[|reports| - 1].bytes
  }

  function SumMsgs(reports: seq<Report>): nat {
    if reports == [] then 0 else SumMsgs(reports[..|reports| - 1]) + reports[|reports| - 1].msgs
  }

  lemma {:induction false} BodyAppend(a: seq<Entry>, b: seq<Entry>)
    ensures Body(a + b) == Body(a) + Body(b)
    decreases |b|
  {
    if b == [] {
      assert a + b == a && Body(b) == [];
      assert Body(a) + [] == Body(a);
    } else {
      var front, e := b[..|b| - 1], b[|b| - 1];
      BodyAppend(a, front);
      BodySnoc(a + front, e);
      BodySnoc(front, e);
      assert b == front + [e] && a + b == a + front + [e];
      Assoc(Body(a), Body(front), e.body);
    }
  }

  /** The flush metrics add up to the messages and bytes flushed. */
  lemma {:induction false} MetricsAddUp(flushes: seq<Flush>)
    ensures SumMsgs(Reports(flushes)) == |Flatten(Batches(flushes))|
    ensures SumBytes(Reports(flushes)) == |Body(Flatten(Batches(flushes)))|
  {
    if flushes != [] {
      var n := |flushes| - 1;
      MetricsAddUp(flushes[..n]);
      assert Reports(flushes)[..n] == Reports(flushes[..n]);
      assert Batches(flushes)[..n] == Batches(flushes[..n]);
      BodyAppend(Flatten(Batches(flushes[..n])), flushes[n].batch);
    }
  }

  /** After a clean shutdown the metrics count every message and byte received, once. */
  lemma ShutdownMetrics(env: Env, start: int, events: seq<Event>)
    requires Run(env, start, events).1 == Stopped
    ensures var reports := Reports(Run(env, start, events).0.flushes);
            SumMsgs(reports) == |Received(events)| && SumBytes(reports) == |Body(Received(events))|
  {
    NothingLostOrReordered(env, start, events);
    StoppedIsEmpty(env, start, events);
    var s := Run(env, start, events).0;
    MetricsAddUp(s.flushes);
    assert Given(s) == Flatten(Batches(s.flushes));
  }

  lemma {:induction false} StoppedIsEmpty(env: Env, start: int, events: seq<Event>)
    requires Run(env, start, events).1 == Stopped
    ensures Run(env, start, events).0.pending == []
  {
    var front := events[..|events| - 1];
    if Run(env, start, front).1 != Running {
      StoppedIsEmpty(env, start, front);
    }
  }

  // ------------------------------------------------------------ size bounds

  /** At most msgLimit messages, and within the byte limit unless it is a single message. A
      limit below one never matches the count, so it does not bound it. */
  predicate WithinLimits(cfg: Config, batch: seq<Entry>) {
    && (cfg.msgLimit >= 1 ==> |batch| <= cfg.msgLimit)
    && (|Body(batch)| <= cfg.bytesLimit || |batch| <= 1)
  }

  predicate Bounded(cfg: Config, s: State) {
    && (forall f :: f in s.flushes ==> WithinLimits(cfg, f.batch))
    && WithinLimits(cfg, s.pending)
    && (cfg.msgLimit >= 1 ==> |s.pending| < cfg.msgLimit)
  }

  lemma FlushBounded(env: Env, s: State, reason: Reason, now: int)
    requires WithinLimits(env.cfg, s.pending) && forall f :: f in s.flushes ==> WithinLimits(env.cfg, f.batch)
    ensures Bounded(env.cfg, DoFlush(env, s, reason, now))
  {
  }

  lemma MessageBounded(env: Env, s: State, m: seq<byte>, now: int)
    requires Bounded(env.cfg, s)
    ensures Bounded(env.cfg, CountCheck(env, Append(BytesCheck(env, s, m, now), m, now), now))
  {
    FlushBounded(env, s, BytesLimit, now);
    var checked := BytesCheck(env, s, m, now);
    BodySnoc(checked.pending, Entry(m, now));
    var added := Append(checked, m, now);
    if env.cfg.msgLimit == |added.pending| {
      FlushBounded(env, added, MsgLimit, now);
    }
  }

  lemma BulkBounded(env: Env, s: State, msg: Option<seq<byte>>, now: int)
    requires Bounded(env.cfg, s)
    ensures Bounded(env.cfg, Bulk(env, s, msg, now))
  {
    FlushBounded(env, s, TimeLimit, now);
    if msg.Some? {
      MessageBounded(env, TimeCheck(env, s, now), msg.value, now);
    }
  }

  /** Between calls the count stays below msgLimit, and the buffer and every flushed body are
      within the byte limit or hold a single message. */
  lemma {:induction false} BatchesBounded(env: Env, start: int, events: seq<Event>)
    ensures Bounded(env.cfg, Run(env, start, events).0)
  {
    if events != [] {
      var front, e := events[..|events| - 1], events[|events| - 1];
      var (s, o) := Run(env, start, front);
      BatchesBounded(env, start, front);
      if o == Running {
        match e {
          case Msg(now, body) => BulkBounded(env, s, Some(body), now);
          case Tick(now, healthy) => BulkBounded(env, s, None, now);
          case Closed(now) =>
        }
      }
    }
  }

  /** With the configured cap no multi-message bulk body exceeds 90 MiB. */
  lemma BulkBodiesCapped(env: Env, start: int, events: seq<Event>, maxBytes: int, f: Flush)
    requires env.cfg.bytesLimit == CappedBytes(maxBytes)
    requires f in Run(env, start, events).0.flushes && |f.batch| > 1
    ensures |Body(f.batch)| <= maxBytes && |Body(f.batch)| <= 94371840
  {
    BatchesBounded(env, start, events);
  }

  // ------------------------------------------------------------- optimality

  /** A batch some cut may use: not empty and within the limits. */
  predicate Feasible(cfg: Config, part: seq<Entry>) {
    |part| >= 1 && WithinLimits(cfg, part)
  }

  predicate AllFeasible(cfg: Config, parts: seq<seq<Entry>>) {
    forall p :: p in parts ==> Feasible(cfg, p)
  }

  /** No batch could have taken the first message of the next one, unless a time flush cut it
      short. */
  predicate Greedy(cfg: Config, fs: seq<Flush>) {
    forall i :: 0 <= i < |fs| - 1 && |fs[i + 1].batch| >= 1 ==>
      fs[i].reason == TimeLimit || Blocked(cfg, fs[i].batch, fs[i + 1].batch[0])
  }

  predicate Blocked(cfg: Config, part: seq<Entry>, next: Entry) {
    !Feasible(cfg, part + [next])
  }

  lemma {:induction false} FlattenCons<T>(parts: seq<seq<T>>)
    requires parts != []
    ensures Flatten(parts) == parts[0] + Flatten(parts[1..])
  {
    if |parts| == 1 {
      assert parts == [] + [parts[0]];
      FlattenSnoc([], parts[0]);
    } else {
      var n := |parts| - 1;
      var front, middle := Flatten(parts[..n]), Flatten(parts[1..][..n - 1]);
      FlattenCons(parts[..n]);
      assert parts[1..][..n - 1] == parts[..n][1..];
      assert front == parts[0] + middle;
      assert Flatten(parts[1..]) == middle + parts[n];
      Assoc(parts[0], middle, parts[n]);
    }
  }

  lemma {:induction false} FlattenAppend<T>(a: seq<seq<T>>, b: seq<seq<T>>)
    ensures Flatten(a + b) == Flatten(a) + Flatten(b)
    decreases |b|
  {
    if b == [] {
      assert a + b == a;
    } else {
      var front, last := b[..|b| - 1], b[|b| - 1];
      assert b == front + [last] && a + b == a + front + [last];
      FlattenAppend(a, front);
      FlattenSnoc(front, last);
      FlattenSnoc(a + front, last);
      Assoc(Flatten(a), Flatten(front), last);
    }
  }

  /** Any stretch of a feasible batch is feasible. */
  lemma StretchFeasible(cfg: Config, a: seq<Entry>, mid: seq<Entry>, b: seq<Entry>)
    requires Feasible(cfg, a + mid + b) && |mid| >= 1
    ensures Feasible(cfg, mid)
  {
    BodyAppend(a + mid, b);
    BodyAppend(a, mid);
  }

  function TimeFlushes(fs: seq<Flush>): nat {
    if fs == [] then 0 else (if fs[0].reason == TimeLimit then 1 else 0) + TimeFlushes(fs[1..])
  }

  /** Greedy stays ahead: if greedy batches cover only a final stretch of what a feasible cut
      covers, they are no more than the cut's, plus one for each time flush before the last. */
  lemma {:induction false} GreedyStaysAhead(cfg: Config, fs: seq<Flush>, cut: seq<seq<Entry>>, x: seq<Entry>)
    requires AllFeasible(cfg, Batches(fs)) && Greedy(cfg, fs) && AllFeasible(cfg, cut)
    requires Flatten(cut) == x + Flatten(Batches(fs))
    ensures fs != [] ==> |fs| <= |cut| + TimeFlushes(fs[..|fs| - 1])
    decreases |fs|
  {
    if fs != [] {
      BatchesCons(fs);
      FlattenCons(Batches(fs));
      TailGreedy(cfg, fs);
      assert Feasible(cfg, fs[0].batch) by { assert Batches(fs)[0] in Batches(fs); }
      if |fs| == 1 {
        assert |Flatten(cut)| > 0;
      } else if fs[0].reason == TimeLimit {
        assert Flatten(cut) == (x + fs[0].batch) + Flatten(Batches(fs[1..]));
        GreedyStaysAhead(cfg, fs[1..], cut, x + fs[0].batch);
        TimeFlushesFront(fs);
      } else {
        var x' := CoverLess(cfg, fs, cut, x);
        GreedyStaysAhead(cfg, fs[1..], cut[1..], x');
        TimeFlushesFront(fs);
      }
    }
  }

  lemma TimeFlushesFront(fs: seq<Flush>)
    requires |fs| >= 2
    ensures TimeFlushes(fs[..|fs| - 1]) ==
            (if fs[0].reason == TimeLimit then 1 else 0) + TimeFlushes(fs[1..][..|fs| - 2])
  {
    assert fs[..|fs| - 1][1..] == fs[1..][..|fs| - 2];
  }

  lemma BatchesCons(fs: seq<Flush>)
    requires fs != []
    ensures Batches(fs)[1..] == Batches(fs[1..]) && Batches(fs)[0] == fs[0].batch
    ensures forall p :: p in Batches(fs[1..]) ==> p in Batches(fs)
  {
  }

  /** Without the first batch on either side, the cut still covers what the greedy batches do. */
  lemma CoverLess(cfg: Config, fs: seq<Flush>, cut: seq<seq<Entry>>, x: seq<Entry>) returns (x': seq<Entry>)
    requires |fs| >= 2 && AllFeasible(cfg, Batches(fs)) && Greedy(cfg, fs) && AllFeasible(cfg, cut)
    requires fs[0].reason != TimeLimit && Flatten(cut) == x + Flatten(Batches(fs))
    ensures cut != [] && Flatten(cut[1..]) == x' + Flatten(Batches(fs[1..]))
  {
    BatchesCons(fs);
    FlattenCons(Batches(fs));
    assert Feasible(cfg, fs[0].batch) by { assert Batches(fs)[0] in Batches(fs); }
    FlattenCons(cut);
    var p, cutRest, rest := cut[0], Flatten(cut[1..]), Flatten(Batches(fs[1..]));
    NoOverlap(cfg, fs, p, cutRest, x);
    var n := |cutRest| - |rest|;
    assert cutRest == (p + cutRest)[|p|..];
    assert cutRest[n..] == (x + Flatten(Batches(fs)))[|p| + n..] == rest;
    x' := cutRest[..n];
    assert cutRest == x' + rest;
  }

  lemma TailGreedy(cfg: Config, fs: seq<Flush>)
    requires fs != [] && Greedy(cfg, fs)
    ensures Greedy(cfg, fs[1..])
  {
    forall i | 0 <= i < |fs[1..]| - 1 && |fs[1..][i + 1].batch| >= 1
      ensures fs[1..][i].reason == TimeLimit || Blocked(cfg, fs[1..][i].batch, fs[1..][i + 1].batch[0])
    {
      assert fs[1..][i] == fs[i + 1] && fs[1..][i + 1] == fs[i + 1 + 1];
    }
  }

  /** The other cut's first batch p does not reach past the first greedy batch. */
  lemma NoOverlap(cfg: Config, fs: seq<Flush>, p: seq<Entry>, cutRest: seq<Entry>, x: seq<Entry>)
    requires |fs| >= 2 && AllFeasible(cfg, Batches(fs)) && Greedy(cfg, fs) && Feasible(cfg, p)
    requires fs[0].reason != TimeLimit
    requires p + cutRest == x + (fs[0].batch + Flatten(Batches(fs[1..])))
    ensures |Flatten(Batches(fs[1..]))| <= |cutRest|
  {
    var g, rest := fs[0].batch, Flatten(Batches(fs[1..]));
    if |cutRest| < |rest| {
      BatchesCons(fs[1..]);
      FlattenCons(Batches(fs[1..]));
      assert Batches(fs)[1] in Batches(fs);
      assert rest[0] == fs[1].batch[0];
      assert Blocked(cfg, g, fs[0 + 1].batch[0]);
      ReachesPast(cfg, p, cutRest, x, g, rest);
    }
  }

  /** A feasible batch that reaches past g contains g and the entry after it. */
  lemma ReachesPast(cfg: Config, p: seq<Entry>, cutRest: seq<Entry>, x: seq<Entry>, g: seq<Entry>, rest: seq<Entry>)
    requires p + cutRest == x + (g + rest) && |cutRest| < |rest| && Feasible(cfg, p)
    ensures Feasible(cfg, g + [rest[0]])
  {
    var n := |x| + |g|;
    assert p[..n] == (p + cutRest)[..n] == x + g;
    assert p[n] == (p + cutRest)[n] == rest[0];
    assert p == x + (g + [p[n]]) + p[n + 1..];
    StretchFeasible(cfg, x, g + [p[n]], p[n + 1..]);
  }

  /** The flushes that sent something. */
  function NonEmpty(flushes: seq<Flush>): seq<Flush> {
    if flushes == [] then [] else
    var f := flushes[|flushes| - 1];
    NonEmpty(flushes[..|flushes| - 1]) + if f.batch == [] then [] else [f]
  }

  lemma NonEmptySnoc(flushes: seq<Flush>, f: Flush)
    ensures NonEmpty(flushes + [f]) == NonEmpty(flushes) + if f.batch == [] then [] else [f]
  {
    assert (flushes + [f])[..|flushes|] == flushes;
  }

  lemma {:induction false} NonEmptyFlattens(flushes: seq<Flush>)
    ensures Flatten(Batches(NonEmpty(flushes))) == Flatten(Batches(flushes))
  {
    if flushes != [] {
      var n := |flushes| - 1;
      var f := flushes[n];
      var front := NonEmpty(flushes[..n]);
      NonEmptyFlattens(flushes[..n]);
      assert Batches(flushes)[..n] == Batches(flushes[..n]);
      if f.batch != [] {
        assert Batches(front + [f]) == Batches(front) + [f.batch];
        FlattenSnoc(Batches(front), f.batch);
      } else {
        assert NonEmpty(flushes) == front;
        assert Flatten(Batches(flushes[..n])) + f.batch == Flatten(Batches(flushes[..n]));
      }
    }
  }

  /** The next batch may start with e: the last one was cut by time or could not have taken e. */
  predicate ClosedBefore(cfg: Config, fs: seq<Flush>, e: Entry) {
    && AllFeasible(cfg, Batches(fs)) && Greedy(cfg, fs)
    && (fs != [] ==> fs[|fs| - 1].reason == TimeLimit || Blocked(cfg, fs[|fs| - 1].batch, e))
  }

  /** Between calls: the flushed batches are greedy, and no message could have extended the last
      of them, or it was cut by time, or the buffered messages continue them. */
  predicate GreedySoFar(cfg: Config, s: State) {
    var fs := NonEmpty(s.flushes);
    && (cfg.msgLimit >= 1 ==> |s.pending| < cfg.msgLimit)
    && AllFeasible(cfg, Batches(fs)) && Greedy(cfg, fs)
    && (s.pending != [] ==> Feasible(cfg, s.pending) && ClosedBefore(cfg, fs, s.pending[0]))
    && (s.pending == [] && fs != [] ==>
          fs[|fs| - 1].reason == TimeLimit || (cfg.msgLimit >= 1 && |fs[|fs| - 1].batch| == cfg.msgLimit))
  }

  lemma GreedyExtends(cfg: Config, fs: seq<Flush>, f: Flush)
    requires Feasible(cfg, f.batch) && ClosedBefore(cfg, fs, f.batch[0])
    ensures AllFeasible(cfg, Batches(fs + [f])) && Greedy(cfg, fs + [f])
  {
    assert Batches(fs + [f]) == Batches(fs) + [f.batch];
  }

  lemma TimeCheckGreedy(env: Env, s: State, now: int)
    requires GreedySoFar(env.cfg, s)
    ensures GreedySoFar(env.cfg, TimeCheck(env, s, now))
  {
    if TimeCheck(env, s, now) != s {
      var f := Flush(TimeLimit, s.pending, now);
      NonEmptySnoc(s.flushes, f);
      GreedyExtends(env.cfg, NonEmpty(s.flushes), f);
    }
  }

  /** The byte test: afterwards the message fits the buffer, or starts a new one that the
      flushed batches are closed before. */
  lemma BytesCheckGreedy(env: Env, s: State, m: seq<byte>, now: int)
    requires GreedySoFar(env.cfg, s)
    ensures var c := BytesCheck(env, s, m, now);
            && (env.cfg.msgLimit >= 1 ==> |c.pending| < env.cfg.msgLimit)
            && Feasible(env.cfg, c.pending + [Entry(m, now)])
            && ClosedBefore(env.cfg, NonEmpty(c.flushes), (c.pending + [Entry(m, now)])[0])
  {
    var cfg, e := env.cfg, Entry(m, now);
    if OverBytes(cfg, |Body(s.pending)|, |m|) {
      assert [] + [e] == [e];
      BodySnoc([], e);
      BytesFlushGreedy(cfg, s, e, Flush(BytesLimit, s.pending, now));
    } else {
      BytesFitGreedy(cfg, s, e);
    }
  }

  lemma BytesFitGreedy(cfg: Config, s: State, e: Entry)
    requires GreedySoFar(cfg, s) && !OverBytes(cfg, |Body(s.pending)|, |e.body|)
    ensures Feasible(cfg, s.pending + [e]) && ClosedBefore(cfg, NonEmpty(s.flushes), (s.pending + [e])[0])
  {
    BodySnoc(s.pending, e);
    if s.pending == [] {
      assert s.pending + [e] == [e];
    }
  }

  lemma BytesFlushGreedy(cfg: Config, s: State, e: Entry, f: Flush)
    requires GreedySoFar(cfg, s) && OverBytes(cfg, |Body(s.pending)|, |e.body|) && f.batch == s.pending
    ensures ClosedBefore(cfg, NonEmpty(s.flushes + [f]), e)
  {
    NonEmptySnoc(s.flushes, f);
    if s.pending != [] {
      GreedyExtends(cfg, NonEmpty(s.flushes), f);
      BodySnoc(s.pending, e);
      assert Blocked(cfg, s.pending, e);
    } else {
      assert NonEmpty(s.flushes + [f]) == NonEmpty(s.flushes);
    }
  }

  lemma MsgGreedy(env: Env, s: State, m: seq<byte>, now: int)
    requires GreedySoFar(env.cfg, s)
    ensures var added := Append(BytesCheck(env, s, m, now), m, now);
            GreedySoFar(env.cfg, CountCheck(env, added, now))
  {
    BytesCheckGreedy(env, s, m, now);
    var added := Append(BytesCheck(env, s, m, now), m, now);
    if env.cfg.msgLimit == |added.pending| {
      var f := Flush(MsgLimit, added.pending, now);
      NonEmptySnoc(added.flushes, f);
      GreedyExtends(env.cfg, NonEmpty(added.flushes), f);
    }
  }

  lemma CloseGreedy(env: Env, s: State, now: int)
    requires GreedySoFar(env.cfg, s)
    ensures var fs := NonEmpty(s.flushes + [Flush(Shutdown, s.pending, now)]);
            AllFeasible(env.cfg, Batches(fs)) && Greedy(env.cfg, fs)
  {
    var f := Flush(Shutdown, s.pending, now);
    NonEmptySnoc(s.flushes, f);
    if s.pending != [] {
      GreedyExtends(env.cfg, NonEmpty(s.flushes), f);
    } else {
      assert NonEmpty(s.flushes + [f]) == NonEmpty(s.flushes);
    }
  }

  predicate GreedyLog(cfg: Config, flushes: seq<Flush>) {
    AllFeasible(cfg, Batches(NonEmpty(flushes))) && Greedy(cfg, NonEmpty(flushes))
  }

  lemma StepGreedy(env: Env, s: State, e: Event)
    requires GreedySoFar(env.cfg, s)
    ensures var (s', o) := Step(env, s, e);
            GreedyLog(env.cfg, s'.flushes) && (o == Running ==> GreedySoFar(env.cfg, s'))
  {
    match e {
      case Msg(now, body) => BulkGreedy(env, s, Some(body), now);
      case Tick(now, healthy) => BulkGreedy(env, s, None, now);
      case Closed(now) => CloseGreedy(env, s, now);
    }
  }

  lemma BulkGreedy(env: Env, s: State, msg: Option<seq<byte>>, now: int)
    requires GreedySoFar(env.cfg, s)
    ensures GreedySoFar(env.cfg, Bulk(env, s, msg, now))
  {
    TimeCheckGreedy(env, s, now);
    if msg.Some? {
      MsgGreedy(env, TimeCheck(env, s, now), msg.value, now);
    }
  }

  /** In every run, each batch that no time flush has cut short could not have taken the first
      message of the next one. */
  lemma {:induction false} RunGreedy(env: Env, start: int, events: seq<Event>)
    ensures var (s, o) := Run(env, start, events);
            GreedyLog(env.cfg, s.flushes) && (o == Running ==> GreedySoFar(env.cfg, s))
  {
    if events != [] {
      var front := events[..|events| - 1];
      RunGreedy(env, start, front);
      if Run(env, start, front).1 == Running {
        StepGreedy(env, Run(env, start, front).0, events[|events| - 1]);
      }
    }
  }

  /** Greedy batching is optimal up to its time flushes: over every run that ends with the final
      flush, no cut of the received messages into feasible batches is shorter by more than the
      number of time flushes before the last batch. */
  lemma GreedyOptimal(env: Env, start: int, events: seq<Event>, cut: seq<seq<Entry>>)
    requires Run(env, start, events).1 == Stopped
    requires AllFeasible(env.cfg, cut) && Flatten(cut) == Received(events)
    ensures var fs := NonEmpty(Run(env, start, events).0.flushes);
            fs != [] ==> |fs| <= |cut| + TimeFlushes(fs[..|fs| - 1])
  {
    var s := Run(env, start, events).0;
    NothingLostOrReordered(env, start, events);
    StoppedIsEmpty(env, start, events);
    NonEmptyFlattens(s.flushes);
    RunGreedy(env, start, events);
    assert Flatten(cut) == [] + Flatten(Batches(NonEmpty(s.flushes)));
    GreedyStaysAhead(env.cfg, NonEmpty(s.flushes), cut, []);
  }

  /** From any flush to the next time flush, or to the end, batching is optimal: no cut of the
      messages of consecutive batches, of which at most the last was cut by time, is shorter. */
  lemma StretchOptimal(env: Env, start: int, events: seq<Event>,
                       before: seq<Flush>, front: seq<Flush>, last: Flush, after: seq<Flush>, cut: seq<seq<Entry>>)
    requires NonEmpty(Run(env, start, events).0.flushes) == before + (front + [last]) + after
    requires forall f :: f in front ==> f.reason != TimeLimit
    requires AllFeasible(env.cfg, cut) && Flatten(cut) == Flatten(Batches(front + [last]))
    ensures |front| + 1 <= |cut|
  {
    RunGreedy(env, start, events);
    MiddleGreedy(env.cfg, before, front + [last], after);
    PartOptimal(env.cfg, front, last, cut);
  }

  lemma PartOptimal(cfg: Config, front: seq<Flush>, last: Flush, cut: seq<seq<Entry>>)
    requires AllFeasible(cfg, Batches(front + [last])) && Greedy(cfg, front + [last])
    requires forall f :: f in front ==> f.reason != TimeLimit
    requires AllFeasible(cfg, cut) && Flatten(cut) == Flatten(Batches(front + [last]))
    ensures |front| + 1 <= |cut|
  {
    var part := front + [last];
    assert Flatten(cut) == [] + Flatten(Batches(part));
    GreedyStaysAhead(cfg, part, cut, []);
    assert part[..|part| - 1] == front;
    NoTimeFlushes(front);
  }

  lemma MiddleGreedy(cfg: Config, before: seq<Flush>, part: seq<Flush>, after: seq<Flush>)
    requires AllFeasible(cfg, Batches(before + part + after)) && Greedy(cfg, before + part + after)
    ensures AllFeasible(cfg, Batches(part)) && Greedy(cfg, part)
  {
    var fs, n := before + part + after, |before|;
    forall p | p in Batches(part) ensures Feasible(cfg, p) {
      var i :| 0 <= i < |part| && Batches(part)[i] == p;
      assert fs[n + i] == part[i] && Batches(fs)[n + i] == p;
    }
    forall i | 0 <= i < |part| - 1 && |part[i + 1].batch| >= 1
      ensures part[i].reason == TimeLimit || Blocked(cfg, part[i].batch, part[i + 1].batch[0])
    {
      assert fs[n + i] == part[i] && fs[(n + i) + 1] == part[i + 1];
    }
  }

  lemma {:induction false} NoTimeFlushes(fs: seq<Flush>)
    requires forall f :: f in fs ==> f.reason != TimeLimit
    ensures TimeFlushes(fs) == 0
  {
    if fs != [] {
      NoTimeFlushes(fs[1..]);
    }
  }

  /** Because the zero time is always long ago, the second message after start-up flushes the
      first: whenever both fit one batch, that is one batch too many, so the bound is reached. */
  lemma StartUpCostsOne(env: Env, start: int, m1: seq<byte>, m2: seq<byte>, t1: int, t2: int, t3: int)
    requires env.cfg.msgLimit != 1 && |m1| + |m2| <= env.cfg.bytesLimit
    ensures var events, cut := [Msg(t1, m1), Msg(t2, m2), Closed(t3)], [[Entry(m1, t1), Entry(m2, t2)]];
            var (s, o) := Run(env, start, events);
            && o == Stopped && AllFeasible(env.cfg, cut) && Flatten(cut) == Received(events)
            && |NonEmpty(s.flushes)| == |cut| + 1 && TimeFlushes(NonEmpty(s.flushes)[..1]) == 1
  {
    StartUpRuns(env, start, m1, m2, t1, t2, t3);
    StartUpFlushes(Flush(TimeLimit, [Entry(m1, t1)], t2), Flush(Shutdown, [Entry(m2, t2)], t3));
    StartUpCut(env.cfg, Entry(m1, t1), Entry(m2, t2));
    StartUpReceived(m1, m2, t1, t2, t3);
  }

  lemma StartUpFlushes(f1: Flush, f2: Flush)
    requires f1.batch != [] && f2.batch != [] && f1.reason == TimeLimit
    ensures NonEmpty([f1, f2]) == [f1, f2] && TimeFlushes([f1, f2][..1]) == 1
  {
    NonEmptySnoc([], f1);
    NonEmptySnoc([f1], f2);
    assert [] + [f1] == [f1] && [f1] + [f2] == [f1, f2];
    assert [f1, f2][..1] == [f1] && [f1][1..] == [];
  }

  lemma StartUpRuns(env: Env, start: int, m1: seq<byte>, m2: seq<byte>, t1: int, t2: int, t3: int)
    requires env.cfg.msgLimit != 1 && |m1| + |m2| <= env.cfg.bytesLimit
    ensures var (s, o) := Run(env, start, [Msg(t1, m1), Msg(t2, m2), Closed(t3)]);
            && o == Stopped
            && s.flushes == [Flush(TimeLimit, [Entry(m1, t1)], t2), Flush(Shutdown, [Entry(m2, t2)], t3)]
  {
    var e1, e2, e3 := Msg(t1, m1), Msg(t2, m2), Closed(t3);
    RunSnoc(env, start, [], e1);
    RunSnoc(env, start, [e1], e2);
    RunSnoc(env, start, [e1, e2], e3);
    assert [] + [e1] == [e1] && [e1] + [e2] == [e1, e2] && [e1, e2] + [e3] == [e1, e2, e3];
    var s0 := Initial(env, start);
    StartUpFirst(env, s0, m1, t1);
    StartUpSecond(env, Bulk(env, s0, Some(m1), t1), m1, m2, t1, t2);
  }

  lemma StartUpFirst(env: Env, s: State, m1: seq<byte>, t1: int)
    requires env.cfg.msgLimit != 1 && |m1| <= env.cfg.bytesLimit && s.pending == []
    ensures Bulk(env, s, Some(m1), t1) == s.(pending := [Entry(m1, t1)])
  {
    assert Body([]) == [];
    assert [] + [Entry(m1, t1)] == [Entry(m1, t1)];
    assert TimeCheck(env, s, t1) == s && BytesCheck(env, s, m1, t1) == s;
  }

  lemma StartUpSecond(env: Env, s: State, m1: seq<byte>, m2: seq<byte>, t1: int, t2: int)
    requires env.cfg.msgLimit != 1 && |m2| <= env.cfg.bytesLimit
    requires s.flushes == [] && s.pending == [Entry(m1, t1)] && s.lastFlush == Never
    ensures var s' := Bulk(env, s, Some(m2), t2);
            s'.flushes == [Flush(TimeLimit, [Entry(m1, t1)], t2)] && s'.pending == [Entry(m2, t2)]
  {
    var t := DoFlush(env, s, TimeLimit, t2);
    assert TimeCheck(env, s, t2) == t;
    assert [] + [Flush(TimeLimit, [Entry(m1, t1)], t2)] == t.flushes;
    assert TimeCheck(env, t, t2) == t;
    StartUpFirst(env, t, m2, t2);
  }

  lemma StartUpCut(cfg: Config, e1: Entry, e2: Entry)
    requires cfg.msgLimit != 1 && |e1.body| + |e2.body| <= cfg.bytesLimit
    ensures Feasible(cfg, [e1, e2]) && Flatten([[e1, e2]]) == [e1, e2]
  {
    BodySnoc([e1], e2);
    BodySnoc([], e1);
    assert [] + [e1] == [e1] && [e1] + [e2] == [e1, e2];
    FlattenSnoc([], [e1, e2]);
    assert [] + [[e1, e2]] == [[e1, e2]];
  }

  lemma StartUpReceived(m1: seq<byte>, m2: seq<byte>, t1: int, t2: int, t3: int)
    ensures Received([Msg(t1, m1), Msg(t2, m2), Closed(t3)]) == [Entry(m1, t1), Entry(m2, t2)]
  {
    var e1, e2, e3 := Msg(t1, m1), Msg(t2, m2), Closed(t3);
    assert [e1, e2, e3][..2] == [e1, e2] && [e1, e2][..1] == [e1] && [e1][..0] == [];
    assert Received([e1]) == [Entry(m1, t1)];
    assert Received([e1, e2]) == [Entry(m1, t1), Entry(m2, t2)];
  }
}
