/** Why the bulker flushes, what it hands on, and when the error channel is closed: for every
    schedule of the select loop. */
module Reasons {
  import opened Lines
  import opened Documents
  import opened IndexerSpec
  import opened Batching

  // ------------------------------------------------------ the error channel

  /** The error channel is closed exactly when there is one and the loop has returned, by the
      final flush or by an error. */
  lemma {:induction false} ClosedExactly(env: Env, start: int, events: seq<Event>)
    ensures var (s, o) := Run(env, start, events); s.sink.closed <==> env.republish && o != Running
  {
    if events != [] {
      var front := events[..|events| - 1];
      ClosedExactly(env, start, front);
      if Run(env, start, front).1 == Running {
        StepClosed(env, Run(env, start, front).0, events[|events| - 1]);
      }
    }
  }

  lemma StepClosed(env: Env, s: State, e: Event)
    requires !s.sink.closed
    ensures Step(env, s, e).0.sink.closed <==> env.republish && Step(env, s, e).1 != Running
  {
  }

  /** Only with an error channel is anything sent on it, and never an empty buffer. */
  predicate SendsWanted(env: Env, sent: seq<seq<byte>>) {
    forall out :: out in sent ==> env.republish && out != []
  }

  lemma FlushWanted(env: Env, s: State, reason: Reason, now: int)
    requires SendsWanted(env, s.sink.sent)
    ensures SendsWanted(env, DoFlush(env, s, reason, now).sink.sent)
  {
  }

  lemma MessageWanted(env: Env, s: State, m: seq<byte>, now: int)
    requires SendsWanted(env, s.sink.sent)
    ensures SendsWanted(env, CountCheck(env, Append(BytesCheck(env, s, m, now), m, now), now).sink.sent)
  {
    FlushWanted(env, s, BytesLimit, now);
    var a := Append(BytesCheck(env, s, m, now), m, now);
    assert a.sink == BytesCheck(env, s, m, now).sink;
    FlushWanted(env, a, MsgLimit, now);
  }

  lemma BulkWanted(env: Env, s: State, msg: Option<seq<byte>>, now: int)
    requires SendsWanted(env, s.sink.sent)
    ensures SendsWanted(env, Bulk(env, s, msg, now).sink.sent)
  {
    FlushWanted(env, s, TimeLimit, now);
    if msg.Some? {
      MessageWanted(env, TimeCheck(env, s, now), msg.value, now);
    }
  }

  lemma {:induction false} SentIsWanted(env: Env, start: int, events: seq<Event>)
    ensures SendsWanted(env, Run(env, start, events).0.sink.sent)
  {
    if events != [] {
      var front, e := events[..|events| - 1], events[|events| - 1];
      var (s, o) := Run(env, start, front);
      SentIsWanted(env, start, front);
      if o == Running {
        match e {
          case Msg(now, body) => BulkWanted(env, s, Some(body), now);
          case Tick(now, healthy) => BulkWanted(env, s, None, now);
          case Closed(now) => FlushWanted(env, s, Shutdown, now);
        }
      }
    }
  }

  // ------------------------------------------------------- reasons of flushes

  /** The time of the last of these flushes was more than the interval before now, or there was
      none. */
  predicate LongAgo(cfg: Config, flushes: seq<Flush>, now: int) {
    flushes == [] || cfg.interval < now - flushes[|flushes| - 1].at
  }

  /** The message after the first n exceeds the byte limit together with the batch. */
  predicate NextExceeds(cfg: Config, batch: seq<Entry>, received: seq<Entry>, n: nat) {
    n < |received| && cfg.bytesLimit < |Body(batch)| + |received[n].body|
  }

  /** The condition its reason names held when the flush was made; before are the flushes before
      it, received the messages of the run. */
  predicate Justified(cfg: Config, before: seq<Flush>, f: Flush, received: seq<Entry>) {
    match f.reason
    case TimeLimit => f.batch != [] && LongAgo(cfg, before, f.at)
    case BytesLimit => NextExceeds(cfg, f.batch, received, |Flatten(Batches(before))| + |f.batch|)
    case MsgLimit => f.batch != [] && |f.batch| == cfg.msgLimit
    case Shutdown => true
  }

  predicate AllJustified(cfg: Config, flushes: seq<Flush>, received: seq<Entry>) {
    forall k :: 0 <= k < |flushes| ==> Justified(cfg, flushes[..k], flushes[k], received)
  }

  /** lastFlush is the time of the last flush. */
  predicate Timed(s: State) {
    s.lastFlush == if s.flushes == [] then Never else At(s.flushes[|s.flushes| - 1].at)
  }

  predicate NoShutdown(flushes: seq<Flush>) {
    forall f :: f in flushes ==> f.reason != Shutdown
  }

  predicate Sound(cfg: Config, s: State, received: seq<Entry>) {
    AllJustified(cfg, s.flushes, received) && Timed(s) && NoShutdown(s.flushes)
  }

  lemma FlushSound(env: Env, s: State, reason: Reason, now: int, received: seq<Entry>)
    requires AllJustified(env.cfg, s.flushes, received)
    requires Justified(env.cfg, s.flushes, Flush(reason, s.pending, now), received)
    ensures AllJustified(env.cfg, DoFlush(env, s, reason, now).flushes, received)
    ensures Timed(DoFlush(env, s, reason, now))
  {
    var flushes := s.flushes + [Flush(reason, s.pending, now)];
    forall k | 0 <= k < |flushes| ensures Justified(env.cfg, flushes[..k], flushes[k], received) {
      if k < |s.flushes| {
        assert flushes[..k] == s.flushes[..k] && flushes[k] == s.flushes[k];
      } else {
        assert flushes[..k] == s.flushes;
      }
    }
  }

  lemma MoreReceived(cfg: Config, flushes: seq<Flush>, received: seq<Entry>, more: seq<Entry>)
    requires AllJustified(cfg, flushes, received) && received <= more
    ensures AllJustified(cfg, flushes, more)
  {
    forall k | 0 <= k < |flushes| ensures Justified(cfg, flushes[..k], flushes[k], more) {
      assert Justified(cfg, flushes[..k], flushes[k], received);
    }
  }

  lemma TimeSound(env: Env, s: State, now: int, received: seq<Entry>)
    requires Sound(env.cfg, s, received)
    ensures Sound(env.cfg, TimeCheck(env, s, now), received)
  {
    if TimeCheck(env, s, now) != s {
      FlushSound(env, s, TimeLimit, now, received);
    }
  }

  lemma BytesSound(env: Env, s: State, m: seq<byte>, now: int, received: seq<Entry>)
    requires Sound(env.cfg, s, received) && received == Given(s) + [Entry(m, now)]
    ensures Sound(env.cfg, BytesCheck(env, s, m, now), received)
  {
    if OverBytes(env.cfg, |Body(s.pending)|, |m|) {
      FlushSound(env, s, BytesLimit, now, received);
    }
  }

  lemma CountSound(env: Env, s: State, now: int, received: seq<Entry>)
    requires Sound(env.cfg, s, received) && s.pending != []
    ensures Sound(env.cfg, CountCheck(env, s, now), received)
  {
    if env.cfg.msgLimit == |s.pending| {
      FlushSound(env, s, MsgLimit, now, received);
    }
  }

  lemma MessageSound(env: Env, s: State, m: seq<byte>, now: int)
    requires Sound(env.cfg, s, Given(s))
    ensures Sound(env.cfg, Bulk(env, s, Some(m), now), Given(s) + [Entry(m, now)])
  {
    var received := Given(s) + [Entry(m, now)];
    MoreReceived(env.cfg, s.flushes, Given(s), received);
    TimeSound(env, s, now, received);
    BulkGiven(env, s, None, now);
    var t := TimeCheck(env, s, now);
    assert Given(t) == Given(s);
    BytesSound(env, t, m, now, received);
    CountSound(env, Append(BytesCheck(env, t, m, now), m, now), now, received);
  }

  /** A loop that runs has justified all its flushes, none of them by the shutdown; when it has
      returned nil, one more flush by the shutdown follows them; when it has returned an error,
      none does. */
  lemma {:induction false} FlushesJustified(env: Env, start: int, events: seq<Event>)
    ensures var (s, o) := Run(env, start, events);
            && AllJustified(env.cfg, s.flushes, Received(events))
            && (o == Stopped ==>
                  && s.flushes != [] && s.flushes[|s.flushes| - 1].reason == Shutdown
                  && NoShutdown(s.flushes[..|s.flushes| - 1]))
            && (o != Stopped ==> NoShutdown(s.flushes) && Timed(s))
  {
    if events != [] {
      var front, e := events[..|events| - 1], events[|events| - 1];
      var (s, o) := Run(env, start, front);
      FlushesJustified(env, start, front);
      NothingLostOrReordered(env, start, front);
      RunningWhileLive(env, start, front);
      if o == Running {
        match e {
          case Msg(now, body) => MessageSound(env, s, body, now);
          case Tick(now, healthy) => TimeSound(env, s, now, Received(front));
          case Closed(now) => FlushSound(env, s, Shutdown, now, Received(front));
        }
      }
    }
  }

  // ------------------------------------------------------- causes of flushes

  function ReasonsOf(flushes: seq<Flush>): (r: seq<Reason>)
    ensures |r| == |flushes|
  {
    seq(|flushes|, i requires 0 <= i < |flushes| => flushes[i].reason)
  }

  function If(b: bool, reason: Reason): seq<Reason> {
    if b then [reason] else []
  }

  /** Messages are buffered and the last flush was long ago. */
  predicate Due(cfg: Config, s: State, now: int) {
    s.pending != [] && LongAgo(cfg, s.flushes, now)
  }

  /** The flushes an event causes, in order. A message that exceeds the byte limit by itself
      flushes an empty buffer too; the final flush is unconditional. */
  function Causes(cfg: Config, s: State, e: Event): seq<Reason> {
    match e
    case Msg(now, m) =>
      var rest := if Due(cfg, s, now) then [] else s.pending;
      var over := cfg.bytesLimit < |Body(rest)| + |m|;
      var count := if over then 1 else |rest| + 1;
      If(Due(cfg, s, now), TimeLimit) + If(over, BytesLimit) + If(count == cfg.msgLimit, MsgLimit)
    case Tick(now, healthy) => If(healthy && Due(cfg, s, now), TimeLimit)
    case Closed(now) => [Shutdown]
  }

  lemma ReasonsSnoc(flushes: seq<Flush>, f: Flush)
    ensures ReasonsOf(flushes + [f]) == ReasonsOf(flushes) + [f.reason]
  {
  }

  lemma TimeCauses(env: Env, s: State, now: int)
    requires Timed(s)
    ensures ReasonsOf(TimeCheck(env, s, now).flushes) == ReasonsOf(s.flushes) + If(Due(env.cfg, s, now), TimeLimit)
    ensures TimeCheck(env, s, now).pending == if Due(env.cfg, s, now) then [] else s.pending
  {
    if Due(env.cfg, s, now) {
      ReasonsSnoc(s.flushes, Flush(TimeLimit, s.pending, now));
    }
  }

  lemma BytesCauses(env: Env, s: State, m: seq<byte>, now: int)
    ensures var over := env.cfg.bytesLimit < |Body(s.pending)| + |m|;
            && ReasonsOf(BytesCheck(env, s, m, now).flushes) == ReasonsOf(s.flushes) + If(over, BytesLimit)
            && BytesCheck(env, s, m, now).pending == if over then [] else s.pending
  {
    ReasonsSnoc(s.flushes, Flush(BytesLimit, s.pending, now));
  }

  lemma CountCauses(env: Env, s: State, now: int)
    ensures ReasonsOf(CountCheck(env, s, now).flushes) ==
            ReasonsOf(s.flushes) + If(|s.pending| == env.cfg.msgLimit, MsgLimit)
  {
    ReasonsSnoc(s.flushes, Flush(MsgLimit, s.pending, now));
  }

  lemma MessageCauses(env: Env, s: State, m: seq<byte>, now: int)
    requires Timed(s)
    ensures ReasonsOf(Bulk(env, s, Some(m), now).flushes) == ReasonsOf(s.flushes) + Causes(env.cfg, s, Msg(now, m))
  {
    var t := TimeCheck(env, s, now);
    var b := BytesCheck(env, t, m, now);
    TimeCauses(env, s, now);
    BytesCauses(env, t, m, now);
    CountCauses(env, Append(b, m, now), now);
    var due := If(Due(env.cfg, s, now), TimeLimit);
    var over := If(env.cfg.bytesLimit < |Body(t.pending)| + |m|, BytesLimit);
    var full := If(|Append(b, m, now).pending| == env.cfg.msgLimit, MsgLimit);
    assert ReasonsOf(s.flushes) + due + over + full == ReasonsOf(s.flushes) + (due + over + full);
  }

  /** Every event flushes exactly when and for the reasons it has to. */
  lemma EventFlushes(env: Env, start: int, events: seq<Event>, e: Event)
    requires Run(env, start, events).1 == Running
    ensures ReasonsOf(Run(env, start, events + [e]).0.flushes) ==
            ReasonsOf(Run(env, start, events).0.flushes) + Causes(env.cfg, Run(env, start, events).0, e)
  {
    FlushesJustified(env, start, events);
    RunSnoc(env, start, events, e);
    var s := Run(env, start, events).0;
    match e {
      case Msg(now, m) => MessageCauses(env, s, m, now);
      case Tick(now, healthy) =>
        TimeCauses(env, s, now);
        assert ReasonsOf(s.flushes) + [] == ReasonsOf(s.flushes);
      case Closed(now) => ReasonsSnoc(s.flushes, Flush(Shutdown, s.pending, now));
    }
  }

  // ------------------------------------------------------------- the byte cap

  /** The configured byte limit is the greatest one that is neither above the setting nor above
      90 MiB. */
  lemma CapIsGreatest(maxBytes: int, b: int)
    ensures CappedBytes(maxBytes) <= maxBytes && CappedBytes(maxBytes) <= 94371840
    ensures b <= maxBytes && b <= 94371840 ==> b <= CappedBytes(maxBytes)
  {
  }

  /** With the configured cap, a flush for the byte limit is made only when the buffer and the
      message that follows exceed the setting or 90 MiB. */
  lemma CapCausesFlush(env: Env, start: int, events: seq<Event>, maxBytes: int,
                       before: seq<Flush>, f: Flush, after: seq<Flush>)
    requires env.cfg.bytesLimit == CappedBytes(maxBytes)
    requires Run(env, start, events).0.flushes == before + [f] + after && f.reason == BytesLimit
    ensures Exceeds(f, Received(events), |Flatten(Batches(before))| + |f.batch|, maxBytes)
  {
    FlushesJustified(env, start, events);
    OneJustified(env.cfg, before, f, after, Received(events));
    ExceedsCap(env.cfg, before, f, Received(events), maxBytes);
  }

  lemma ExceedsCap(cfg: Config, before: seq<Flush>, f: Flush, received: seq<Entry>, maxBytes: int)
    requires Justified(cfg, before, f, received) && f.reason == BytesLimit && cfg.bytesLimit == CappedBytes(maxBytes)
    ensures Exceeds(f, received, |Flatten(Batches(before))| + |f.batch|, maxBytes)
  {
  }

  /** The batch and the message after the first n exceed the setting or 90 MiB. */
  predicate Exceeds(f: Flush, received: seq<Entry>, n: nat, maxBytes: int) {
    && n < |received|
    && (|Body(f.batch)| + |received[n].body| > maxBytes || |Body(f.batch)| + |received[n].body| > 94371840)
  }

  lemma OneJustified(cfg: Config, before: seq<Flush>, f: Flush, after: seq<Flush>, received: seq<Entry>)
    requires AllJustified(cfg, before + [f] + after, received)
    ensures Justified(cfg, before, f, received)
  {
    var flushes, k := before + [f] + after, |before|;
    assert flushes[..k] == before && flushes[k] == f;
    assert Justified(cfg, flushes[..k], flushes[k], received);
  }

  // ------------------------------------------------------------ bytes of a body

  /** The shortest bulk body there is: two empty objects and a line feed, five bytes. */
  lemma ShortestBody()
    ensures SplitAfter([123, 125, 10, 123, 125]) == [[123, 125, 10], [123, 125]]
    ensures RenderOpen([Doc([123, 125], [123, 125])]) == [123, 125, 10, 123, 125]
    ensures MINIMUM_BUFFER_SIZE == 5
  {
    ShortestSplit([123, 125, 10], [123, 125]);
    ShortestRender([123, 125]);
    assert [123, 125, 10] + [123, 125] == [123, 125, 10, 123, 125];
  }

  lemma ShortestSplit(line: seq<byte>, rest: seq<byte>)
    requires line == [123, 125, 10] && rest == [123, 125]
    ensures SplitAfter(line + rest) == [line, rest]
  {
    LineOfThree(line);
    SplitOfLines([line], rest);
    ConcatOne(line);
    assert [line] + [rest] == [line, rest];
  }

  lemma ShortestRender(braces: seq<byte>)
    requires braces == [123, 125]
    ensures RenderOpen([Doc(braces, braces)]) == braces + [10] + braces
  {
    var d: WfDoc := Doc(braces, braces);
    assert [d][..0] == [];
    assert Render([]) == [] && [] + (braces + [NL]) == braces + [NL];
  }

  lemma LineOfThree(line: seq<byte>)
    requires line == [123, 125, 10]
    ensures AllLines([line])
  {
    assert line[..2] == [123, 125];
    assert IsLine(line);
  }

  lemma ConcatOne(line: seq<byte>)
    ensures Concat([line]) == line
  {
    ConcatSnoc([], line);
    assert [] + [line] == [line] && Concat([]) + line == line;
  }
}
