/** Cuts of a message stream into batches, and exactly which streams are always cut as short as
    possible. */
module Minimality {
  import opened Lines
  import opened Documents
  import opened IndexerSpec
  import opened Batching

  // ------------------------------------------------------- cuts of messages

  /** A batch that a cut of the messages may use: not empty, and within the limits. */
  predicate FeasiblePart(cfg: Config, part: seq<seq<byte>>) {
    && |part| >= 1 && (cfg.msgLimit >= 1 ==> |part| <= cfg.msgLimit)
    && (|Flatten(part)| <= cfg.bytesLimit || |part| <= 1)
  }

  predicate FeasibleCut(cfg: Config, cut: seq<seq<seq<byte>>>) {
    forall p :: p in cut ==> FeasiblePart(cfg, p)
  }

  /** The messages of the entries, in order. */
  function Contents(entries: seq<Entry>): (r: seq<seq<byte>>)
    ensures |r| == |entries|
  {
    seq(|entries|, j requires 0 <= j < |entries| => entries[j].body)
  }

  lemma {:induction false} ContentsBody(entries: seq<Entry>)
    ensures Flatten(Contents(entries)) == Body(entries)
  {
    if entries != [] {
      var n := |entries| - 1;
      ContentsBody(entries[..n]);
      assert Contents(entries)[..n] == Contents(entries[..n]);
    }
  }

  /** A cut of the messages is a cut of the entries that carry them. */
  lemma {:induction false} CutEntries(entries: seq<Entry>, cut: seq<seq<seq<byte>>>) returns (parts: seq<seq<Entry>>)
    requires Contents(entries) == Flatten(cut)
    ensures Flatten(parts) == entries && |parts| == |cut|
    ensures forall j :: 0 <= j < |cut| ==> Contents(parts[j]) == cut[j]
    decreases |cut|
  {
    if cut == [] {
      parts := [];
    } else {
      var front, last := cut[..|cut| - 1], cut[|cut| - 1];
      assert Flatten(cut) == Flatten(front) + last;
      var k := |Flatten(front)|;
      assert Contents(entries[..k]) == Contents(entries)[..k] == Flatten(front);
      assert Contents(entries[k..]) == Contents(entries)[k..] == last;
      var before := CutEntries(entries[..k], front);
      parts := before + [entries[k..]];
      FlattenSnoc(before, entries[k..]);
      assert entries[..k] + entries[k..] == entries;
    }
  }

  lemma CutFeasible(cfg: Config, parts: seq<seq<Entry>>, cut: seq<seq<seq<byte>>>)
    requires FeasibleCut(cfg, cut) && |parts| == |cut|
    requires forall j :: 0 <= j < |cut| ==> Contents(parts[j]) == cut[j]
    ensures AllFeasible(cfg, parts)
  {
    forall p | p in parts ensures Feasible(cfg, p) {
      var j :| 0 <= j < |parts| && parts[j] == p;
      assert cut[j] in cut && Contents(p) == cut[j];
      ContentsBody(p);
    }
  }

  // --------------------------------------- exactly the streams cut minimally

  /** Two messages that one batch can hold. */
  predicate FitTogether(cfg: Config, a: seq<byte>, b: seq<byte>) {
    cfg.msgLimit != 1 && |a| + |b| <= cfg.bytesLimit
  }

  predicate NoneFitTogether(cfg: Config, messages: seq<seq<byte>>) {
    forall k :: 0 <= k < |messages| - 1 ==> !FitTogether(cfg, messages[k], messages[k + 1])
  }

  /** The schedule ends with the final flush, and no feasible cut of its messages has fewer
      batches than were flushed. */
  ghost predicate CutMinimally(env: Env, start: int, events: seq<Event>, messages: seq<seq<byte>>) {
    forall cut :: FeasibleCut(env.cfg, cut) && Flatten(cut) == messages ==>
      |NonEmpty(Run(env, start, events).0.flushes)| <= |cut|
  }

  /** The schedule delivers these messages and ends with the final flush. */
  predicate Delivers(env: Env, start: int, events: seq<Event>, messages: seq<seq<byte>>) {
    Run(env, start, events).1 == Stopped && Contents(Received(events)) == messages
  }

  ghost predicate AlwaysMinimal(env: Env, messages: seq<seq<byte>>) {
    forall start, events :: Delivers(env, start, events, messages) ==> CutMinimally(env, start, events, messages)
  }

  /** Every schedule of a message stream is batched minimally exactly when no two consecutive
      messages fit one batch. */
  lemma MinimalExactly(env: Env, messages: seq<seq<byte>>)
    ensures AlwaysMinimal(env, messages) <==> NoneFitTogether(env.cfg, messages)
  {
    if NoneFitTogether(env.cfg, messages) {
      forall start, events | Delivers(env, start, events, messages)
        ensures CutMinimally(env, start, events, messages)
      {
        SinglesAreMinimal(env, start, events, messages);
      }
    } else {
      var k: nat :| k < |messages| - 1 && FitTogether(env.cfg, messages[k], messages[k + 1]);
      var events := Spaced(env, messages);
      MergedIsShorter(env, messages, k, events);
    }
  }

  // Without a fitting pair, every batch of every cut is a single message.

  lemma {:induction false} SinglesOnly(cfg: Config, cut: seq<seq<seq<byte>>>)
    requires FeasibleCut(cfg, cut) && NoneFitTogether(cfg, Flatten(cut))
    ensures |Flatten(cut)| <= |cut|
    decreases |cut|
  {
    if cut != [] {
      var front, last := cut[..|cut| - 1], cut[|cut| - 1];
      var all := Flatten(cut);
      assert all == Flatten(front) + last && FeasiblePart(cfg, last);
      forall k | 0 <= k < |Flatten(front)| - 1 ensures !FitTogether(cfg, Flatten(front)[k], Flatten(front)[k + 1]) {
        assert all[k] == Flatten(front)[k] && all[k + 1] == Flatten(front)[k + 1];
      }
      SinglesOnly(cfg, front);
      if |last| >= 2 {
        var k := |Flatten(front)|;
        assert all[k] == last[0] && all[k + 1] == last[1];
        FirstTwo(last);
        assert FitTogether(cfg, all[k], all[k + 1]);
      }
    }
  }

  lemma FirstTwo(part: seq<seq<byte>>)
    requires |part| >= 2
    ensures |part[0]| + |part[1]| <= |Flatten(part)|
  {
    FlattenCons(part);
    FlattenCons(part[1..]);
  }

  lemma {:induction false} NonEmptyCounts(flushes: seq<Flush>)
    ensures |NonEmpty(flushes)| <= |Flatten(Batches(flushes))|
  {
    if flushes != [] {
      var n := |flushes| - 1;
      NonEmptyCounts(flushes[..n]);
      assert Batches(flushes)[..n] == Batches(flushes[..n]);
    }
  }

  lemma SinglesAreMinimal(env: Env, start: int, events: seq<Event>, messages: seq<seq<byte>>)
    requires Delivers(env, start, events, messages) && NoneFitTogether(env.cfg, messages)
    ensures CutMinimally(env, start, events, messages)
  {
    var s := Run(env, start, events).0;
    NothingLostOrReordered(env, start, events);
    StoppedIsEmpty(env, start, events);
    NonEmptyCounts(s.flushes);
    assert Given(s) == Flatten(Batches(s.flushes));
    forall cut | FeasibleCut(env.cfg, cut) && Flatten(cut) == messages ensures |NonEmpty(s.flushes)| <= |cut| {
      SinglesOnly(env.cfg, cut);
    }
  }

  // With one, sending the messages far apart gives each its own batch.

  /** More than the flush interval. */
  function Gap(env: Env): int {
    if env.cfg.interval < 0 then 1 else env.cfg.interval + 1
  }

  /** After n messages, Gap apart: each has been flushed alone but the last, which is buffered. */
  predicate Separate(env: Env, s: State, n: nat) {
    && |NonEmpty(s.flushes)| + |s.pending| == n && |s.pending| == (if n == 0 then 0 else 1)
    && (s.lastFlush.At? ==> s.lastFlush.ns <= (n - 1) * Gap(env))
  }

  lemma NextSeparate(env: Env, s: State, n: nat, m: seq<byte>)
    requires env.cfg.msgLimit != 1 && Separate(env, s, n)
    ensures Separate(env, Bulk(env, s, Some(m), n * Gap(env)), n + 1)
  {
    var now := n * Gap(env);
    assert (n - 1) * Gap(env) == now - Gap(env);
    assert n >= 1 ==> TimeUp(env.cfg, s.lastFlush, now);
    TimeSeparate(env, s, n, now);
    BuffersAlone(env, TimeCheck(env, s, now), m, now);
  }

  /** A message that finds the buffer empty ends up alone in it. */
  lemma BuffersAlone(env: Env, s: State, m: seq<byte>, now: int)
    requires env.cfg.msgLimit != 1 && s.pending == []
    ensures var s' := CountCheck(env, Append(BytesCheck(env, s, m, now), m, now), now);
            && NonEmpty(s'.flushes) == NonEmpty(s.flushes) && |s'.pending| == 1
            && (s'.lastFlush == s.lastFlush || s'.lastFlush == At(now))
  {
    EmptyFlush(s, BytesLimit, now);
    var c := BytesCheck(env, s, m, now);
    assert Append(c, m, now).pending == [Entry(m, now)];
  }

  lemma TimeSeparate(env: Env, s: State, n: nat, now: int)
    requires Separate(env, s, n) && (n >= 1 ==> TimeUp(env.cfg, s.lastFlush, now))
    ensures var t := TimeCheck(env, s, now);
            t.pending == [] && |NonEmpty(t.flushes)| == n && (t.lastFlush == s.lastFlush || t.lastFlush == At(now))
  {
    NonEmptySnoc(s.flushes, Flush(TimeLimit, s.pending, now));
  }

  lemma EmptyFlush(s: State, reason: Reason, now: int)
    requires s.pending == []
    ensures NonEmpty(s.flushes + [Flush(reason, s.pending, now)]) == NonEmpty(s.flushes)
  {
    NonEmptySnoc(s.flushes, Flush(reason, s.pending, now));
  }

  /** The messages, Gap apart. */
  lemma {:induction false} SpacedMessages(env: Env, messages: seq<seq<byte>>) returns (events: seq<Event>)
    requires env.cfg.msgLimit != 1
    ensures Live(events) && Contents(Received(events)) == messages
    ensures Run(env, 0, events).1 == Running && Separate(env, Run(env, 0, events).0, |messages|)
    decreases |messages|
  {
    if messages == [] {
      events := [];
    } else {
      var n := |messages| - 1;
      var front := SpacedMessages(env, messages[..n]);
      assert messages == messages[..n] + [messages[n]];
      events := OneMore(env, front, messages[..n], messages[n]);
    }
  }

  lemma OneMore(env: Env, front: seq<Event>, messages: seq<seq<byte>>, m: seq<byte>) returns (events: seq<Event>)
    requires env.cfg.msgLimit != 1 && Live(front) && Contents(Received(front)) == messages
    requires Run(env, 0, front).1 == Running && Separate(env, Run(env, 0, front).0, |messages|)
    ensures Live(events) && Contents(Received(events)) == messages + [m]
    ensures Run(env, 0, events).1 == Running && Separate(env, Run(env, 0, events).0, |messages| + 1)
  {
    var now := |messages| * Gap(env);
    var e := Msg(now, m);
    events := front + [e];
    RunSnoc(env, 0, front, e);
    NextSeparate(env, Run(env, 0, front).0, |messages|, m);
    ReceivedSnoc(front, e);
    ContentsSnoc(Received(front), Entry(m, now));
  }

  lemma ReceivedSnoc(front: seq<Event>, e: Event)
    requires Live(front) && e.Msg?
    ensures Received(front + [e]) == Received(front) + [Entry(e.body, e.now)] && Live(front + [e])
  {
    assert (front + [e])[..|front|] == front;
  }

  lemma ContentsSnoc(entries: seq<Entry>, e: Entry)
    ensures Contents(entries + [e]) == Contents(entries) + [e.body]
  {
  }

  lemma Spaced(env: Env, messages: seq<seq<byte>>) returns (events: seq<Event>)
    requires env.cfg.msgLimit != 1
    ensures Delivers(env, 0, events, messages)
    ensures |NonEmpty(Run(env, 0, events).0.flushes)| == |messages|
  {
    var front := SpacedMessages(env, messages);
    var e := Closed(|messages| * Gap(env));
    events := front + [e];
    RunSnoc(env, 0, front, e);
    assert events[..|front|] == front;
    var s := Run(env, 0, front).0;
    NonEmptySnoc(s.flushes, Flush(Shutdown, s.pending, e.now));
  }

  /** Each message for itself. */
  function Singles(messages: seq<seq<byte>>): (r: seq<seq<seq<byte>>>)
    ensures |r| == |messages|
  {
    seq(|messages|, j requires 0 <= j < |messages| => [messages[j]])
  }

  lemma {:induction false} FlattenSingles(messages: seq<seq<byte>>)
    ensures Flatten(Singles(messages)) == messages
  {
    if messages != [] {
      var n := |messages| - 1;
      FlattenSingles(messages[..n]);
      assert Singles(messages)[..n] == Singles(messages[..n]);
    }
  }

  /** Messages k and k + 1 in one batch, the others for themselves. */
  function Merged(messages: seq<seq<byte>>, k: nat): seq<seq<seq<byte>>>
    requires k < |messages| - 1
  {
    Singles(messages[..k]) + [[messages[k], messages[k + 1]]] + Singles(messages[k + 2..])
  }

  lemma MergedFlattens(messages: seq<seq<byte>>, k: nat)
    requires k < |messages| - 1
    ensures Flatten(Merged(messages, k)) == messages
  {
    var pair := [messages[k], messages[k + 1]];
    var front := Singles(messages[..k]) + [pair];
    FlattenSingles(messages[..k]);
    FlattenSingles(messages[k + 2..]);
    FlattenSnoc(Singles(messages[..k]), pair);
    FlattenAppend(front, Singles(messages[k + 2..]));
    assert messages == messages[..k] + pair + messages[k + 2..];
  }

  lemma MergedFeasible(cfg: Config, messages: seq<seq<byte>>, k: nat)
    requires k < |messages| - 1 && FitTogether(cfg, messages[k], messages[k + 1])
    ensures FeasibleCut(cfg, Merged(messages, k))
  {
    PairBytes(messages[k], messages[k + 1]);
  }

  lemma PairBytes(a: seq<byte>, b: seq<byte>)
    ensures |Flatten([a, b])| == |a| + |b|
  {
    FlattenCons([a, b]);
    FlattenCons([b]);
    assert [a, b][1..] == [b] && [b][1..] == [];
  }

  lemma MergedIsShorter(env: Env, messages: seq<seq<byte>>, k: nat, events: seq<Event>)
    requires k < |messages| - 1 && FitTogether(env.cfg, messages[k], messages[k + 1])
    requires Delivers(env, 0, events, messages) && |NonEmpty(Run(env, 0, events).0.flushes)| == |messages|
    ensures !AlwaysMinimal(env, messages)
  {
    var cut := Merged(messages, k);
    MergedFlattens(messages, k);
    MergedFeasible(env.cfg, messages, k);
    assert |cut| == |messages| - 1;
    assert !CutMinimally(env, 0, events, messages);
  }
}
