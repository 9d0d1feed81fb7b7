/** What reaches errorChan does not depend on how the stream was batched. */
module Rejections {
  import opened Lines
  import opened Documents
  import opened IndexerSpec
  import Batching

  /** The documents Elasticsearch rejects, in order. */
  function Rejected(docs: seq<WfDoc>, bad: WfDoc -> bool): seq<WfDoc> {
    if docs == [] then [] else
    Rejected(docs[..|docs| - 1], bad) + if bad(docs[|docs| - 1]) then [docs[|docs| - 1]] else []
  }

  function Marks(docs: seq<WfDoc>, bad: WfDoc -> bool): seq<bool> {
    seq(|docs|, i requires 0 <= i < |docs| => bad(docs[i]))
  }

  /** Every bulk call succeeds as a whole and judges each document by itself: one single-action
      item per document in request order, and the errors flag set when any is rejected. */
  ghost predicate JudgesEach(answer: (nat, seq<byte>) -> Response, bad: WfDoc -> bool) {
    forall n: nat, docs: seq<WfDoc> {:trigger answer(n, Render(docs))} :: docs != [] ==>
      Judged(answer(n, Render(docs)), docs, bad)
  }

  ghost predicate Judged(r: Response, docs: seq<WfDoc>, bad: WfDoc -> bool) {
    && r.Decoded? && |r.items| == |docs| && SingleAction(r.items)
    && Verdicts(r.items) == Marks(docs, bad)
    && (Rejected(docs, bad) != [] ==> r.hasErrors)
  }

  /** docs[i] are the documents of message i of the schedule. */
  ghost predicate Carries(events: seq<Event>, docs: seq<seq<WfDoc>>) {
    |docs| == |events| && forall i :: 0 <= i < |events| && events[i].Msg? ==> events[i].body == Render(docs[i])
  }

  /** The document stream received before the loop returned. */
  function Stream(events: seq<Event>, docs: seq<seq<WfDoc>>): seq<WfDoc>
    requires |docs| == |events|
  {
    if events == [] then [] else
    var n := |events| - 1;
    if Batching.Live(events[..n]) && events[n].Msg? then Stream(events[..n], docs[..n]) + docs[n]
    else Stream(events[..n], docs[..n])
  }

  lemma {:induction false} RejectedAppend(a: seq<WfDoc>, b: seq<WfDoc>, bad: WfDoc -> bool)
    ensures Rejected(a + b, bad) == Rejected(a, bad) + Rejected(b, bad)
    decreases |b|
  {
    if b == [] {
      assert a + b == a;
    } else {
      var n := |b| - 1;
      assert (a + b)[..|a| + n] == a + b[..n];
      RejectedAppend(a, b[..n], bad);
    }
  }

  lemma {:induction false} MarksFilter(docs: seq<WfDoc>, more: seq<WfDoc>, bad: WfDoc -> bool)
    ensures Filter(docs + more, Marks(docs, bad)) == Rejected(docs, bad)
  {
    if docs != [] {
      var n := |docs| - 1;
      assert docs + more == docs[..n] + ([docs[n]] + more);
      MarksFilter(docs[..n], [docs[n]] + more, bad);
      assert Marks(docs, bad)[..n] == Marks(docs[..n], bad);
    }
  }

  lemma ExtractedIsRejected(env: Env, calls: nat, pd: seq<WfDoc>, bad: WfDoc -> bool)
    requires JudgesEach(env.answer, bad)
    ensures var out := Extracted(env, calls, Render(pd));
            out == None || out == Some(Render(Rejected(pd, bad)))
    ensures Extracted(env, calls, Render(pd)) == None ==> Rejected(pd, bad) == []
  {
    RenderLength(pd);
    if pd != [] {
      var r := env.answer(calls, Render(pd));
      assert Judged(r, pd, bad);
      JudgedBody(r, pd, bad);
    }
  }

  /** What parseESErrors extracts from an honest answer. */
  lemma JudgedBody(r: Response, pd: seq<WfDoc>, bad: WfDoc -> bool)
    requires Judged(r, pd, bad)
    ensures ErrorBody(SplitAfter(Render(pd)), r.items) == Some(Render(Rejected(pd, bad)))
  {
    ParseFilters(pd, r.items);
    FailedIsFilter(pd, r.items);
    MarksFilter(pd, [], bad);
    assert pd + [] == pd;
  }

  /** One flush sends exactly the rejected documents of the buffered ones. */
  lemma FlushRejects(env: Env, s: State, reason: Reason, now: int, pd: seq<WfDoc>, bad: WfDoc -> bool)
    requires env.republish && JudgesEach(env.answer, bad) && Body(s.pending) == Render(pd)
    ensures Concat(DoFlush(env, s, reason, now).sink.sent) == Concat(s.sink.sent) + Render(Rejected(pd, bad))
  {
    ExtractedIsRejected(env, s.sink.calls, pd, bad);
    var out := Extracted(env, s.sink.calls, Render(pd));
    if out.Some? {
      ConcatSnoc(s.sink.sent, out.value);
    }
    RenderLength(Rejected(pd, bad));
  }

  /** s has sent the rejected documents of all, except of those still buffered (pd). */
  predicate Meaning(s: State, all: seq<WfDoc>, pd: seq<WfDoc>, bad: WfDoc -> bool) {
    Body(s.pending) == Render(pd) && Concat(s.sink.sent) + Render(Rejected(pd, bad)) == Render(Rejected(all, bad))
  }

  lemma FlushMeaning(env: Env, s: State, reason: Reason, now: int, all: seq<WfDoc>, pd: seq<WfDoc>, bad: WfDoc -> bool)
    requires env.republish && JudgesEach(env.answer, bad) && Meaning(s, all, pd, bad)
    ensures Meaning(DoFlush(env, s, reason, now), all, [], bad)
  {
    FlushRejects(env, s, reason, now, pd, bad);
    var sent := Concat(DoFlush(env, s, reason, now).sink.sent);
    assert Render([]) == [] && sent + [] == sent;
  }

  lemma AppendMeaning(s: State, docs: seq<WfDoc>, now: int, all: seq<WfDoc>, pd: seq<WfDoc>, bad: WfDoc -> bool)
    requires Meaning(s, all, pd, bad)
    ensures Meaning(Append(s, Render(docs), now), all + docs, pd + docs, bad)
  {
    BodySnoc(s.pending, Entry(Render(docs), now));
    RenderAppend(pd, docs);
    RejectedAppend(pd, docs, bad);
    RejectedAppend(all, docs, bad);
    RenderAppend(Rejected(pd, bad), Rejected(docs, bad));
    RenderAppend(Rejected(all, bad), Rejected(docs, bad));
    Assoc(Concat(s.sink.sent), Render(Rejected(pd, bad)), Render(Rejected(docs, bad)));
  }

  lemma MaybeFlush(env: Env, s: State, reason: Reason, now: int, fires: bool, all: seq<WfDoc>, pd: seq<WfDoc>,
                   bad: WfDoc -> bool)
    returns (pd': seq<WfDoc>)
    requires env.republish && JudgesEach(env.answer, bad) && Meaning(s, all, pd, bad)
    ensures Meaning(if fires then DoFlush(env, s, reason, now) else s, all, pd', bad)
  {
    pd' := if fires then [] else pd;
    FlushMeaning(env, s, reason, now, all, pd, bad);
  }

  lemma MessageMeaning(env: Env, s: State, docs: seq<WfDoc>, now: int, all: seq<WfDoc>, pd: seq<WfDoc>,
                       bad: WfDoc -> bool)
    returns (pd': seq<WfDoc>)
    requires env.republish && JudgesEach(env.answer, bad) && Meaning(s, all, pd, bad)
    ensures var m := Render(docs);
            Meaning(CountCheck(env, Append(BytesCheck(env, s, m, now), m, now), now), all + docs, pd', bad)
  {
    var m := Render(docs);
    var c := BytesCheck(env, s, m, now);
    var pd1 := MaybeFlush(env, s, BytesLimit, now, OverBytes(env.cfg, |Body(s.pending)|, |m|), all, pd, bad);
    AppendMeaning(c, docs, now, all, pd1, bad);
    var a := Append(c, m, now);
    pd' := MaybeFlush(env, a, MsgLimit, now, env.cfg.msgLimit == |a.pending|, all + docs, pd1 + docs, bad);
  }

  lemma StepMeaning(env: Env, s: State, e: Event, docs: seq<WfDoc>, all: seq<WfDoc>, pd: seq<WfDoc>, bad: WfDoc -> bool)
    returns (pd': seq<WfDoc>)
    requires env.republish && JudgesEach(env.answer, bad) && Meaning(s, all, pd, bad)
    requires e.Msg? ==> e.body == Render(docs)
    ensures Meaning(Step(env, s, e).0, if e.Msg? then all + docs else all, pd', bad)
  {
    match e {
      case Msg(now, body) =>
        var fires := TimeUp(env.cfg, s.lastFlush, now) && 0 < |s.pending|;
        var pd1 := MaybeFlush(env, s, TimeLimit, now, fires, all, pd, bad);
        pd' := MessageMeaning(env, TimeCheck(env, s, now), docs, now, all, pd1, bad);
      case Tick(now, healthy) =>
        if healthy {
          pd' := MaybeFlush(env, s, TimeLimit, now, TimeUp(env.cfg, s.lastFlush, now) && 0 < |s.pending|, all, pd, bad);
        } else {
          pd' := pd;
        }
      case Closed(now) =>
        FlushMeaning(env, s, Shutdown, now, all, pd, bad);
        pd' := [];
    }
  }

  lemma {:induction false} RunMeaning(env: Env, start: int, events: seq<Event>, docs: seq<seq<WfDoc>>,
                                      bad: WfDoc -> bool)
    returns (pd: seq<WfDoc>)
    requires env.republish && JudgesEach(env.answer, bad) && Carries(events, docs)
    ensures Meaning(Run(env, start, events).0, Stream(events, docs), pd, bad)
  {
    if events == [] {
      pd := [];
    } else {
      var n := |events| - 1;
      Batching.RunningWhileLive(env, start, events[..n]);
      pd := RunMeaning(env, start, events[..n], docs[..n], bad);
      if Batching.Live(events[..n]) {
        var s, all := Run(env, start, events[..n]).0, Stream(events[..n], docs[..n]);
        pd := StepMeaning(env, s, events[n], docs[n], all, pd, bad);
      }
    }
  }

  /** Batching does not change meaning: whatever the limits, the tick schedule and the grouping
      of documents into messages, the buffers sent on errorChan up to the nil return are, back
      to back, the bulk body of exactly the rejected documents of the stream, in order. */
  lemma BatchingKeepsMeaning(env: Env, start: int, events: seq<Event>, docs: seq<seq<WfDoc>>, bad: WfDoc -> bool)
    requires env.republish && JudgesEach(env.answer, bad) && Carries(events, docs)
    requires Run(env, start, events).1 == Stopped
    ensures Concat(Run(env, start, events).0.sink.sent) == Render(Rejected(Stream(events, docs), bad))
  {
    var pd := RunMeaning(env, start, events, docs, bad);
    Batching.StoppedIsEmpty(env, start, events);
    var s := Run(env, start, events).0;
    RenderLength(pd);
    assert Render([]) == [];
    assert Concat(s.sink.sent) + [] == Concat(s.sink.sent);
  }

  /** Up to any point, what has been sent is a prefix of that. */
  lemma SentIsPrefix(env: Env, start: int, events: seq<Event>, docs: seq<seq<WfDoc>>, bad: WfDoc -> bool)
    requires env.republish && JudgesEach(env.answer, bad) && Carries(events, docs)
    ensures Concat(Run(env, start, events).0.sink.sent) <= Render(Rejected(Stream(events, docs), bad))
  {
    var pd := RunMeaning(env, start, events, docs, bad);
  }

  /** Two indexers with different limits and schedules that read the same document stream
      republish the same bytes. */
  lemma LimitsDoNotMatter(env1: Env, start1: int, events1: seq<Event>, docs1: seq<seq<WfDoc>>,
                          env2: Env, start2: int, events2: seq<Event>, docs2: seq<seq<WfDoc>>, bad: WfDoc -> bool)
    requires env1.republish && JudgesEach(env1.answer, bad) && Carries(events1, docs1)
    requires env2.republish && JudgesEach(env2.answer, bad) && Carries(events2, docs2)
    requires Run(env1, start1, events1).1 == Stopped && Run(env2, start2, events2).1 == Stopped
    requires Stream(events1, docs1) == Stream(events2, docs2)
    ensures Concat(Run(env1, start1, events1).0.sink.sent) == Concat(Run(env2, start2, events2).0.sink.sent)
  {
    BatchingKeepsMeaning(env1, start1, events1, docs1, bad);
    BatchingKeepsMeaning(env2, start2, events2, docs2, bad);
  }
}
