/** How the indexers of the concurrent pipeline cut the messages they take, in every interleaving,
    in terms of what they did there: the messages taken, and the metrics of each flush. */
module LaneBatching {
  import opened Lines
  import opened Pipeline
  import opened Ownership
  import opened Refinement
  import opened Minimality
  import Stepwise
  import IndexerSpec
  import Batching

  type Report = IndexerSpec.Report

  // ---------------------------------------------------------- flush metrics

  /** The reports of flushes that sent something. */
  function NonEmptyReports(rs: seq<Report>): seq<Report> {
    if rs == [] then [] else
    var r := rs[|rs| - 1];
    NonEmptyReports(rs[..|rs| - 1]) + if r.msgs == 0 then [] else [r]
  }

  function TimeReports(rs: seq<Report>): nat {
    if rs == [] then 0 else (if rs[0].reason == IndexerSpec.TimeLimit then 1 else 0) + TimeReports(rs[1..])
  }

  predicate Untimed(rs: seq<Report>) {
    forall r :: r in rs ==> r.reason != IndexerSpec.TimeLimit
  }

  lemma {:induction false} NonEmptyReported(flushes: seq<IndexerSpec.Flush>)
    ensures IndexerSpec.Reports(Batching.NonEmpty(flushes)) == NonEmptyReports(IndexerSpec.Reports(flushes))
  {
    if flushes != [] {
      var n := |flushes| - 1;
      NonEmptyReported(flushes[..n]);
      assert IndexerSpec.Reports(flushes)[..n] == IndexerSpec.Reports(flushes[..n]);
    }
  }

  lemma {:induction false} TimeReported(flushes: seq<IndexerSpec.Flush>)
    ensures TimeReports(IndexerSpec.Reports(flushes)) == Batching.TimeFlushes(flushes)
  {
    if flushes != [] {
      TimeReported(flushes[1..]);
      assert IndexerSpec.Reports(flushes)[1..] == IndexerSpec.Reports(flushes[1..]);
    }
  }

  // ----------------------------------------------------------- what it cuts

  /** fs are flushes with the metrics rs that cut the messages, carried by taken, greedily, up to
      what is still buffered. */
  ghost predicate Behind(cfg: IndexerSpec.Config, fs: seq<IndexerSpec.Flush>, taken: seq<IndexerSpec.Entry>,
                         messages: seq<seq<byte>>, rs: seq<Report>)
  {
    && Batching.AllFeasible(cfg, Batching.Batches(fs)) && Batching.Greedy(cfg, fs)
    && Batching.Flatten(Batching.Batches(fs)) <= taken && Contents(taken) == messages
    && IndexerSpec.Reports(fs) == rs
  }

  // ------------------------------------------------- every run of the pipeline

  /** The messages indexer i has taken in a run from a. */
  ghost function Messages(c: Setup, a: State, trace: seq<Label>, i: nat): seq<seq<byte>> {
    Stepwise.TakenMessages(Acts(c, a, trace, i))
  }

  /** The metrics of its flushes that sent something. */
  ghost function Flushes(c: Setup, a: State, trace: seq<Label>, i: nat): seq<Report> {
    NonEmptyReports(Stepwise.FlushReports(Acts(c, a, trace, i)))
  }

  lemma RunBehind(env: IndexerSpec.Env, events: seq<IndexerSpec.Event>, messages: seq<seq<byte>>, reports: seq<Report>)
    requires Stepwise.Whole(env, events) && Stepwise.Bodies(events) == messages
    requires IndexerSpec.Reports(IndexerSpec.Run(env, 0, events).0.flushes) == reports
    ensures Behind(env.cfg, Batching.NonEmpty(IndexerSpec.Run(env, 0, events).0.flushes), Batching.Received(events),
                   messages, NonEmptyReports(reports))
  {
    FlushedIsReceived(env, events);
    Batching.RunGreedy(env, 0, events);
    NonEmptyReported(IndexerSpec.Run(env, 0, events).0.flushes);
    if events != [] {
      Batching.RunningWhileLive(env, 0, events[..|events| - 1]);
    }
    ReceivedBodies(events);
  }

  lemma FlushedIsReceived(env: IndexerSpec.Env, events: seq<IndexerSpec.Event>)
    ensures var (s, o) := IndexerSpec.Run(env, 0, events);
            var flushed := Batching.Flatten(Batching.Batches(Batching.NonEmpty(s.flushes)));
            flushed <= Batching.Received(events) && (o == IndexerSpec.Stopped ==> flushed == Batching.Received(events))
  {
    var (s, o) := IndexerSpec.Run(env, 0, events);
    Batching.NothingLostOrReordered(env, 0, events);
    Batching.NonEmptyFlattens(s.flushes);
    if o == IndexerSpec.Stopped {
      Batching.StoppedIsEmpty(env, 0, events);
    }
    assert Batching.Flatten(Batching.Batches(s.flushes)) <= Batching.Given(s);
  }

  lemma {:induction false} ReceivedBodies(events: seq<IndexerSpec.Event>)
    requires events == [] || Batching.Live(events[..|events| - 1])
    ensures Contents(Batching.Received(events)) == Stepwise.Bodies(events)
  {
    if events != [] {
      ReceivedBodies(events[..|events| - 1]);
    }
  }

  /** Indexer i is about to start. */
  ghost predicate Starting(c: Setup, a: State, i: nat) {
    SingleOwner(a) && At(a, i) && ViewOf(a, i) == Stepwise.Start() && c.limits.interval >= 0
  }

  lemma InitStarting(c: Setup, i: nat)
    requires i < c.n && c.limits.interval >= 0
    ensures Starting(c, Init(c), i)
  {
    InitSingleOwner(c);
    StartsThere(c, i);
  }

  /** The flushes of a sequential run behind what indexer i has done. */
  lemma LaneRun(c: Setup, a: State, trace: seq<Label>, s: State, i: nat)
    returns (fs: seq<IndexerSpec.Flush>, taken: seq<IndexerSpec.Entry>)
    requires Trace(c, a, trace, s) && Starting(c, a, i) && At(s, i) && AtRest(s.lanes[i].pc)
    ensures Behind(c.limits, fs, taken, Messages(c, a, trace, i), Flushes(c, a, trace, i))
    ensures s.lanes[i].pc.IDone? ==> Batching.Flatten(Batching.Batches(fs)) == taken
  {
    var events := RunFrom(c, a, trace, s, i);
    fs, taken := RunIs(EnvFor(c, Acts(c, a, trace, i)), events, Acts(c, a, trace, i), s, i);
  }

  lemma RunIs(env: IndexerSpec.Env, events: seq<IndexerSpec.Event>, acts: seq<Stepwise.Act>, s: State, i: nat)
    returns (fs: seq<IndexerSpec.Flush>, taken: seq<IndexerSpec.Entry>)
    requires At(s, i) && IsRun(env, events, acts, s, i)
    ensures Behind(env.cfg, fs, taken, Stepwise.TakenMessages(acts), NonEmptyReports(Stepwise.FlushReports(acts)))
    ensures s.lanes[i].pc.IDone? ==> Batching.Flatten(Batching.Batches(fs)) == taken
  {
    RunBehind(env, events, Stepwise.TakenMessages(acts), Stepwise.FlushReports(acts));
    FlushedIsReceived(env, events);
    fs, taken := Batching.NonEmpty(IndexerSpec.Run(env, 0, events).0.flushes), Batching.Received(events);
  }

  /** In every interleaving, the bulk calls of an indexer that has made its final flush are as few
      as those of any feasible cut of the messages it has taken, up to the time tests that fired
      before the last of them. */
  lemma LaneBatchesOptimally(c: Setup, trace: seq<Label>, s: State, i: nat, cut: seq<seq<seq<byte>>>)
    requires Trace(c, Init(c), trace, s) && i < c.n && c.limits.interval >= 0
    requires At(s, i) && s.lanes[i].pc.IDone?
    requires FeasibleCut(c.limits, cut) && Batching.Flatten(cut) == Messages(c, Init(c), trace, i)
    ensures OptimalUpToTime(Flushes(c, Init(c), trace, i), cut)
  {
    InitStarting(c, i);
    OptimalFrom(c, Init(c), trace, s, i, cut);
  }

  lemma OptimalFrom(c: Setup, a: State, trace: seq<Label>, s: State, i: nat, cut: seq<seq<seq<byte>>>)
    requires Trace(c, a, trace, s) && Starting(c, a, i) && At(s, i) && s.lanes[i].pc.IDone?
    requires FeasibleCut(c.limits, cut) && Batching.Flatten(cut) == Messages(c, a, trace, i)
    ensures OptimalUpToTime(Flushes(c, a, trace, i), cut)
  {
    var fs, taken := LaneRun(c, a, trace, s, i);
    OptimalBehind(c.limits, fs, taken, Messages(c, a, trace, i), Flushes(c, a, trace, i), cut);
  }

  /** A cut has no fewer batches than were flushed, up to the time flushes before the last one. */
  predicate OptimalUpToTime(rs: seq<Report>, cut: seq<seq<seq<byte>>>) {
    rs != [] ==> |rs| <= |cut| + TimeReports(rs[..|rs| - 1])
  }

  lemma OptimalBehind(cfg: IndexerSpec.Config, fs: seq<IndexerSpec.Flush>, taken: seq<IndexerSpec.Entry>,
                      messages: seq<seq<byte>>, rs: seq<Report>, cut: seq<seq<seq<byte>>>)
    requires Behind(cfg, fs, taken, messages, rs) && Batching.Flatten(Batching.Batches(fs)) == taken
    requires FeasibleCut(cfg, cut) && Batching.Flatten(cut) == messages
    ensures OptimalUpToTime(rs, cut)
  {
    var parts := CutEntries(taken, cut);
    CutFeasible(cfg, parts, cut);
    assert Batching.Flatten(parts) == [] + Batching.Flatten(Batching.Batches(fs));
    Batching.GreedyStaysAhead(cfg, fs, parts, []);
    if rs != [] {
      AllButLast(fs, rs);
    }
  }

  lemma AllButLast(fs: seq<IndexerSpec.Flush>, rs: seq<Report>)
    requires rs != [] && IndexerSpec.Reports(fs) == rs
    ensures |fs| == |rs| && TimeReports(rs[..|rs| - 1]) == Batching.TimeFlushes(fs[..|fs| - 1])
  {
    var n := |fs| - 1;
    assert IndexerSpec.Reports(fs[..n]) == rs[..n];
    TimeReported(fs[..n]);
  }

  /** And without allowance for any stretch of them in which no time test fired before the last: at
      any moment, however the indexer goes on. The stretch follows the flushes reported in before,
      which have sent the messages skipped. */
  lemma LaneStretchOptimal(c: Setup, trace: seq<Label>, s: State, i: nat,
                           before: seq<Report>, front: seq<Report>, last: Report, after: seq<Report>,
                           skipped: seq<seq<byte>>, rest: seq<seq<byte>>, cut: seq<seq<seq<byte>>>)
    requires Trace(c, Init(c), trace, s) && i < c.n && c.limits.interval >= 0
    requires At(s, i) && AtRest(s.lanes[i].pc)
    requires Flushes(c, Init(c), trace, i) == before + (front + [last]) + after && Untimed(front)
    requires Messages(c, Init(c), trace, i) == skipped + Batching.Flatten(cut) + rest
    requires |skipped| == Batching.SumMsgs(before) && |Batching.Flatten(cut)| == Batching.SumMsgs(front + [last])
    requires FeasibleCut(c.limits, cut)
    ensures |front| + 1 <= |cut|
  {
    InitStarting(c, i);
    var fs, taken := LaneRun(c, Init(c), trace, s, i);
    StretchBehind(c.limits, fs, taken, before, front, last, after, skipped, rest, cut);
  }

  /** Flushes reported in two parts. */
  lemma SplitReports(fs: seq<IndexerSpec.Flush>, a: seq<Report>, b: seq<Report>)
    returns (fa: seq<IndexerSpec.Flush>, fb: seq<IndexerSpec.Flush>)
    requires IndexerSpec.Reports(fs) == a + b
    ensures fs == fa + fb && IndexerSpec.Reports(fa) == a && IndexerSpec.Reports(fb) == b
  {
    fa, fb := fs[..|a|], fs[|a|..];
    assert IndexerSpec.Reports(fa) == (a + b)[..|a|];
    assert IndexerSpec.Reports(fb) == (a + b)[|a|..];
  }

  lemma JoinFlattens(fa: seq<IndexerSpec.Flush>, fb: seq<IndexerSpec.Flush>)
    ensures Batching.Flatten(Batching.Batches(fa + fb)) ==
            Batching.Flatten(Batching.Batches(fa)) + Batching.Flatten(Batching.Batches(fb))
  {
    Batching.FlattenAppend(Batching.Batches(fa), Batching.Batches(fb));
    assert Batching.Batches(fa + fb) == Batching.Batches(fa) + Batching.Batches(fb);
  }

  lemma StretchBehind(cfg: IndexerSpec.Config, fs: seq<IndexerSpec.Flush>, taken: seq<IndexerSpec.Entry>,
                      before: seq<Report>, front: seq<Report>, last: Report, after: seq<Report>,
                      skipped: seq<seq<byte>>, rest: seq<seq<byte>>, cut: seq<seq<seq<byte>>>)
    requires Behind(cfg, fs, taken, skipped + Batching.Flatten(cut) + rest, before + (front + [last]) + after)
    requires |skipped| == Batching.SumMsgs(before) && |Batching.Flatten(cut)| == Batching.SumMsgs(front + [last])
    requires Untimed(front) && FeasibleCut(cfg, cut)
    ensures |front| + 1 <= |cut|
  {
    var most, fa := SplitReports(fs, before + (front + [last]), after);
    var fb, part := SplitReports(most, before, front + [last]);
    Batching.MiddleGreedy(cfg, fb, part, fa);
    JoinFlattens(most, fa);
    JoinFlattens(fb, part);
    Batching.MetricsAddUp(fb);
    Batching.MetricsAddUp(part);
    var x, y := Batching.Flatten(Batching.Batches(fb)), Batching.Flatten(Batching.Batches(part));
    MiddleContents(taken, x, y, skipped, Batching.Flatten(cut), rest);
    FlushesOptimal(cfg, part, front, last, cut);
  }

  /** Entries and their messages, split at the same places. */
  lemma MiddleContents(taken: seq<IndexerSpec.Entry>, x: seq<IndexerSpec.Entry>, y: seq<IndexerSpec.Entry>,
                       skipped: seq<seq<byte>>, middle: seq<seq<byte>>, rest: seq<seq<byte>>)
    requires x + y <= taken && Contents(taken) == skipped + middle + rest
    requires |x| == |skipped| && |y| == |middle|
    ensures Contents(y) == middle
  {
    forall j | 0 <= j < |y| ensures Contents(y)[j] == middle[j] {
      assert y[j] == (x + y)[|x| + j] == taken[|x| + j];
      assert Contents(taken)[|x| + j] == middle[j];
    }
  }

  lemma FlushesOptimal(cfg: IndexerSpec.Config, part: seq<IndexerSpec.Flush>, front: seq<Report>, last: Report,
                       cut: seq<seq<seq<byte>>>)
    requires Batching.AllFeasible(cfg, Batching.Batches(part)) && Batching.Greedy(cfg, part)
    requires IndexerSpec.Reports(part) == front + [last] && Untimed(front) && FeasibleCut(cfg, cut)
    requires Contents(Batching.Flatten(Batching.Batches(part))) == Batching.Flatten(cut)
    ensures |front| + 1 <= |cut|
  {
    var parts := CutEntries(Batching.Flatten(Batching.Batches(part)), cut);
    CutFeasible(cfg, parts, cut);
    var early, end := SplitReports(part, front, [last]);
    UntimedFlushes(early);
    assert end == [end[0]];
    Batching.PartOptimal(cfg, early, end[0], parts);
  }

  lemma UntimedFlushes(fs: seq<IndexerSpec.Flush>)
    requires Untimed(IndexerSpec.Reports(fs))
    ensures forall f :: f in fs ==> f.reason != IndexerSpec.TimeLimit
  {
    forall f | f in fs ensures f.reason != IndexerSpec.TimeLimit {
      var j :| 0 <= j < |fs| && fs[j] == f;
      assert IndexerSpec.Reports(fs)[j] in IndexerSpec.Reports(fs);
    }
  }

  // ------------------------------------------------------ by the steps taken

  /** A time test that fires, by a message or by a tick. */
  predicate Fires(a: Stepwise.Act) {
    a == Stepwise.TimeTest(true) || a.TickFlush?
  }

  /** A bulk call for at least one message. */
  predicate Sends(a: Stepwise.Act) {
    a.Call? && a.msgs > 0
  }

  /** No time test fires among the first n steps, and at most one batch follows them. */
  predicate FiresLast(acts: seq<Stepwise.Act>, n: nat) {
    && n <= |acts|
    && (forall j :: 0 <= j < n ==> !Fires(acts[j]))
    && (forall j, k :: n <= j < k < |acts| ==> !(Sends(acts[j]) && Sends(acts[k])))
  }

  lemma {:induction false} NotFired(acts: seq<Stepwise.Act>)
    requires forall j :: 0 <= j < |acts| ==> !Fires(acts[j])
    ensures Stepwise.LastReason(acts) != IndexerSpec.TimeLimit && Untimed(Stepwise.FlushReports(acts))
  {
    if acts != [] {
      var front := acts[..|acts| - 1];
      NotFired(front);
      assert !Fires(acts[|acts| - 1]);
    }
  }

  lemma {:induction false} UntimedNonEmpty(rs: seq<Report>)
    requires Untimed(rs)
    ensures Untimed(NonEmptyReports(rs))
  {
    if rs != [] {
      UntimedNonEmpty(rs[..|rs| - 1]);
    }
  }

  lemma NonEmptySnoc(rs: seq<Report>, r: Report)
    ensures NonEmptyReports(rs + [r]) == if r.msgs == 0 then NonEmptyReports(rs) else NonEmptyReports(rs) + [r]
  {
    assert (rs + [r])[..|rs|] == rs;
  }

  lemma ReportsSnoc(acts: seq<Stepwise.Act>)
    requires acts != []
    ensures var front, a := acts[..|acts| - 1], acts[|acts| - 1];
            var rs := NonEmptyReports(Stepwise.FlushReports(acts));
            var before := NonEmptyReports(Stepwise.FlushReports(front));
            if Sends(a) then |rs| == |before| + 1 && rs[..|before|] == before else rs == before
  {
    var front, a := acts[..|acts| - 1], acts[|acts| - 1];
    if a.Call? {
      NonEmptySnoc(Stepwise.FlushReports(front), IndexerSpec.Report(Stepwise.LastReason(front), |a.body|, a.msgs));
    } else {
      assert Stepwise.FlushReports(acts) == Stepwise.FlushReports(front);
    }
  }

  /** All reports but the last are those of the first n steps. */
  lemma {:induction false} OneFollows(acts: seq<Stepwise.Act>, n: nat)
    requires FiresLast(acts, n)
    ensures var rs := NonEmptyReports(Stepwise.FlushReports(acts));
            var early := NonEmptyReports(Stepwise.FlushReports(acts[..n]));
            && early <= rs && |rs| <= |early| + 1
            && ((forall j :: n <= j < |acts| ==> !Sends(acts[j])) ==> rs == early)
    decreases |acts|
  {
    if n == |acts| {
      assert acts[..n] == acts;
    } else {
      var front := acts[..|acts| - 1];
      assert front[..n] == acts[..n];
      OneFollows(front, n);
      ReportsSnoc(acts);
    }
  }

  lemma FiresLastUntimed(acts: seq<Stepwise.Act>, n: nat)
    requires FiresLast(acts, n)
    ensures var rs := NonEmptyReports(Stepwise.FlushReports(acts)); rs != [] ==> Untimed(rs[..|rs| - 1])
  {
    NotFired(acts[..n]);
    UntimedNonEmpty(Stepwise.FlushReports(acts[..n]));
    OneFollows(acts, n);
  }

  lemma {:induction false} NoneTimed(rs: seq<Report>)
    requires Untimed(rs)
    ensures TimeReports(rs) == 0
  {
    if rs != [] {
      NoneTimed(rs[1..]);
    }
  }

  /** In an interleaving in which no time test of the indexer fires before its last batch, no
      feasible cut has fewer batches. */
  lemma UntimedLaneOptimal(c: Setup, trace: seq<Label>, s: State, i: nat, n: nat, cut: seq<seq<seq<byte>>>)
    requires Trace(c, Init(c), trace, s) && i < c.n && c.limits.interval >= 0
    requires At(s, i) && s.lanes[i].pc.IDone? && FiresLast(Acts(c, Init(c), trace, i), n)
    requires FeasibleCut(c.limits, cut) && Batching.Flatten(cut) == Messages(c, Init(c), trace, i)
    ensures |Flushes(c, Init(c), trace, i)| <= |cut|
  {
    InitStarting(c, i);
    UntimedFrom(c, Init(c), trace, s, i, n, cut);
  }

  lemma UntimedFrom(c: Setup, a: State, trace: seq<Label>, s: State, i: nat, n: nat, cut: seq<seq<seq<byte>>>)
    requires Trace(c, a, trace, s) && Starting(c, a, i) && At(s, i) && s.lanes[i].pc.IDone?
    requires FiresLast(Acts(c, a, trace, i), n)
    requires FeasibleCut(c.limits, cut) && Batching.Flatten(cut) == Messages(c, a, trace, i)
    ensures |Flushes(c, a, trace, i)| <= |cut|
  {
    OptimalFrom(c, a, trace, s, i, cut);
    FiresLastUntimed(Acts(c, a, trace, i), n);
    var rs := Flushes(c, a, trace, i);
    if rs != [] {
      NoneTimed(rs[..|rs| - 1]);
    }
  }

  /** And the bodies it has flushed are those of consecutive messages, as many as reported, within
      the limits. */
  lemma LaneCutsMessages(c: Setup, trace: seq<Label>, s: State, i: nat) returns (batches: seq<seq<seq<byte>>>)
    requires Trace(c, Init(c), trace, s) && i < c.n && c.limits.interval >= 0
    requires At(s, i) && s.lanes[i].pc.IDone?
    ensures Batching.Flatten(batches) == Messages(c, Init(c), trace, i)
    ensures var acts := Acts(c, Init(c), trace, i);
            && |batches| == |Stepwise.FlushedBodies(acts)| == |Stepwise.FlushReports(acts)|
            && forall k :: 0 <= k < |batches| ==>
                 && Batching.Flatten(batches[k]) == Stepwise.FlushedBodies(acts)[k]
                 && |batches[k]| == Stepwise.FlushReports(acts)[k].msgs
                 && (batches[k] != [] ==> FeasiblePart(c.limits, batches[k]))
  {
    var events := LaneIsAnIndexer(c, trace, s, i);
    batches := RunCutsMessages(EnvFor(c, Acts(c, Init(c), trace, i)), events, Acts(c, Init(c), trace, i), s, i);
  }

  lemma RunCutsMessages(env: IndexerSpec.Env, events: seq<IndexerSpec.Event>, acts: seq<Stepwise.Act>, s: State, i: nat)
    returns (batches: seq<seq<seq<byte>>>)
    requires At(s, i) && s.lanes[i].pc.IDone? && IsRun(env, events, acts, s, i)
    ensures Batching.Flatten(batches) == Stepwise.TakenMessages(acts)
    ensures |batches| == |Stepwise.FlushedBodies(acts)| == |Stepwise.FlushReports(acts)|
    ensures forall k :: 0 <= k < |batches| ==>
              && Batching.Flatten(batches[k]) == Stepwise.FlushedBodies(acts)[k]
              && |batches[k]| == Stepwise.FlushReports(acts)[k].msgs
              && (batches[k] != [] ==> FeasiblePart(env.cfg, batches[k]))
  {
    var spec := IndexerSpec.Run(env, 0, events).0;
    batches := BatchContents(spec.flushes);
    Batching.NothingLostOrReordered(env, 0, events);
    Batching.StoppedIsEmpty(env, 0, events);
    assert Batching.Given(spec) == Batching.Flatten(Batching.Batches(spec.flushes));
    Batching.RunningWhileLive(env, 0, events[..|events| - 1]);
    ReceivedBodies(events);
    Batching.BatchesBounded(env, 0, events);
    BatchesFeasible(env.cfg, spec.flushes, batches);
    FlattenContents(spec.flushes);
  }

  function BatchContents(flushes: seq<IndexerSpec.Flush>): (r: seq<seq<seq<byte>>>)
    ensures |r| == |flushes| && forall k :: 0 <= k < |r| ==> r[k] == Contents(flushes[k].batch)
  {
    seq(|flushes|, k requires 0 <= k < |flushes| => Contents(flushes[k].batch))
  }

  lemma {:induction false} FlattenContents(flushes: seq<IndexerSpec.Flush>)
    ensures Batching.Flatten(BatchContents(flushes)) == Contents(Batching.Flatten(Batching.Batches(flushes)))
  {
    if flushes != [] {
      var n := |flushes| - 1;
      FlattenContents(flushes[..n]);
      assert BatchContents(flushes)[..n] == BatchContents(flushes[..n]);
      assert Batching.Batches(flushes)[..n] == Batching.Batches(flushes[..n]);
    }
  }

  lemma BatchesFeasible(cfg: IndexerSpec.Config, flushes: seq<IndexerSpec.Flush>, batches: seq<seq<seq<byte>>>)
    requires batches == BatchContents(flushes) && forall f :: f in flushes ==> Batching.WithinLimits(cfg, f.batch)
    ensures forall k :: 0 <= k < |batches| ==>
              && Batching.Flatten(batches[k]) == Stepwise.FlushBodies(flushes)[k]
              && |batches[k]| == IndexerSpec.Reports(flushes)[k].msgs
              && (batches[k] != [] ==> FeasiblePart(cfg, batches[k]))
  {
    forall k | 0 <= k < |batches|
      ensures Batching.Flatten(batches[k]) == Stepwise.FlushBodies(flushes)[k]
      ensures batches[k] != [] ==> FeasiblePart(cfg, batches[k])
    {
      ContentsBody(flushes[k].batch);
      assert flushes[k] in flushes;
    }
  }
}
