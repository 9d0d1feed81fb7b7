/** What failures of indexers and of the producer leave behind: exactly when the pipeline stops
    short of its end, and that it can. */
module Failures {
  import opened Documents
  import opened Pipeline
  import opened Discipline
  import opened Shutdown
  import IndexerSpec

  // ------------------------------------------------ exactly when it is stuck

  /** The consumer has stopped, or waits to send on a full channel. */
  predicate ConsumerHalted(c: Setup, s: State) {
    s.cpc.CStopped? || (s.cpc.CSending? && |s.inq| == c.inCap)
  }

  /** Lane i after a producer failure: the forwarder is done or holds a buffer that out has no
      room for, and the indexer has ended or waits behind that forwarder. */
  predicate LaneHalted(c: Setup, s: State, i: nat)
    requires At(s, i)
  {
    var l := s.lanes[i];
    && (l.fwd.FDone? || (l.fwd.FHold? && |s.out| == c.outCap))
    && (Ended(l.pc) || (l.pc.ISend? && Wanted(c, s, i) && |l.err| == c.errCap && l.fwd.FHold?))
  }

  predicate LanesHalted(c: Setup, s: State) {
    forall i :: 0 <= i < |s.lanes| ==> LaneHalted(c, s, i)
  }

  /** All that is left once the producer has failed and nothing else can be done. */
  predicate Halted(c: Setup, s: State) {
    ConsumerHalted(c, s) && LanesHalted(c, s) && (s.closerDone || !AllForwarded(s))
  }

  /** Without its producer the pipeline goes on until it is halted. */
  lemma ProgressWithoutProducer(c: Setup, s: State) returns (l: Label)
    requires Disciplined(c, s) && c.n >= 1 && s.ppc.PFailed? && !Halted(c, s)
    ensures Useful(c, s, l)
  {
    if i: nat :| At(s, i) && !LaneHalted(c, s, i) {
      l := HaltingLane(c, s, i);
    } else if !ConsumerHalted(c, s) {
      l := ConsumerProgress(c, s, 0);
    } else {
      l := CloseOut;
    }
  }

  lemma HaltingLane(c: Setup, s: State, i: nat) returns (l: Label)
    requires Disciplined(c, s) && s.ppc.PFailed? && At(s, i) && !LaneHalted(c, s, i)
    ensures Useful(c, s, l)
  {
    var lane := s.lanes[i];
    assert LaneOk(c, lane, Drained(s));
    if lane.fwd.FRange? || (lane.fwd.FHold? && |s.out| < c.outCap) {
      l := LaneProgress(c, s, i);
    } else {
      l := IndexerProgress(c, s, i);
    }
  }

  lemma HaltedCannotMove(c: Setup, s: State, l: Label)
    requires Disciplined(c, s) && s.ppc.PFailed? && Halted(c, s)
    ensures !Useful(c, s, l)
  {
    match l {
      case Consumer(cs) => assert cs.ConsumerHand? && At(s, cs.to) ==> LaneHalted(c, s, cs.to);
      case Loop(i, _) => assert At(s, i) ==> LaneHalted(c, s, i);
      case Flush(i, _) => assert At(s, i) ==> LaneHalted(c, s, i);
      case Merge(i, _) => assert At(s, i) ==> LaneHalted(c, s, i);
      case _ =>
    }
  }

  lemma EndedCannotMove(c: Setup, s: State, l: Label)
    requires Disciplined(c, s) && DownstreamEnded(s) && (s.cpc.CStopped? || Abandoned(c, s))
    ensures !Useful(c, s, l)
  {
    match l {
      case Consumer(cs) => assert cs.ConsumerHand? && At(s, cs.to) ==> Ended(s.lanes[cs.to].pc);
      case Loop(i, _) => assert At(s, i) ==> Ended(s.lanes[i].pc);
      case Flush(i, _) => assert At(s, i) ==> Ended(s.lanes[i].pc);
      case Merge(i, _) => assert At(s, i) ==> s.lanes[i].fwd.FDone?;
      case _ =>
    }
  }

  /** Exactly when nothing but ticks, a cancellation and failures can happen any more: at the
      proper end; or when every indexer has failed and the consumer waits to send on a full
      channel; or, after a producer failure, when everything has returned or waits behind a full
      channel. */
  lemma StuckExactly(c: Setup, s: State)
    requires Reachable(c, s) && c.n >= 1
    ensures Stuck(c, s) <==>
            if s.ppc.PFailed? then Halted(c, s) else Finished(s) || (DownstreamEnded(s) && Abandoned(c, s))
  {
    ReachableDisciplined(c, s);
    if s.ppc.PFailed? {
      StuckWithoutProducer(c, s);
    } else {
      StuckWithProducer(c, s);
    }
  }

  lemma StuckWithoutProducer(c: Setup, s: State)
    requires Disciplined(c, s) && c.n >= 1 && s.ppc.PFailed?
    ensures Stuck(c, s) <==> Halted(c, s)
  {
    if Halted(c, s) {
      forall l ensures !Useful(c, s, l) {
        HaltedCannotMove(c, s, l);
      }
    } else {
      var l := ProgressWithoutProducer(c, s);
    }
  }

  lemma StuckWithProducer(c: Setup, s: State)
    requires Disciplined(c, s) && c.n >= 1 && !s.ppc.PFailed?
    ensures Stuck(c, s) <==> Finished(s) || (DownstreamEnded(s) && Abandoned(c, s))
  {
    if Finished(s) || (DownstreamEnded(s) && Abandoned(c, s)) {
      forall l ensures !Useful(c, s, l) {
        EndedCannotMove(c, s, l);
      }
    } else {
      var l := Progress(c, s);
    }
  }

  // ------------------------------------------------- all indexers have failed

  function Mover(l: Label): nat {
    match l
    case Loop(i, _) => i
    case Flush(i, _) => i
    case Consumer(ConsumerHand(i)) => i
    case _ => 0
  }

  lemma OnlyOthersMove(c: Setup, s: State, l: Label)
    requires Abandoned(c, s) && Enabled(c, s, l)
    ensures !l.Loop? && !l.Flush? && !l.Consumer?
  {
    assert At(s, Mover(l)) ==> s.lanes[Mover(l)].pc.IFailed?;
  }

  lemma AbandonedStep(c: Setup, s: State, l: Label)
    requires Abandoned(c, s) && Enabled(c, s, l)
    ensures Abandoned(c, Next(c, s, l))
  {
    StepLasting(c, s, l);
    OnlyOthersMove(c, s, l);
    match l {
      case Merge(i, ms) => MergeKeepsIn(c, s, i, ms);
      case Producer(ps) => ProducerKeepsIn(s, ps);
      case _ =>
    }
  }

  lemma MergeKeepsIn(c: Setup, s: State, i: nat, ms: ForwarderStep)
    requires MergeCan(c, s, i, ms)
    ensures MergeNext(c, s, i, ms).cpc == s.cpc && MergeNext(c, s, i, ms).inq == s.inq
  {
  }

  lemma ProducerKeepsIn(s: State, ps: ProducerStep)
    requires ProducerCan(s, ps)
    ensures ProducerNext(s, ps).cpc == s.cpc && ProducerNext(s, ps).inq == s.inq
  {
  }

  /** The send of the consumer is not in a select: once every indexer has failed and the channel
      is full, no run ends, not even after a cancellation. */
  lemma {:induction false} AbandonedForever(c: Setup, a: State, trace: seq<Label>, b: State)
    requires Abandoned(c, a) && Trace(c, a, trace, b)
    ensures Abandoned(c, b) && !Finished(b)
    decreases |trace|
  {
    if trace != [] {
      AbandonedStep(c, a, trace[0]);
      AbandonedForever(c, Next(c, a, trace[0]), trace[1..], b);
    }
  }

  /** The consumer has filled its channel up to k messages; the indexers still start up. */
  predicate Filling(s: State, k: nat) {
    s.cpc.CSelect? && |s.inq| == k && !s.cancelled && StartingFrom(s, 0)
  }

  /** The indexers below j have failed, the others still start up. */
  predicate StartingFrom(s: State, j: nat) {
    forall i :: 0 <= i < |s.lanes| ==>
      if i < j then s.lanes[i].pc.IFailed? else s.lanes[i].pc == IGet(ThenSelect)
  }

  /** The consumer takes one more message. */
  lemma TakesOne(c: Setup, s: State, docs: seq<WfDoc>, k: nat) returns (s': State)
    requires Reachable(c, s) && Filling(s, k)
    ensures Reachable(c, s') && s'.cpc.CSending? && s'.inq == s.inq && s'.lanes == s.lanes && !s'.cancelled
    ensures Load(s'.mem, s'.cpc.msg) == docs
  {
    s' := ReachStep(c, s, Consumer(ConsumerCheck));
    s' := ReachStep(c, s', Consumer(PollMessage(|s.mem|, docs)));
    assert [] + docs == docs;
  }

  lemma {:induction false} FillsUp(c: Setup, s: State, docs: seq<WfDoc>, k: nat) returns (s': State)
    requires Reachable(c, s) && Filling(s, k) && k <= c.inCap
    ensures Reachable(c, s') && s'.cpc.CSending? && |s'.inq| == c.inCap && s'.lanes == s.lanes
    ensures Load(s'.mem, s'.cpc.msg) == docs
    decreases c.inCap - k
  {
    s' := TakesOne(c, s, docs, k);
    if k < c.inCap {
      s' := ReachStep(c, s', Consumer(ConsumerSend));
      s' := FillsUp(c, s', docs, k + 1);
    }
  }

  /** Indexer j gets its first buffer and fails at its first tick. */
  lemma FailsNext(c: Setup, s: State, j: nat) returns (s': State)
    requires Reachable(c, s) && StartingFrom(s, j) && At(s, j) && s.cpc.CSending? && s.cpc.msg < |s.mem|
    ensures Reachable(c, s') && StartingFrom(s', j + 1) && |s'.lanes| == |s.lanes| && Stopping(s')
    ensures s'.cpc == s.cpc && s'.inq == s.inq
    ensures s.cpc.msg < |s'.mem| && Load(s'.mem, s.cpc.msg) == Load(s.mem, s.cpc.msg)
  {
    s' := ReachStep(c, s, Flush(j, GetBulk(|s.mem|)));
    s' := ReachStep(c, s', Loop(j, TickFail));
  }

  lemma {:induction false} AllFail(c: Setup, s: State, j: nat) returns (s': State)
    requires Reachable(c, s) && StartingFrom(s, j) && s.cpc.CSending? && s.cpc.msg < |s.mem|
    requires j <= |s.lanes| && (j > 0 ==> Stopping(s)) && s.lanes != []
    ensures Reachable(c, s') && StartingFrom(s', |s'.lanes|) && |s'.lanes| == |s.lanes| && Stopping(s')
    ensures s'.cpc == s.cpc && s'.inq == s.inq && Load(s'.mem, s.cpc.msg) == Load(s.mem, s.cpc.msg)
    decreases |s.lanes| - j
  {
    s' := s;
    if j < |s.lanes| {
      s' := FailsNext(c, s, j);
      s' := AllFail(c, s', j + 1);
    }
  }

  /** Such a state is reachable with any number of indexers and any capacities, whatever the
      message the consumer is left with. */
  lemma AbandonedReachable(c: Setup, docs: seq<WfDoc>) returns (s: State)
    requires c.n >= 1 && docs != []
    ensures Reachable(c, s) && Abandoned(c, s) && Stopping(s) && Load(s.mem, s.cpc.msg) == docs
  {
    assert Trace(c, Init(c), [], Init(c));
    s := ReachStep(c, Init(c), Consumer(ConsumerStart));
    s := FillsUp(c, s, docs, 0);
    s := AllFail(c, s, 0);
  }

  // -------------------------------------------------- the producer has failed

  /** The producer has failed, out is full, and the forwarder of lane i holds one more buffer. */
  predicate Clogged(c: Setup, s: State, i: nat) {
    s.ppc.PFailed? && |s.out| == c.outCap && At(s, i) && s.lanes[i].fwd.FHold?
  }

  lemma CloggedStep(c: Setup, s: State, l: Label, i: nat)
    requires Clogged(c, s, i) && Enabled(c, s, l)
    ensures Clogged(c, Next(c, s, l), i)
  {
    StepLasting(c, s, l);
    match l {
      case Loop(j, ls) => LoopKeepsForwarder(c, s, j, ls, i);
      case Flush(j, fs) => FlushKeepsForwarder(c, s, j, fs, i);
      case Consumer(cs) => ConsumerKeepsForwarder(c, s, cs, i);
      case Merge(j, ms) => MergeKeepsClogged(c, s, j, ms, i);
      case _ =>
    }
  }

  lemma MergeKeepsClogged(c: Setup, s: State, j: nat, ms: ForwarderStep, i: nat)
    requires Clogged(c, s, i) && MergeCan(c, s, j, ms)
    ensures Clogged(c, MergeNext(c, s, j, ms), i)
  {
  }

  predicate SameForwarder(s: State, s': State, i: nat) {
    && At(s, i) && At(s', i) && s'.out == s.out
    && (s.lanes[i].fwd.FHold? ==> s'.lanes[i].fwd == s.lanes[i].fwd)
  }

  lemma LoopKeepsForwarder(c: Setup, s: State, j: nat, ls: LoopStep, i: nat)
    requires LoopCan(s, j, ls) && At(s, i)
    ensures SameForwarder(s, LoopNext(c, s, j, ls), i)
  {
  }

  lemma FlushKeepsForwarder(c: Setup, s: State, j: nat, fs: FlushStep, i: nat)
    requires FlushCan(c, s, j, fs) && At(s, i)
    ensures SameForwarder(s, FlushNext(c, s, j, fs), i)
  {
    if fs.BulkCall? {
      BulkCallShape(s, j, fs.resp, fs.get);
    }
  }

  lemma ConsumerKeepsForwarder(c: Setup, s: State, cs: ConsumerStep, i: nat)
    requires ConsumerCan(c, s, cs) && At(s, i)
    ensures SameForwarder(s, ConsumerNext(c, s, cs), i)
  {
  }

  /** After a producer error with out full, a forwarder that holds a buffer holds it for ever, so
      out is never closed. */
  lemma {:induction false} CloggedForever(c: Setup, a: State, trace: seq<Label>, b: State, i: nat)
    requires Clogged(c, a, i) && Trace(c, a, trace, b)
    ensures Clogged(c, b, i) && !AllForwarded(b)
    decreases |trace|
  {
    if trace != [] {
      CloggedStep(c, a, trace[0], i);
      CloggedForever(c, Next(c, a, trace[0]), trace[1..], b, i);
    }
  }

  // A run that gets there, with any limits and capacities: the producer is slow to start while
  // document after document is rejected, and then does not start at all.

  /** The consumer is at cpc and indexer 0 at pc, with docs in its buffer, nothing in its error
      channel, and a forwarder at fwd; k buffers lie in out; the producer starts up. */
  predicate StageAt(s: State, cpc: ConsumerPc, pc: IndexerPc, docs: seq<WfDoc>, fwd: ForwarderPc, k: nat) {
    && s.cpc == cpc && s.inq == [] && !s.cancelled && s.ppc.PStarting? && |s.out| == k
    && At(s, 0) && s.lanes[0].pc == pc && s.lanes[0].err == [] && s.lanes[0].fwd == fwd
    && s.lanes[0].count == |docs| && s.lanes[0].ptr < |s.mem| && s.mem[s.lanes[0].ptr] == docs
  }

  predicate Stage(s: State, pc: IndexerPc, docs: seq<WfDoc>, fwd: ForwarderPc, k: nat) {
    StageAt(s, CPolling, pc, docs, fwd, k)
  }

  /** Buffer m, not that of indexer 0, holds doc. */
  predicate HoldsDoc(s: State, m: BufId, doc: WfDoc) {
    At(s, 0) && m < |s.mem| && s.mem[m] == [doc] && m != s.lanes[0].ptr
  }

  /** As Stage, with message m holding doc in the indexer's hand. */
  predicate StageWith(s: State, pc: IndexerPc, k: nat, m: BufId, doc: WfDoc) {
    Stage(s, pc, [], FRange, k) && HoldsDoc(s, m, doc)
  }

  lemma Polls(c: Setup, s: State, k: nat, doc: WfDoc) returns (s': State, m: BufId)
    requires Reachable(c, s) && Stage(s, ISelect, [], FRange, k)
    ensures Reachable(c, s') && StageAt(s', CSending(m), ISelect, [], FRange, k) && HoldsDoc(s', m, doc)
  {
    m := |s.mem|;
    s' := ReachStep(c, s, Consumer(PollMessage(m, [doc])));
    assert s'.mem[m] == [doc];
  }

  lemma Delivers(c: Setup, s: State, k: nat, m: BufId, doc: WfDoc) returns (s': State)
    requires Reachable(c, s) && StageAt(s, CSending(m), ISelect, [], FRange, k) && HoldsDoc(s, m, doc)
    ensures Reachable(c, s') && StageAt(s', CSelect, ITime(m), [], FRange, k) && HoldsDoc(s', m, doc)
  {
    if c.inCap == 0 {
      s' := ReachStep(c, s, Consumer(ConsumerHand(0)));
    } else {
      s' := ReachStep(c, s, Consumer(ConsumerSend));
      s' := ReachStep(c, s', Loop(0, Receive));
    }
  }

  lemma PassesTimeTest(c: Setup, s: State, k: nat, m: BufId, doc: WfDoc) returns (s': State)
    requires Reachable(c, s) && StageAt(s, CSelect, ITime(m), [], FRange, k) && HoldsDoc(s, m, doc)
    ensures Reachable(c, s') && StageWith(s', IBytes(m), k, m, doc)
  {
    s' := ReachStep(c, s, Consumer(ConsumerCheck));
    s' := ReachStep(c, s', Loop(0, TimeTest(false)));
  }

  /** The byte test may flush the empty buffer first. */
  lemma PassesBytesTest(c: Setup, s: State, k: nat, m: BufId, doc: WfDoc) returns (s': State)
    requires Reachable(c, s) && StageWith(s, IBytes(m), k, m, doc)
    ensures Reachable(c, s') && StageWith(s', IAppend(m), k, m, doc)
  {
    s' := ReachStep(c, s, Loop(0, BytesTest));
    if s'.lanes[0].pc == IFlush(ThenAppend(m)) {
      s' := FlushesNothing(c, s', k, m, doc);
    }
  }

  lemma FlushesNothing(c: Setup, s: State, k: nat, m: BufId, doc: WfDoc) returns (s': State)
    requires Reachable(c, s) && StageWith(s, IFlush(ThenAppend(m)), k, m, doc)
    ensures Reachable(c, s') && StageWith(s', IAppend(m), k, m, doc)
  {
    assert Render([]) == [];
    s' := ReachStep(c, s, Flush(0, BulkCall(NoResponse(), |s.mem|)));
    s' := ReachStep(c, s', Flush(0, PutBulk));
    s' := ReachStep(c, s', Flush(0, GetBulk(|s'.mem|)));
  }

  lemma Appends(c: Setup, s: State, k: nat, m: BufId, doc: WfDoc) returns (s': State)
    requires Reachable(c, s) && StageWith(s, IAppend(m), k, m, doc)
    ensures Reachable(c, s') && Stage(s', IFlush(ThenSelect), [doc], FRange, k)
  {
    assert [] + [doc] == [doc];
    s' := ReachStep(c, s, Loop(0, AppendMsg));
    if s'.lanes[0].pc.ISelect? {
      s' := ReachStep(c, s', Loop(0, TickFlush));
    }
  }

  /** A response that rejects the only document of a body. */
  function Rejection(): Response {
    IndexerSpec.Decoded(true, [map["index" := "mapper_parsing_exception"]])
  }

  lemma RejectsOne(doc: WfDoc)
    ensures Answers(Rejection(), [doc]) && Failed([doc], Rejection().items) == [doc]
    ensures |Render([doc])| >= MINIMUM_BUFFER_SIZE
  {
    var item: Item := map["index" := "mapper_parsing_exception"];
    assert "index" in FailedActions(item);
    SingletonFailures(item);
    RepeatOnce([doc]);
    assert Failed([doc], []) + [doc] == [doc];
    assert [item][..0] == [];
    RenderLength([doc]);
  }

  lemma IsRejected(c: Setup, s: State, k: nat, doc: WfDoc) returns (s': State, e: BufId)
    requires Reachable(c, s) && Stage(s, IFlush(ThenSelect), [doc], FRange, k)
    ensures Reachable(c, s') && Stage(s', IPut(Some(e), ThenSelect), [doc], FRange, k)
    ensures e < |s'.mem| && s'.mem[e] == [doc] && e != s'.lanes[0].ptr
  {
    RejectsOne(doc);
    e := |s.mem|;
    s' := ReachStep(c, s, Flush(0, BulkCall(Rejection(), e)));
    assert [] + [doc] == [doc];
  }

  lemma PutsBack(c: Setup, s: State, k: nat, doc: WfDoc, e: BufId) returns (s': State)
    requires Reachable(c, s) && Stage(s, IPut(Some(e), ThenSelect), [doc], FRange, k)
    requires e < |s.mem| && s.mem[e] == [doc] && e != s.lanes[0].ptr
    ensures Reachable(c, s') && SendStage(s', ISend(e, ThenSelect), FRange, k) && Load(s'.mem, e) == [doc]
  {
    s' := ReachStep(c, s, Flush(0, PutBulk));
  }

  /** As Stage, with a stale b.buffer. */
  predicate SendStage(s: State, pc: IndexerPc, fwd: ForwarderPc, k: nat) {
    && s.cpc.CPolling? && s.inq == [] && !s.cancelled && s.ppc.PStarting? && |s.out| == k
    && At(s, 0) && s.lanes[0].pc == pc && s.lanes[0].err == [] && s.lanes[0].fwd == fwd
  }

  lemma HandsOn(c: Setup, s: State, k: nat, doc: WfDoc, e: BufId) returns (s': State)
    requires Reachable(c, s) && Republishes(c) && SendStage(s, ISend(e, ThenSelect), FRange, k)
    requires Load(s.mem, e) == [doc]
    ensures Reachable(c, s') && SendStage(s', IGet(ThenSelect), FHold(e), k)
  {
    RejectsOne(doc);
    if c.errCap == 0 {
      s' := ReachStep(c, s, Flush(0, HandErrors));
    } else {
      s' := ReachStep(c, s, Flush(0, SendErrors));
      s' := ReachStep(c, s', Merge(0, Forward));
    }
  }

  /** A message reaches the buffer, and the buffer is about to be flushed. */
  lemma Buffers(c: Setup, s: State, k: nat, doc: WfDoc) returns (s': State)
    requires Reachable(c, s) && Stage(s, ISelect, [], FRange, k)
    ensures Reachable(c, s') && Stage(s', IFlush(ThenSelect), [doc], FRange, k)
  {
    var m;
    s', m := Polls(c, s, k, doc);
    s' := Delivers(c, s', k, m, doc);
    s' := PassesTimeTest(c, s', k, m, doc);
    s' := PassesBytesTest(c, s', k, m, doc);
    s' := Appends(c, s', k, m, doc);
  }

  lemma Resumes(c: Setup, s: State, fwd: ForwarderPc, k: nat) returns (s': State)
    requires Reachable(c, s) && SendStage(s, IGet(ThenSelect), fwd, k)
    ensures Reachable(c, s') && Stage(s', ISelect, [], fwd, k)
  {
    s' := ReachStep(c, s, Flush(0, GetBulk(|s.mem|)));
  }

  /** One message, one rejected document, one error buffer in the forwarder's hand. */
  lemma RejectedOnce(c: Setup, s: State, k: nat, doc: WfDoc) returns (s': State, e: BufId)
    requires Reachable(c, s) && Republishes(c) && Stage(s, ISelect, [], FRange, k)
    ensures Reachable(c, s') && Stage(s', ISelect, [], FHold(e), k)
  {
    s' := Buffers(c, s, k, doc);
    s', e := IsRejected(c, s', k, doc);
    s' := PutsBack(c, s', k, doc, e);
    s' := HandsOn(c, s', k, doc, e);
    s' := Resumes(c, s', FHold(e), k);
  }

  lemma {:induction false} FillsOut(c: Setup, s: State, k: nat, doc: WfDoc) returns (s': State, e: BufId)
    requires Reachable(c, s) && Republishes(c) && Stage(s, ISelect, [], FRange, k) && k <= c.outCap
    ensures Reachable(c, s') && Stage(s', ISelect, [], FHold(e), c.outCap)
    decreases c.outCap - k
  {
    s', e := RejectedOnce(c, s, k, doc);
    if k < c.outCap {
      s' := ReachStep(c, s', Merge(0, ForwardSend));
      s', e := FillsOut(c, s', k + 1, doc);
    }
  }

  lemma StartsUp(c: Setup) returns (s: State)
    requires Republishes(c)
    ensures Reachable(c, s) && Stage(s, ISelect, [], FRange, 0)
  {
    assert Trace(c, Init(c), [], Init(c));
    s := ReachStep(c, Init(c), Consumer(ConsumerStart));
    s := ReachStep(c, s, Consumer(ConsumerCheck));
    s := ReachStep(c, s, Flush(0, GetBulk(0)));
  }

  /** A clogged state is reachable with any number of indexers, any limits and any capacities. */
  lemma CloggedReachable(c: Setup, doc: WfDoc) returns (s: State)
    requires Republishes(c)
    ensures Reachable(c, s) && Clogged(c, s, 0) && Stopping(s)
  {
    s := StartsUp(c);
    var e;
    s, e := FillsOut(c, s, 0, doc);
    s := ReachStep(c, s, Producer(ProducerFail));
  }
}
