/** The converse of Refinement: whatever the sequential indexer does on a schedule, an indexer of
    the pipeline does in some run, with any number of indexers and any capacities. */
module Realization {
  import opened Lines
  import opened Documents
  import opened Pipeline
  import opened Ownership
  import opened Streams
  import opened Refinement
  import Discipline
  import Stepwise
  import Unfolding
  import IndexerSpec
  import Batching
  import Minimality
  import LaneBatching
  import Reasons
  import BulkSizes

  type Act = Stepwise.Act

  /** The steps of an indexer, without those in which it has no part. */
  function Visible(acts: seq<Act>): seq<Act> {
    if acts == [] then [] else
    var a := acts[|acts| - 1];
    Visible(acts[..|acts| - 1]) + if a.Stay? then [] else [a]
  }

  // --------------------------------------------------------- running the pipeline

  /** A run leads to s in which indexer 0 has taken the steps acts. */
  ghost predicate Reaches(c: Setup, env: IndexerSpec.Env, s: State, acts: seq<Act>) {
    && c.n >= 1 && Stepwise.Playable(env, acts) && At(s, 0) && Stepwise.Play(env, acts) == ViewOf(s, 0)
    && SingleOwner(s)
    && exists trace :: RunsTo(c, trace, s, acts)
  }

  ghost predicate RunsTo(c: Setup, trace: seq<Label>, s: State, acts: seq<Act>) {
    Trace(c, Init(c), trace, s) && Visible(Acts(c, Init(c), trace, 0)) == acts
  }

  lemma {:induction false} ActsSnoc(c: Setup, a: State, trace: seq<Label>, b: State, l: Label, i: nat)
    requires Trace(c, a, trace, b) && Enabled(c, b, l) && At(a, i) && At(b, i)
    ensures Acts(c, a, trace + [l], i) == Acts(c, a, trace, i) + [ActOf(c, b, l, i)]
    decreases |trace|
  {
    if trace == [] {
      assert ([] + [l])[1..] == [];
    } else {
      var s := Next(c, a, trace[0]);
      BulkSizes.LaneStays(c, a, trace[0], i);
      ActsSnoc(c, s, trace[1..], b, l, i);
      assert (trace + [l])[1..] == trace[1..] + [l];
      Assoc([ActOf(c, a, trace[0], i)], Acts(c, s, trace[1..], i), [ActOf(c, b, l, i)]);
    }
  }

  lemma VisibleSnoc(acts: seq<Act>, a: Act)
    ensures Visible(acts + [a]) == Visible(acts) + if a.Stay? then [] else [a]
  {
    assert (acts + [a])[..|acts|] == acts;
  }

  function With(acts: seq<Act>, a: Act): seq<Act> {
    if a.Stay? then acts else acts + [a]
  }

  /** One more step of the run. */
  lemma StepOn(c: Setup, env: IndexerSpec.Env, s: State, acts: seq<Act>, l: Label, a: Act) returns (s': State)
    requires Reaches(c, env, s, acts) && Fits(c, env) && Enabled(c, s, l) && a == ActOf(c, s, l, 0)
    ensures s' == Next(c, s, l) && Reaches(c, env, s', With(acts, a))
  {
    s' := Next(c, s, l);
    StepKeepsSingleOwner(c, s, l);
    StepActs(c, env, s, l, 0);
    if !a.Stay? {
      PlaySnoc(env, acts, a);
    }
    RunOn(c, s, acts, l, a);
  }

  lemma RunOn(c: Setup, s: State, acts: seq<Act>, l: Label, a: Act)
    requires (exists trace :: RunsTo(c, trace, s, acts)) && Enabled(c, s, l) && At(s, 0) && c.n >= 1
    requires a == ActOf(c, s, l, 0)
    ensures exists trace :: RunsTo(c, trace, Next(c, s, l), With(acts, a))
  {
    var trace :| RunsTo(c, trace, s, acts);
    TraceSnoc(c, Init(c), trace, s, l);
    ActsSnoc(c, Init(c), trace, s, l, 0);
    VisibleSnoc(Acts(c, Init(c), trace, 0), a);
    assert acts + [] == acts;
    assert RunsTo(c, trace + [l], Next(c, s, l), With(acts, a));
  }

  // ------------------------------------------------- one step of the indexer

  /** The indexer is on its way to return. */
  predicate Leaving(pc: IndexerPc) {
    pc.IDone? || pc.IFailed? || ((pc.IFlush? || pc.IPut? || pc.ISend? || pc.IGet?) && pc.k.ThenReturn?)
  }

  /** The other goroutines are idle: the consumer polls as long as it is needed, and what indexer 0
      has sent has been forwarded and produced. */
  predicate OthersIdle(c: Setup, s: State) {
    && At(s, 0) && s.inq == [] && !s.lanes[0].pc.IPut?
    && (Leaving(s.lanes[0].pc) || (s.cpc.CPolling? && !s.cancelled))
    && (Republishes(c) ==> s.ppc.PRange? && s.out == [] && s.lanes[0].err == [] && s.lanes[0].fwd.FRange?)
  }

  /** acts are done, and the others are idle. */
  ghost predicate Done(c: Setup, env: IndexerSpec.Env, s: State, acts: seq<Act>) {
    Reaches(c, env, s, acts) && OthersIdle(c, s) && Fits(c, env)
  }

  lemma TakesMessage(c: Setup, env: IndexerSpec.Env, s: State, acts: seq<Act>, docs: seq<WfDoc>) returns (s': State)
    requires Done(c, env, s, acts) && Stepwise.Can(env, ViewOf(s, 0), Stepwise.Take(Render(docs)))
    ensures Done(c, env, s', acts + [Stepwise.Take(Render(docs))])
  {
    var polled := Polls(c, env, s, acts, docs);
    if c.inCap == 0 {
      s' := HandsOver(c, env, polled, acts, docs);
    } else {
      s' := SendsOver(c, env, polled, acts, docs);
    }
    s' := StepOn(c, env, s', acts + [Stepwise.Take(Render(docs))], Consumer(ConsumerCheck), Stepwise.Stay);
  }

  /** The consumer holds a message, everything else is idle. */
  predicate Polled(c: Setup, s: State, docs: seq<WfDoc>) {
    && At(s, 0) && s.inq == [] && s.lanes[0].pc.ISelect? && !s.cancelled
    && s.cpc.CSending? && Load(s.mem, s.cpc.msg) == docs
    && (Republishes(c) ==> s.ppc.PRange? && s.out == [] && s.lanes[0].err == [] && s.lanes[0].fwd.FRange?)
  }

  lemma Polls(c: Setup, env: IndexerSpec.Env, s: State, acts: seq<Act>, docs: seq<WfDoc>) returns (s': State)
    requires Done(c, env, s, acts) && s.lanes[0].pc.ISelect?
    ensures Reaches(c, env, s', acts) && Polled(c, s', docs)
  {
    s' := StepOn(c, env, s, acts, Consumer(PollMessage(|s.mem|, docs)), Stepwise.Stay);
    assert [] + docs == docs;
  }

  /** The message has reached indexer 0. */
  predicate Delivered(c: Setup, s: State) {
    && At(s, 0) && s.inq == [] && s.lanes[0].pc.ITime? && !s.cancelled && s.cpc.CSelect?
    && (Republishes(c) ==> s.ppc.PRange? && s.out == [] && s.lanes[0].err == [] && s.lanes[0].fwd.FRange?)
  }

  lemma HandsOver(c: Setup, env: IndexerSpec.Env, s: State, acts: seq<Act>, docs: seq<WfDoc>) returns (s': State)
    requires Reaches(c, env, s, acts) && Fits(c, env) && Polled(c, s, docs) && c.inCap == 0
    ensures Reaches(c, env, s', acts + [Stepwise.Take(Render(docs))]) && Delivered(c, s')
  {
    s' := StepOn(c, env, s, acts, Consumer(ConsumerHand(0)), Stepwise.Take(Render(docs)));
  }

  lemma SendsIn(c: Setup, s: State, docs: seq<WfDoc>)
    requires Polled(c, s, docs)
    ensures var s1 := DoConsumerSend(s);
            && s1.inq == [s.cpc.msg] && LoopCan(s1, 0, Receive) && Delivered(c, DoReceive(s1, 0))
            && LoopAct(s1, 0, Receive) == Stepwise.Take(Render(docs))
  {
  }

  lemma SendsOver(c: Setup, env: IndexerSpec.Env, s: State, acts: seq<Act>, docs: seq<WfDoc>) returns (s': State)
    requires Reaches(c, env, s, acts) && Fits(c, env) && Polled(c, s, docs) && c.inCap > 0
    ensures Reaches(c, env, s', acts + [Stepwise.Take(Render(docs))]) && Delivered(c, s')
  {
    SendsIn(c, s, docs);
    s' := StepOn(c, env, s, acts, Consumer(ConsumerSend), Stepwise.Stay);
    s' := StepOn(c, env, s', acts, Loop(0, Receive), Stepwise.Take(Render(docs)));
  }

  lemma TestsIdle(c: Setup, s: State, ls: LoopStep)
    requires OthersIdle(c, s) && LoopCan(s, 0, ls)
    requires ls.TickIdle? || ls.TickFlush? || ls.TickFail? || ls.TimeTest? || ls.BytesTest? || ls.AppendMsg?
    ensures OthersIdle(c, LoopNext(c, s, 0, ls))
  {
    match ls {
      case TickFail => assert DoTickFail(c, s, 0).lanes[0].pc == IFailed;
      case AppendMsg => AppendIdle(c, s);
      case _ =>
    }
  }

  lemma AppendIdle(c: Setup, s: State)
    requires OthersIdle(c, s) && LoopCan(s, 0, AppendMsg)
    ensures OthersIdle(c, DoAppendMsg(c, s, 0))
  {
  }

  /** A test, an append, or a tick. */
  lemma Tests(c: Setup, env: IndexerSpec.Env, s: State, acts: seq<Act>, a: Act, ls: LoopStep) returns (s': State)
    requires Done(c, env, s, acts) && LoopCan(s, 0, ls) && LoopAct(s, 0, ls) == a
    requires ls.TickIdle? || ls.TickFlush? || ls.TickFail? || ls.TimeTest? || ls.BytesTest? || ls.AppendMsg?
    ensures Done(c, env, s', acts + [a])
  {
    TestsIdle(c, s, ls);
    s' := StepOn(c, env, s, acts, Loop(0, ls), a);
  }

  lemma StopsConsumer(c: Setup, s: State)
    requires OthersIdle(c, s) && s.lanes[0].pc.ISelect?
    ensures ConsumerCan(c, s, ConsumerFail)
    ensures var s1 := ConsumerNext(c, s, ConsumerFail);
            && LoopCan(s1, 0, SeeClosed) && OthersIdle(c, LoopNext(c, s1, 0, SeeClosed))
  {
  }

  lemma Closes(c: Setup, env: IndexerSpec.Env, s: State, acts: seq<Act>) returns (s': State)
    requires Done(c, env, s, acts) && s.lanes[0].pc.ISelect?
    ensures Done(c, env, s', acts + [Stepwise.SeeClosed])
  {
    StopsConsumer(c, s);
    s' := StepOn(c, env, s, acts, Consumer(ConsumerFail), Stepwise.Stay);
    s' := StepOn(c, env, s', acts, Loop(0, SeeClosed), Stepwise.SeeClosed);
  }

  lemma Calls(c: Setup, env: IndexerSpec.Env, s: State, acts: seq<Act>, resp: Response) returns (s': State)
    requires Done(c, env, s, acts) && s.lanes[0].pc.IFlush? && Answers(resp, Load(s.mem, s.lanes[0].ptr))
    ensures Done(c, env, s', acts + [Stepwise.Call(Render(Load(s.mem, s.lanes[0].ptr)), s.lanes[0].count, resp)])
  {
    var a := Stepwise.Call(Render(Load(s.mem, s.lanes[0].ptr)), s.lanes[0].count, resp);
    var called := StepOn(c, env, s, acts, Flush(0, BulkCall(resp, |s.mem|)), a);
    BulkCallShape(s, 0, resp, |s.mem|);
    s' := PutsBack(c, env, s, called, acts + [a]);
  }

  lemma PutsBack(c: Setup, env: IndexerSpec.Env, s: State, called: State, acts: seq<Act>) returns (s': State)
    requires OthersIdle(c, s) && s.lanes[0].pc.IFlush? && CallReturned(s, called, 0)
    requires Reaches(c, env, called, acts) && Fits(c, env)
    ensures Done(c, env, s', acts)
  {
    s' := StepOn(c, env, called, acts, Flush(0, PutBulk), Stepwise.Stay);
  }

  lemma DropsIdle(c: Setup, s: State)
    requires OthersIdle(c, s) && s.lanes[0].pc.ISend?
    ensures OthersIdle(c, DoDropErrors(s, 0))
  {
  }

  lemma Drops(c: Setup, env: IndexerSpec.Env, s: State, acts: seq<Act>) returns (s': State)
    requires Done(c, env, s, acts) && s.lanes[0].pc.ISend? && !Wanted(c, s, 0)
    ensures Done(c, env, s', acts + [Stepwise.Drop])
  {
    DropsIdle(c, s);
    s' := StepOn(c, env, s, acts, Flush(0, DropErrors), Stepwise.Drop);
  }

  /** The forwarder holds what indexer 0 has sent. */
  predicate Forwarding(c: Setup, s: State) {
    && At(s, 0) && s.inq == [] && s.lanes[0].pc.IGet?
    && (Leaving(s.lanes[0].pc) || (s.cpc.CPolling? && !s.cancelled))
    && s.ppc.PRange? && s.out == [] && s.lanes[0].err == [] && s.lanes[0].fwd.FHold?
  }

  /** The buffer is in the error channel, which has room for it, and the forwarder is ready. */
  predicate Sent(c: Setup, s: State) {
    && At(s, 0) && s.inq == [] && s.lanes[0].pc.IGet?
    && (Leaving(s.lanes[0].pc) || (s.cpc.CPolling? && !s.cancelled))
    && s.ppc.PRange? && s.out == [] && |s.lanes[0].err| == 1 && s.lanes[0].fwd.FRange?
  }

  lemma SendsIdle(c: Setup, s: State)
    requires OthersIdle(c, s) && s.lanes[0].pc.ISend? && Republishes(c)
    ensures Sent(c, DoSendErrors(s, 0))
  {
  }

  lemma ForwardsIdle(c: Setup, s: State)
    requires Sent(c, s)
    ensures Forwarding(c, DoForward(s, 0))
  {
  }

  lemma Posts(c: Setup, env: IndexerSpec.Env, s: State, acts: seq<Act>) returns (s': State)
    requires Done(c, env, s, acts) && s.lanes[0].pc.ISend? && Wanted(c, s, 0)
    ensures Done(c, env, s', acts + [Stepwise.Post(Render(Load(s.mem, s.lanes[0].pc.out)))])
  {
    var a := Stepwise.Post(Render(Load(s.mem, s.lanes[0].pc.out)));
    SendsIdle(c, s);
    ForwardsIdle(c, DoSendErrors(s, 0));
    if c.errCap == 0 {
      s' := HandsErrors(c, env, s, acts, a);
    } else {
      s' := SendsErrors(c, env, s, acts, a);
    }
    s' := Forwards(c, env, s', acts + [a]);
  }

  lemma HandsErrors(c: Setup, env: IndexerSpec.Env, s: State, acts: seq<Act>, a: Act) returns (s': State)
    requires Reaches(c, env, s, acts) && Fits(c, env) && FlushCan(c, s, 0, HandErrors)
    requires a == FlushAct(c, s, 0, HandErrors) && Forwarding(c, DoForward(DoSendErrors(s, 0), 0))
    ensures Reaches(c, env, s', acts + [a]) && Forwarding(c, s')
  {
    s' := StepOn(c, env, s, acts, Flush(0, HandErrors), a);
  }

  lemma SendsErrors(c: Setup, env: IndexerSpec.Env, s: State, acts: seq<Act>, a: Act) returns (s': State)
    requires Reaches(c, env, s, acts) && Fits(c, env) && FlushCan(c, s, 0, SendErrors)
    requires Sent(c, DoSendErrors(s, 0)) && Forwarding(c, DoForward(DoSendErrors(s, 0), 0))
    requires a == FlushAct(c, s, 0, SendErrors)
    ensures Reaches(c, env, s', acts + [a]) && Forwarding(c, s')
  {
    s' := StepOn(c, env, s, acts, Flush(0, SendErrors), a);
    s' := StepOn(c, env, s', acts + [a], Merge(0, Forward), Stepwise.Stay);
  }

  /** The producer holds it. */
  predicate Producing(c: Setup, s: State) {
    && At(s, 0) && s.inq == [] && s.lanes[0].pc.IGet?
    && (Leaving(s.lanes[0].pc) || (s.cpc.CPolling? && !s.cancelled))
    && s.ppc.PHold? && s.out == [] && s.lanes[0].err == [] && s.lanes[0].fwd.FRange?
  }

  lemma ForwardsOut(c: Setup, s: State)
    requires Forwarding(c, s)
    ensures var s1 := DoForwardSend(s, 0);
            |s1.out| == 1 && s1.ppc.PRange? && Producing(c, DoProducerReceive(s1))
  {
  }

  lemma Forwards(c: Setup, env: IndexerSpec.Env, s: State, acts: seq<Act>) returns (s': State)
    requires Reaches(c, env, s, acts) && Fits(c, env) && Forwarding(c, s)
    ensures Done(c, env, s', acts)
  {
    ForwardsOut(c, s);
    if c.outCap == 0 {
      s' := StepOn(c, env, s, acts, Merge(0, ForwardHand), Stepwise.Stay);
    } else {
      s' := ForwardsBuffered(c, env, s, acts);
    }
    s' := Produces(c, env, s', acts);
  }

  lemma ForwardsBuffered(c: Setup, env: IndexerSpec.Env, s: State, acts: seq<Act>) returns (s': State)
    requires Reaches(c, env, s, acts) && Fits(c, env) && MergeCan(c, s, 0, ForwardSend)
    requires var s1 := DoForwardSend(s, 0);
             |s1.out| == 1 && s1.ppc.PRange? && Producing(c, DoProducerReceive(s1))
    ensures Reaches(c, env, s', acts) && Producing(c, s')
  {
    s' := StepOn(c, env, s, acts, Merge(0, ForwardSend), Stepwise.Stay);
    s' := StepOn(c, env, s', acts, Producer(ProducerReceive), Stepwise.Stay);
  }

  lemma SettlesIdle(c: Setup, s: State)
    requires Producing(c, s)
    ensures OthersIdle(c, Settle(s, s.ppc.msg, true))
  {
  }

  lemma Produces(c: Setup, env: IndexerSpec.Env, s: State, acts: seq<Act>) returns (s': State)
    requires Reaches(c, env, s, acts) && Fits(c, env) && Producing(c, s)
    ensures Done(c, env, s', acts)
  {
    SettlesIdle(c, s);
    s' := StepOn(c, env, s, acts, Producer(Produce(Produced)), Stepwise.Stay);
  }

  lemma GetsIdle(c: Setup, s: State, get: BufId)
    requires OthersIdle(c, s) && s.lanes[0].pc.IGet?
    ensures OthersIdle(c, DoGetBulk(c, s, 0, get))
  {
  }

  lemma Gets(c: Setup, env: IndexerSpec.Env, s: State, acts: seq<Act>) returns (s': State)
    requires Done(c, env, s, acts) && s.lanes[0].pc.IGet?
    ensures Done(c, env, s', acts + [Stepwise.Get])
  {
    GetsIdle(c, s, |s.mem|);
    s' := StepOn(c, env, s, acts, Flush(0, GetBulk(|s.mem|)), Stepwise.Get);
  }

  // -------------------------------------------------------- all of its steps

  /** Responses fit the documents of the bodies they answer. */
  ghost predicate FitsDocuments(env: IndexerSpec.Env) {
    forall n: nat, docs: seq<WfDoc> {:trigger env.answer(n, Render(docs))} :: docs != [] ==>
      Answers(env.answer(n, Render(docs)), docs)
  }

  /** The message is a bulk body. */
  ghost predicate IsBody(m: seq<byte>) {
    exists docs: seq<WfDoc> :: m == Render(docs)
  }

  /** The step takes a bulk body, or gets a response of env. */
  ghost predicate Suits(env: IndexerSpec.Env, a: Act) {
    && (a.Take? ==> IsBody(a.body))
    && (a.Call? ==> exists n: nat :: a.resp == Unfolding.NextResponse(env, n, a.body))
  }

  lemma ResponseFits(env: IndexerSpec.Env, n: nat, docs: seq<WfDoc>)
    requires FitsDocuments(env)
    ensures Answers(Unfolding.NextResponse(env, n, Render(docs)), docs)
  {
    EmptyBody();
  }

  lemma PerformsCall(c: Setup, env: IndexerSpec.Env, s: State, acts: seq<Act>, a: Act) returns (s': State)
    requires Done(c, env, s, acts) && Stepwise.Can(env, ViewOf(s, 0), a) && a.Call? && Suits(env, a)
    requires FitsDocuments(env)
    ensures Done(c, env, s', acts + [a])
  {
    var docs := Load(s.mem, s.lanes[0].ptr);
    assert a.body == Render(docs) && a.msgs == s.lanes[0].count;
    var n: nat :| a.resp == Unfolding.NextResponse(env, n, a.body);
    ResponseFits(env, n, docs);
    s' := Calls(c, env, s, acts, a.resp);
  }

  lemma PerformsTake(c: Setup, env: IndexerSpec.Env, s: State, acts: seq<Act>, a: Act) returns (s': State)
    requires Done(c, env, s, acts) && Stepwise.Can(env, ViewOf(s, 0), a) && a.Take? && Suits(env, a)
    ensures Done(c, env, s', acts + [a])
  {
    var docs: seq<WfDoc> :| a.body == Render(docs);
    s' := TakesMessage(c, env, s, acts, docs);
  }

  /** The step of the select loop that a step of the indexer is. */
  function LoopStepOf(a: Act): LoopStep {
    match a
    case TimeTest(fires) => TimeTest(fires)
    case BytesTest => BytesTest
    case AppendMsg => AppendMsg
    case TickFlush => TickFlush
    case Fail => TickFail
    case _ => TickIdle
  }

  predicate IsTest(a: Act) {
    a.TimeTest? || a.BytesTest? || a.AppendMsg? || a.TickIdle? || a.TickFlush? || a.Fail?
  }

  lemma TestPossible(env: IndexerSpec.Env, s: State, a: Act)
    requires At(s, 0) && !s.lanes[0].pc.IPut? && IsTest(a) && Stepwise.Can(env, ViewOf(s, 0), a)
    ensures LoopCan(s, 0, LoopStepOf(a)) && LoopAct(s, 0, LoopStepOf(a)) == a
  {
  }

  lemma HandsOnPossible(c: Setup, env: IndexerSpec.Env, s: State, a: Act)
    requires At(s, 0) && !s.lanes[0].pc.IPut? && Fits(c, env) && Stepwise.Can(env, ViewOf(s, 0), a)
    ensures a.Drop? ==> s.lanes[0].pc.ISend? && !Wanted(c, s, 0)
    ensures a.Post? ==> s.lanes[0].pc.ISend? && Wanted(c, s, 0) && a.out == Render(Load(s.mem, s.lanes[0].pc.out))
    ensures a.Get? ==> s.lanes[0].pc.IGet?
    ensures a.SeeClosed? ==> s.lanes[0].pc.ISelect?
  {
  }

  lemma Performs(c: Setup, env: IndexerSpec.Env, s: State, acts: seq<Act>, a: Act) returns (s': State)
    requires Done(c, env, s, acts) && Stepwise.Can(env, ViewOf(s, 0), a) && !a.Stay? && Suits(env, a)
    requires FitsDocuments(env)
    ensures Done(c, env, s', acts + [a])
  {
    if IsTest(a) {
      TestPossible(env, s, a);
      s' := Tests(c, env, s, acts, a, LoopStepOf(a));
    } else {
      HandsOnPossible(c, env, s, a);
      s' := PerformsOther(c, env, s, acts, a);
    }
  }

  lemma PerformsOther(c: Setup, env: IndexerSpec.Env, s: State, acts: seq<Act>, a: Act) returns (s': State)
    requires Done(c, env, s, acts) && Stepwise.Can(env, ViewOf(s, 0), a) && !a.Stay? && Suits(env, a) && !IsTest(a)
    requires FitsDocuments(env)
    requires a.Drop? ==> s.lanes[0].pc.ISend? && !Wanted(c, s, 0)
    requires a.Post? ==> s.lanes[0].pc.ISend? && Wanted(c, s, 0) && a.out == Render(Load(s.mem, s.lanes[0].pc.out))
    requires a.Get? ==> s.lanes[0].pc.IGet?
    requires a.SeeClosed? ==> s.lanes[0].pc.ISelect?
    ensures Done(c, env, s', acts + [a])
  {
    match a {
      case Take(_) => s' := PerformsTake(c, env, s, acts, a);
      case Call(_, _, _) => s' := PerformsCall(c, env, s, acts, a);
      case Drop => s' := Drops(c, env, s, acts);
      case Post(_) => s' := Posts(c, env, s, acts);
      case Get => s' := Gets(c, env, s, acts);
      case SeeClosed => s' := Closes(c, env, s, acts);
    }
  }

  /** The pipeline has started up, and indexer 0 is about to get its first buffer. */
  lemma StartsUp(c: Setup, env: IndexerSpec.Env) returns (s: State)
    requires c.n >= 1 && Fits(c, env)
    ensures Done(c, env, s, [])
  {
    InitReaches(c, env);
    s := StepOn(c, env, Init(c), [], Consumer(ConsumerStart), Stepwise.Stay);
    s := StepOn(c, env, s, [], Consumer(ConsumerCheck), Stepwise.Stay);
    if Republishes(c) {
      s := StepOn(c, env, s, [], Producer(ProducerStart), Stepwise.Stay);
    }
  }

  lemma InitReaches(c: Setup, env: IndexerSpec.Env)
    requires c.n >= 1
    ensures Reaches(c, env, Init(c), [])
  {
    InitSingleOwner(c);
    StartsThere(c, 0);
    assert Trace(c, Init(c), [], Init(c)) && Visible(Acts(c, Init(c), [], 0)) == [];
    assert RunsTo(c, [], Init(c), []);
  }

  lemma {:induction false} PerformsAll(c: Setup, env: IndexerSpec.Env, acts: seq<Act>) returns (s: State)
    requires c.n >= 1 && Fits(c, env) && FitsDocuments(env)
    requires Stepwise.Playable(env, acts) && Unfolding.NoStay(acts) && forall a :: a in acts ==> Suits(env, a)
    ensures Done(c, env, s, acts)
    decreases |acts|
  {
    if acts == [] {
      s := StartsUp(c, env);
    } else {
      var front, a := acts[..|acts| - 1], acts[|acts| - 1];
      assert a in acts && acts == front + [a];
      s := PerformsAll(c, env, front);
      s := Performs(c, env, s, front, a);
    }
  }

  // --------------------------------------------------------------- the result

  /** Two lists of steps that show the same from outside. */
  predicate SameObserved(a: seq<Act>, b: seq<Act>) {
    && Stepwise.TakenMessages(a) == Stepwise.TakenMessages(b)
    && Stepwise.FlushedBodies(a) == Stepwise.FlushedBodies(b)
    && Stepwise.FlushReports(a) == Stepwise.FlushReports(b)
    && Stepwise.SentBuffers(a) == Stepwise.SentBuffers(b)
    && Stepwise.LastReason(a) == Stepwise.LastReason(b)
  }

  lemma StayUnobserved(acts: seq<Act>)
    ensures SameObserved(acts + [Stepwise.Stay], acts)
  {
    Stepwise.ObserveSnoc(acts, Stepwise.Stay);
    Stepwise.ReasonSnoc(acts, Stepwise.Stay);
  }

  lemma SameSnoc(a: seq<Act>, b: seq<Act>, act: Act)
    requires SameObserved(a, b)
    ensures SameObserved(a + [act], b + [act])
  {
    Stepwise.ObserveSnoc(a, act);
    Stepwise.ReasonSnoc(a, act);
    Stepwise.ObserveSnoc(b, act);
    Stepwise.ReasonSnoc(b, act);
  }

  /** Steps in which the indexer has no part are not observed. */
  lemma {:induction false} VisibleObserved(acts: seq<Act>)
    ensures SameObserved(Visible(acts), acts)
  {
    if acts != [] {
      var front, a := acts[..|acts| - 1], acts[|acts| - 1];
      VisibleObserved(front);
      assert acts == front + [a];
      VisibleSnoc(front, a);
      if a.Stay? {
        StayUnobserved(front);
        assert Visible(front) + [] == Visible(front);
      } else {
        SameSnoc(Visible(front), front, a);
      }
    }
  }

  /** The loop has returned before the events after the first i, if there are any. */
  lemma {:induction false} CutSchedule(env: IndexerSpec.Env, start: int, events: seq<IndexerSpec.Event>)
    returns (i: nat)
    ensures i <= |events| && Unfolding.WholeFrom(env, start, events[..i])
    ensures IndexerSpec.Run(env, start, events[..i]) == IndexerSpec.Run(env, start, events)
    ensures Batching.Received(events[..i]) == Batching.Received(events)
    decreases |events|
  {
    if events == [] {
      i := 0;
    } else {
      var front := events[..|events| - 1];
      if IndexerSpec.Run(env, start, front).1 == IndexerSpec.Running {
        i := |events|;
        assert events[..i] == events;
      } else {
        i := CutSchedule(env, start, front);
        assert events[..i] == front[..i];
        Batching.RunningWhileLive(env, start, front);
      }
    }
  }

  /** What indexer 0 has done in the run is what the sequential indexer does on the schedule, and it
      is where that is: same messages, flush reports, bodies, sent buffers, and end; same buffer
      between two events; and its error channel is closed if the sequential one's is. */
  ghost predicate Realizes(c: Setup, trace: seq<Label>, s: State,
                           env: IndexerSpec.Env, start: int, events: seq<IndexerSpec.Event>)
  {
    var (spec, o) := IndexerSpec.Run(env, start, events);
    var acts := Acts(c, Init(c), trace, 0);
    && Trace(c, Init(c), trace, s) && At(s, 0)
    && Stepwise.TakenMessages(acts) == Minimality.Contents(Batching.Received(events))
    && Stepwise.FlushReports(acts) == IndexerSpec.Reports(spec.flushes)
    && Stepwise.FlushedBodies(acts) == Stepwise.FlushBodies(spec.flushes)
    && Stepwise.SentBuffers(acts) == spec.sink.sent
    && EndsAs(s.lanes[0].pc, o)
    && (o == IndexerSpec.Running ==>
          && Render(Load(s.mem, s.lanes[0].ptr)) == IndexerSpec.Body(spec.pending)
          && s.lanes[0].count == |spec.pending|)
    && (s.lanes[0].errClosed <==> spec.sink.closed)
  }

  predicate EndsAs(pc: IndexerPc, o: IndexerSpec.Outcome) {
    match o
    case Running => pc.ISelect?
    case Stopped => pc.IDone?
    case Errored => pc.IFailed?
  }

  lemma PhaseIs(s: State, o: IndexerSpec.Outcome)
    requires At(s, 0) && PhaseOf(s.lanes[0].pc) == Unfolding.PhaseAfter(o)
    ensures EndsAs(s.lanes[0].pc, o)
  {
  }

  lemma ActsSuit(env: IndexerSpec.Env, acts: seq<Act>, events: seq<IndexerSpec.Event>)
    requires Unfolding.Answered(env, acts) && Stepwise.TakenMessages(acts) == Stepwise.Bodies(events)
    requires forall e :: e in events && e.Msg? ==> IsBody(e.body)
    ensures forall a :: a in acts ==> Suits(env, a)
  {
    BodiesAreBodies(events);
    TakenAreTaken(acts);
    forall a | a in acts ensures Suits(env, a) {
      var j :| 0 <= j < |acts| && acts[j] == a;
      if a.Call? {
        assert a.resp == Unfolding.NextResponse(env, |Stepwise.Responses(acts[..j])|, a.body);
      }
    }
  }

  lemma {:induction false} BodiesAreBodies(events: seq<IndexerSpec.Event>)
    requires forall e :: e in events && e.Msg? ==> IsBody(e.body)
    ensures forall m :: m in Stepwise.Bodies(events) ==> IsBody(m)
  {
    if events != [] {
      BodiesAreBodies(events[..|events| - 1]);
    }
  }

  lemma {:induction false} TakenAreTaken(acts: seq<Act>)
    ensures forall a :: a in acts && a.Take? ==> a.body in Stepwise.TakenMessages(acts)
  {
    if acts != [] {
      TakenAreTaken(acts[..|acts| - 1]);
      assert acts == acts[..|acts| - 1] + [acts[|acts| - 1]];
    }
  }

  /** Whatever the sequential indexer does, on any schedule of bulk bodies and with any responses
      that fit their documents, an indexer of the pipeline does in some run: with any number of
      indexers and any capacities. */
  lemma IndexerIsALane(c: Setup, env: IndexerSpec.Env, start: int, events: seq<IndexerSpec.Event>)
    returns (trace: seq<Label>, s: State)
    requires c.n >= 1 && Fits(c, env) && FitsDocuments(env)
    requires forall e :: e in events && e.Msg? ==> IsBody(e.body)
    ensures Realizes(c, trace, s, env, start, events)
  {
    var i := CutSchedule(env, start, events);
    var whole := events[..i];
    var acts := Unfolding.RunDoes(env, start, whole);
    ActsSuit(env, acts, whole);
    s := PerformsAll(c, env, acts);
    trace :| RunsTo(c, trace, s, acts);
    WholeReceived(env, start, whole);
    RunRealizes(c, trace, s, env, start, whole, acts);
  }

  lemma WholeReceived(env: IndexerSpec.Env, start: int, events: seq<IndexerSpec.Event>)
    requires Unfolding.WholeFrom(env, start, events)
    ensures Minimality.Contents(Batching.Received(events)) == Stepwise.Bodies(events)
  {
    if events != [] {
      Batching.RunningWhileLive(env, start, events[..|events| - 1]);
    }
    LaneBatching.ReceivedBodies(events);
  }

  lemma RunRealizes(c: Setup, trace: seq<Label>, s: State, env: IndexerSpec.Env, start: int,
                    events: seq<IndexerSpec.Event>, acts: seq<Act>)
    requires RunsTo(c, trace, s, acts) && At(s, 0) && Stepwise.Playable(env, acts) && Fits(c, env)
    requires Stepwise.Play(env, acts) == ViewOf(s, 0)
    requires var (spec, o) := IndexerSpec.Run(env, start, events);
             Unfolding.Does(env, acts, spec, Unfolding.PhaseAfter(o), [])
    requires Stepwise.TakenMessages(acts) == Minimality.Contents(Batching.Received(events))
    ensures Realizes(c, trace, s, env, start, events)
  {
    var (spec, o) := IndexerSpec.Run(env, start, events);
    VisibleObserved(Acts(c, Init(c), trace, 0));
    PhaseIs(s, o);
    ClosedAlike(c, trace, s, env, start, events);
  }

  lemma ClosedAlike(c: Setup, trace: seq<Label>, s: State, env: IndexerSpec.Env, start: int,
                    events: seq<IndexerSpec.Event>)
    requires Trace(c, Init(c), trace, s) && At(s, 0) && Fits(c, env)
    requires EndsAs(s.lanes[0].pc, IndexerSpec.Run(env, start, events).1)
    ensures s.lanes[0].errClosed <==> IndexerSpec.Run(env, start, events).0.sink.closed
  {
    Discipline.ReachableDisciplined(c, s);
    assert Discipline.LaneOk(c, s.lanes[0], Discipline.Drained(s));
    Reasons.ClosedExactly(env, start, events);
  }
}
