/** Shutdown: once the context is cancelled or the consumer has stopped, the pipeline drains and
    ends, and then every consumed document has a final outcome. */
module Shutdown {
  import opened Documents
  import opened Pipeline
  import opened Discipline
  import Ownership
  import Conservation
  import Outcomes
  import IndexerSpec

  // ------------------------------------------------------------- measure

  function ConsumerWeight(pc: ConsumerPc): nat {
    match pc
    case CStarting => 2
    case CSelect => 1
    case CPolling => 35
    case CSending(_) => 34
    case CStopped => 0
  }

  function ContWeight(k: Cont): nat {
    match k
    case ThenBytes(_) => 45
    case ThenAppend(_) => 30
    case ThenSelect => 15
    case ThenReturn => 0
  }

  function PcWeight(pc: IndexerPc): nat {
    match pc
    case ISelect => 15
    case ITime(_) => 46
    case IBytes(_) => 45
    case IAppend(_) => 30
    case IFlush(k) => 14 + ContWeight(k)
    case IPut(_, k) => 12 + ContWeight(k)
    case ISend(_, k) => 10 + ContWeight(k)
    case IGet(k) => 1 + ContWeight(k)
    case IDone => 0
    case IFailed => 0
  }

  function ForwarderWeight(pc: ForwarderPc): nat {
    match pc
    case FRange => 1
    case FHold(_) => 6
    case FDone => 0
  }

  function ProducerWeight(pc: ProducerPc): nat {
    match pc
    case PStarting => 2
    case PRange => 1
    case PHold(_) => 3
    case PRetry(_) => 2
    case _ => 0
  }

  /** Every buffered message may still cost a flush by the tick. */
  function LaneWeight(l: Lane): nat {
    PcWeight(l.pc) + (if Unsettled(l.pc) && !l.pc.IFlush? then 14 * l.count else 0)
    + 7 * |l.err| + ForwarderWeight(l.fwd)
  }

  function LanesWeight(ls: seq<Lane>): nat {
    if ls == [] then 0 else LaneWeight(ls[0]) + LanesWeight(ls[1..])
  }

  function Measure(s: State): nat {
    ConsumerWeight(s.cpc) + 32 * |s.inq| + LanesWeight(s.lanes) + 4 * |s.out| + ProducerWeight(s.ppc)
    + (if s.closerDone then 0 else 1) + if s.cancelled then 0 else 1
  }

  predicate Stopping(s: State) {
    s.cancelled || s.cpc.CStopped?
  }

  predicate IsTick(l: Label) {
    l.Loop? && (l.ls.TickIdle? || l.ls.TickFlush?)
  }

  predicate IsFailure(l: Label) {
    (l.Loop? && l.ls.TickFail?) || (l.Producer? && l.ps.ProducerFail?)
  }

  lemma {:induction false} SwapWeight(ls: seq<Lane>, i: nat, l: Lane)
    requires i < |ls|
    ensures LanesWeight(ls[i := l]) + LaneWeight(ls[i]) == LanesWeight(ls) + LaneWeight(l)
  {
    if i == 0 {
      assert ls[0 := l][1..] == ls[1..];
    } else {
      assert ls[i := l][1..] == ls[1..][i - 1 := l];
      SwapWeight(ls[1..], i - 1, l);
    }
  }

  lemma ConsumerDescends(c: Setup, s: State, cs: ConsumerStep)
    requires Stopping(s) && ConsumerCan(c, s, cs) && (s.cpc.CStopped? ==> s.inClosed)
    ensures Measure(ConsumerNext(c, s, cs)) < Measure(s)
  {
    if cs.ConsumerHand? {
      SwapWeight(s.lanes, cs.to, ConsumerNext(c, s, cs).lanes[cs.to]);
    }
  }

  /** A step of one lane that lowers its weight. */
  lemma LaneDescends(s: State, s': State, i: nat)
    requires At(s, i) && At(s', i) && s'.lanes == s.lanes[i := s'.lanes[i]]
    requires s'.cpc == s.cpc && s'.inq == s.inq && s'.out == s.out && s'.ppc == s.ppc
    requires s'.closerDone == s.closerDone && (s.cancelled ==> s'.cancelled)
    ensures LaneWeight(s'.lanes[i]) <= LaneWeight(s.lanes[i]) ==> Measure(s') <= Measure(s)
    ensures LaneWeight(s'.lanes[i]) < LaneWeight(s.lanes[i]) ==> Measure(s') < Measure(s)
  {
    SwapWeight(s.lanes, i, s'.lanes[i]);
  }

  lemma ReceiveDescends(s: State, i: nat)
    requires At(s, i) && s.lanes[i].pc.ISelect? && s.inq != []
    ensures Measure(DoReceive(s, i)) < Measure(s)
  {
    SwapWeight(s.lanes, i, DoReceive(s, i).lanes[i]);
  }

  lemma LoopDescends(c: Setup, s: State, i: nat, ls: LoopStep)
    requires LoopCan(s, i, ls)
    ensures Measure(LoopNext(c, s, i, ls)) <= Measure(s)
    ensures !ls.TickIdle? && !ls.TickFlush? ==> Measure(LoopNext(c, s, i, ls)) < Measure(s)
  {
    match ls {
      case Receive => ReceiveDescends(s, i);
      case TickIdle =>
      case TickFail => FailDescends(c, s, i);
      case AppendMsg => AppendDescends(c, s, i);
      case _ => TestDescends(c, s, i, ls);
    }
  }

  lemma FailDescends(c: Setup, s: State, i: nat)
    requires At(s, i) && s.lanes[i].pc.ISelect?
    ensures Measure(DoTickFail(c, s, i)) < Measure(s)
  {
    LaneDescends(s, DoTickFail(c, s, i), i);
  }

  lemma GoToDescends(s: State, i: nat, pc: IndexerPc)
    requires At(s, i)
    ensures var l, l' := s.lanes[i], s.lanes[i].(pc := pc);
            && (LaneWeight(l') <= LaneWeight(l) ==> Measure(GoTo(s, i, pc)) <= Measure(s))
            && (LaneWeight(l') < LaneWeight(l) ==> Measure(GoTo(s, i, pc)) < Measure(s))
  {
    LaneDescends(s, GoTo(s, i, pc), i);
  }

  lemma TestDescends(c: Setup, s: State, i: nat, ls: LoopStep)
    requires LoopCan(s, i, ls) && (ls.SeeClosed? || ls.TickFlush? || ls.TimeTest? || ls.BytesTest?)
    ensures Measure(LoopNext(c, s, i, ls)) <= Measure(s)
    ensures !ls.TickFlush? ==> Measure(LoopNext(c, s, i, ls)) < Measure(s)
  {
    match ls {
      case SeeClosed => GoToDescends(s, i, IFlush(ThenReturn));
      case TickFlush => GoToDescends(s, i, IFlush(ThenSelect));
      case TimeTest(fires) => GoToDescends(s, i, DoTimeTest(s, i, fires).lanes[i].pc);
      case BytesTest => GoToDescends(s, i, DoBytesTest(c, s, i).lanes[i].pc);
    }
  }

  lemma AppendDescends(c: Setup, s: State, i: nat)
    requires LoopCan(s, i, AppendMsg)
    ensures Measure(DoAppendMsg(c, s, i)) < Measure(s)
  {
    LaneDescends(s, DoAppendMsg(c, s, i), i);
  }

  lemma FlushDescends(c: Setup, s: State, i: nat, fs: FlushStep)
    requires FlushCan(c, s, i, fs)
    ensures Measure(FlushNext(c, s, i, fs)) < Measure(s)
  {
    match fs {
      case BulkCall(resp, get) => BulkCallDescends(c, s, i, resp, get);
      case PutBulk => PutDescends(s, i);
      case DropErrors => DropDescends(s, i);
      case SendErrors => SendDescends(s, i);
      case HandErrors =>
        SendDescends(s, i);
        ForwardDescends(DoSendErrors(s, i), i);
      case GetBulk(get) => GetDescends(c, s, i, get);
    }
  }

  lemma PutDescends(s: State, i: nat)
    requires At(s, i) && s.lanes[i].pc.IPut?
    ensures Measure(DoPutBulk(s, i)) < Measure(s)
  {
    LaneDescends(s, DoPutBulk(s, i), i);
  }

  lemma DropDescends(s: State, i: nat)
    requires At(s, i) && s.lanes[i].pc.ISend?
    ensures Measure(DoDropErrors(s, i)) < Measure(s)
  {
    LaneDescends(s, DoDropErrors(s, i), i);
  }

  lemma GetDescends(c: Setup, s: State, i: nat, get: BufId)
    requires At(s, i) && s.lanes[i].pc.IGet?
    ensures Measure(DoGetBulk(c, s, i, get)) < Measure(s)
  {
    LaneDescends(s, DoGetBulk(c, s, i, get), i);
  }

  lemma BulkCallDescends(c: Setup, s: State, i: nat, resp: Response, get: BufId)
    requires FlushCan(c, s, i, BulkCall(resp, get))
    ensures Measure(DoBulkCall(s, i, resp, get)) < Measure(s)
  {
    BulkCallShape(s, i, resp, get);
    GoToDescends(s, i, DoBulkCall(s, i, resp, get).lanes[i].pc);
  }

  lemma SendDescends(s: State, i: nat)
    requires At(s, i) && s.lanes[i].pc.ISend?
    ensures Measure(DoSendErrors(s, i)) < Measure(s)
  {
    SwapWeight(s.lanes, i, DoSendErrors(s, i).lanes[i]);
  }

  lemma ForwardDescends(s: State, i: nat)
    requires At(s, i) && s.lanes[i].err != [] && s.lanes[i].fwd.FRange?
    ensures Measure(DoForward(s, i)) < Measure(s)
  {
    SwapWeight(s.lanes, i, DoForward(s, i).lanes[i]);
  }

  lemma MergeDescends(c: Setup, s: State, i: nat, ms: ForwarderStep)
    requires MergeCan(c, s, i, ms)
    ensures Measure(MergeNext(c, s, i, ms)) < Measure(s)
  {
    if ms.Forward? {
      ForwardDescends(s, i);
    } else {
      SwapWeight(s.lanes, i, MergeNext(c, s, i, ms).lanes[i]);
    }
  }

  lemma ProducerDescends(s: State, ps: ProducerStep)
    requires ProducerCan(s, ps)
    ensures Measure(ProducerNext(s, ps)) < Measure(s)
  {
    match ps {
      case ProducerReceive => ReceiveOutDescends(s);
      case Produce(result) =>
        if result.QueueFull? {
          MoveDescends(s, s.(ppc := PRetry(s.ppc.msg)));
        } else {
          SettleDescends(s, result.Produced?);
        }
      case Retry(ok) => SettleDescends(s, ok);
      case _ => MoveDescends(s, ProducerNext(s, ps));
    }
  }

  lemma ReceiveOutDescends(s: State)
    requires s.ppc.PRange? && s.out != []
    ensures Measure(DoProducerReceive(s)) < Measure(s)
  {
  }

  /** A step of the producer alone. */
  lemma MoveDescends(s: State, s': State)
    requires s' == s.(ppc := s'.ppc, cancelled := s'.cancelled) && (s.cancelled ==> s'.cancelled)
    requires ProducerWeight(s'.ppc) < ProducerWeight(s.ppc)
    ensures Measure(s') < Measure(s)
  {
  }

  lemma SettleDescends(s: State, ok: bool)
    requires s.ppc.PHold? || s.ppc.PRetry?
    ensures Measure(Settle(s, s.ppc.msg, ok)) < Measure(s)
  {
  }

  /** Once stopping, every step but a tick strictly lowers the measure, ticks never raise it, and
      the pipeline stays stopping. */
  lemma StepDescends(c: Setup, s: State, l: Label)
    requires Disciplined(c, s) && Stopping(s) && Enabled(c, s, l)
    ensures var s' := Next(c, s, l);
            && Stopping(s') && Measure(s') <= Measure(s)
            && (!IsTick(l) ==> Measure(s') < Measure(s))
  {
    StepLasting(c, s, l);
    match l {
      case Consumer(cs) => ConsumerDescends(c, s, cs);
      case Loop(i, ls) => LoopDescends(c, s, i, ls);
      case Flush(i, fs) => FlushDescends(c, s, i, fs);
      case Merge(i, ms) => MergeDescends(c, s, i, ms);
      case Producer(ps) => ProducerDescends(s, ps);
      case _ =>
    }
  }

  /** What never changes back: a cancelled context, a stopped consumer, a failed goroutine. */
  predicate Lasting(s: State, s': State, failing: Option<nat>) {
    && (s.cancelled ==> s'.cancelled) && (s.cpc.CStopped? ==> s'.cpc.CStopped?)
    && |s'.lanes| == |s.lanes|
    && (forall j: nat :: j < |s.lanes| ==> (s'.lanes[j].pc.IFailed? <==> s.lanes[j].pc.IFailed? || failing == Some(j)))
    && (failing == None ==> s'.ledger.lostIndexer == s.ledger.lostIndexer)
  }

  lemma ConsumerLasting(c: Setup, s: State, cs: ConsumerStep)
    requires ConsumerCan(c, s, cs)
    ensures Lasting(s, ConsumerNext(c, s, cs), None) && ConsumerNext(c, s, cs).ppc == s.ppc
  {
  }

  /** A step of one indexer. */
  lemma LaneLasting(s: State, s': State, i: nat, l': Lane, failing: bool)
    requires At(s, i) && s'.lanes == s.lanes[i := l'] && s'.cpc == s.cpc && (s.cancelled ==> s'.cancelled)
    requires l'.pc.IFailed? <==> s.lanes[i].pc.IFailed? || failing
    requires failing || s'.ledger.lostIndexer == s.ledger.lostIndexer
    ensures Lasting(s, s', if failing then Some(i) else None)
  {
  }

  lemma LoopLasting(c: Setup, s: State, i: nat, ls: LoopStep)
    requires LoopCan(s, i, ls)
    ensures Lasting(s, LoopNext(c, s, i, ls), if ls.TickFail? then Some(i) else None)
    ensures LoopNext(c, s, i, ls).ppc == s.ppc
  {
    match ls {
      case TickIdle =>
      case TickFail => LaneLasting(s, DoTickFail(c, s, i), i, DoTickFail(c, s, i).lanes[i], true);
      case AppendMsg => LaneLasting(s, DoAppendMsg(c, s, i), i, DoAppendMsg(c, s, i).lanes[i], false);
      case Receive => LaneLasting(s, DoReceive(s, i), i, DoReceive(s, i).lanes[i], false);
      case _ => GoToLasting(s, i, LoopNext(c, s, i, ls).lanes[i].pc);
    }
  }

  lemma GoToLasting(s: State, i: nat, pc: IndexerPc)
    requires At(s, i) && !s.lanes[i].pc.IFailed? && !pc.IFailed?
    ensures Lasting(s, GoTo(s, i, pc), None)
  {
    LaneLasting(s, GoTo(s, i, pc), i, s.lanes[i].(pc := pc), false);
  }

  lemma FlushLasting(c: Setup, s: State, i: nat, fs: FlushStep)
    requires FlushCan(c, s, i, fs)
    ensures Lasting(s, FlushNext(c, s, i, fs), None) && FlushNext(c, s, i, fs).ppc == s.ppc
  {
    match fs {
      case BulkCall(resp, get) =>
        BulkCallShape(s, i, resp, get);
        CallLasting(s, DoBulkCall(s, i, resp, get), i);
      case _ => LaneLasting(s, FlushNext(c, s, i, fs), i, FlushNext(c, s, i, fs).lanes[i], false);
    }
  }

  lemma CallLasting(s: State, s': State, i: nat)
    requires At(s, i) && s.lanes[i].pc.IFlush? && CallReturned(s, s', i)
    ensures Lasting(s, s', None) && s'.ppc == s.ppc
  {
    LaneLasting(s, s', i, s'.lanes[i], false);
  }

  lemma MergeLasting(c: Setup, s: State, i: nat, ms: ForwarderStep)
    requires MergeCan(c, s, i, ms)
    ensures Lasting(s, MergeNext(c, s, i, ms), None) && (s.ppc.PFailed? <==> MergeNext(c, s, i, ms).ppc.PFailed?)
  {
  }

  lemma ProducerLasting(s: State, ps: ProducerStep)
    requires ProducerCan(s, ps)
    ensures Lasting(s, ProducerNext(s, ps), None)
    ensures ProducerNext(s, ps).ppc.PFailed? <==> s.ppc.PFailed? || ps.ProducerFail?
  {
    match ps {
      case Produce(result) =>
        if !result.QueueFull? {
          SettleLasting(s, s.ppc.msg, result.Produced?);
        }
      case Retry(ok) => SettleLasting(s, s.ppc.msg, ok);
      case _ =>
    }
  }

  lemma SettleLasting(s: State, m: BufId, ok: bool)
    ensures Lasting(s, Settle(s, m, ok), None)
  {
  }

  function Failing(l: Label): Option<nat> {
    if l.Loop? && l.ls.TickFail? then Some(l.i) else None
  }

  lemma StepLasting(c: Setup, s: State, l: Label)
    requires Enabled(c, s, l)
    ensures Lasting(s, Next(c, s, l), Failing(l))
    ensures Next(c, s, l).ppc.PFailed? <==> s.ppc.PFailed? || l == Producer(ProducerFail)
  {
    match l {
      case Consumer(cs) => ConsumerLasting(c, s, cs);
      case Loop(i, ls) => LoopLasting(c, s, i, ls);
      case Flush(i, fs) => FlushLasting(c, s, i, fs);
      case Merge(i, ms) => MergeLasting(c, s, i, ms);
      case Producer(ps) => ProducerLasting(s, ps);
      case _ =>
    }
  }

  function Work(trace: seq<Label>): nat {
    if trace == [] then 0 else (if IsTick(trace[0]) then 0 else 1) + Work(trace[1..])
  }

  /** From a stopping state, no run takes more steps other than ticks than the measure says. */
  lemma {:induction false} WorkBounded(c: Setup, a: State, trace: seq<Label>, b: State)
    requires Disciplined(c, a) && Stopping(a) && Trace(c, a, trace, b)
    ensures Work(trace) + Measure(b) <= Measure(a)
    decreases |trace|
  {
    if trace != [] {
      StepDescends(c, a, trace[0]);
      StepKeepsDiscipline(c, a, trace[0]);
      WorkBounded(c, Next(c, a, trace[0]), trace[1..], b);
    }
  }

  /** An endless run: labels(k) leads from states(k) to states(k + 1). */
  ghost predicate EndlessRun(c: Setup, states: nat -> State, labels: nat -> Label) {
    forall k: nat :: Enabled(c, states(k), labels(k)) && states(k + 1) == Next(c, states(k), labels(k))
  }

  /** Stopping, with at most m steps to go. */
  ghost predicate WindsDown(c: Setup, s: State, m: nat) {
    Disciplined(c, s) && Stopping(s) && Measure(s) <= m
  }

  /** An endless stopping run takes finitely many steps other than ticks: from some point on it
      only ticks. */
  lemma {:induction false} EndlessRunsOnlyTick(c: Setup, states: nat -> State, labels: nat -> Label, k: nat, m: nat)
    returns (quiet: nat)
    requires EndlessRun(c, states, labels) && WindsDown(c, states(k), m)
    ensures quiet >= k && WindsDown(c, states(quiet), m)
    ensures forall j: nat :: j >= quiet ==> IsTick(labels(j))
    decreases m
  {
    if j: nat :| j >= k && !IsTick(labels(j)) {
      RunDescends(c, states, labels, k, j, m);
      RunStep(c, states, labels, j, m);
      quiet := EndlessRunsOnlyTick(c, states, labels, j + 1, m - 1);
    } else {
      quiet := k;
    }
  }

  /** WindsDown, at point j of the run. */
  ghost predicate WindsDownAt(c: Setup, states: nat -> State, j: nat, m: nat) {
    WindsDown(c, states(j), m)
  }

  lemma {:induction false} RunDescends(c: Setup, states: nat -> State, labels: nat -> Label, k: nat, j: nat, m: nat)
    requires EndlessRun(c, states, labels) && WindsDownAt(c, states, k, m) && k <= j
    ensures WindsDownAt(c, states, j, m)
    decreases j - k
  {
    if k < j {
      RunStepAt(c, states, labels, k, k + 1, m);
      RunDescends(c, states, labels, k + 1, j, m);
    }
  }

  lemma RunStepAt(c: Setup, states: nat -> State, labels: nat -> Label, j: nat, next: nat, m: nat)
    requires EndlessRun(c, states, labels) && WindsDownAt(c, states, j, m) && next == j + 1
    ensures WindsDownAt(c, states, next, m)
  {
    RunStep(c, states, labels, j, m);
  }

  lemma RunStep(c: Setup, states: nat -> State, labels: nat -> Label, j: nat, m: nat)
    requires EndlessRun(c, states, labels) && WindsDown(c, states(j), m)
    ensures WindsDown(c, states(j + 1), m)
    ensures !IsTick(labels(j)) ==> m > 0 && WindsDown(c, states(j + 1), m - 1)
  {
    var s, l := states(j), labels(j);
    assert Enabled(c, s, l) && states(j + 1) == Next(c, s, l);
    StepWindsDown(c, s, l, m);
  }

  lemma StepWindsDown(c: Setup, s: State, l: Label, m: nat)
    requires WindsDown(c, s, m) && Enabled(c, s, l)
    ensures WindsDown(c, Next(c, s, l), m)
    ensures !IsTick(l) ==> m > 0 && WindsDown(c, Next(c, s, l), m - 1)
  {
    StepDescends(c, s, l);
    StepKeepsDiscipline(c, s, l);
  }

  // --------------------------------------------------- what is not ours to decide

  predicate OnePerDocument(resp: Response, docs: seq<WfDoc>)
    requires resp.Decoded?
  {
    |resp.items| <= |docs| && forall k :: 0 <= k < |resp.items| ==> |resp.items[k]| == 1
  }

  /** Wherever a goroutine waits for Kafka, Elasticsearch or the pools, every answer is possible:
      no property of the pipeline rests on leaving one out. */
  lemma EveryAnswerPossible(c: Setup, s: State, i: nat, get: BufId, docs: seq<WfDoc>, resp: Response,
                            result: ProduceResult, ok: bool)
    ensures s.cpc.CStarting? ==>
              Enabled(c, s, Consumer(ConsumerStart)) && Enabled(c, s, Consumer(ConsumerFail))
    ensures s.cpc.CPolling? ==>
              && Enabled(c, s, Consumer(PollNothing)) && Enabled(c, s, Consumer(ConsumerFail))
              && (s.msgPool[get] > 0 || get == |s.mem| ==> Enabled(c, s, Consumer(PollMessage(get, docs))))
    ensures At(s, i) && s.lanes[i].pc.IFlush? && (s.msgPool[get] > 0 || get == |s.mem|) ==>
              !resp.Decoded? || !resp.hasErrors || OnePerDocument(resp, Load(s.mem, s.lanes[i].ptr)) ==>
              Enabled(c, s, Flush(i, BulkCall(resp, get)))
    ensures At(s, i) && s.lanes[i].pc.IGet? && (s.bulkPool[get] > 0 || get == |s.mem|) ==>
              Enabled(c, s, Flush(i, GetBulk(get)))
    ensures At(s, i) && s.lanes[i].pc.ISelect? ==> Enabled(c, s, Loop(i, TickFail))
    ensures s.ppc.PStarting? ==> Enabled(c, s, Producer(ProducerStart)) && Enabled(c, s, Producer(ProducerFail))
    ensures s.ppc.PHold? ==> Enabled(c, s, Producer(Produce(result)))
    ensures s.ppc.PRetry? ==> Enabled(c, s, Producer(Retry(ok)))
    ensures !s.cancelled ==> Enabled(c, s, Cancel)
  {
  }

  /** The context is cancelled by the signal and by the error of any goroutine, and by nothing
      else. */
  lemma CancelledExactly(c: Setup, s: State, l: Label)
    requires Enabled(c, s, l)
    ensures Next(c, s, l).cancelled <==>
            || s.cancelled || l == Cancel || l == Consumer(ConsumerFail) || l == Producer(ProducerFail)
            || (l.Loop? && l.ls == TickFail)
  {
    match l {
      case Consumer(cs) => ConsumerCancels(c, s, cs);
      case Loop(i, ls) => LoopCancels(c, s, i, ls);
      case Flush(i, fs) => FlushCancels(c, s, i, fs);
      case Merge(i, ms) => assert MergeNext(c, s, i, ms).cancelled == s.cancelled;
      case Producer(ps) => ProducerCancels(s, ps);
      case _ =>
    }
  }

  lemma ConsumerCancels(c: Setup, s: State, cs: ConsumerStep)
    requires ConsumerCan(c, s, cs)
    ensures ConsumerNext(c, s, cs).cancelled <==> s.cancelled || cs == ConsumerFail
  {
  }

  lemma LoopCancels(c: Setup, s: State, i: nat, ls: LoopStep)
    requires LoopCan(s, i, ls)
    ensures LoopNext(c, s, i, ls).cancelled <==> s.cancelled || ls == TickFail
  {
  }

  lemma FlushCancels(c: Setup, s: State, i: nat, fs: FlushStep)
    requires FlushCan(c, s, i, fs)
    ensures FlushNext(c, s, i, fs).cancelled == s.cancelled
  {
    if fs.BulkCall? {
      BulkCallShape(s, i, fs.resp, fs.get);
    }
  }

  lemma ProducerCancels(s: State, ps: ProducerStep)
    requires ProducerCan(s, ps)
    ensures ProducerNext(s, ps).cancelled <==> s.cancelled || ps == ProducerFail
  {
  }

  // ------------------------------------------------------------ progress

  /** Every goroutine has returned: indexers by their final flush or by an error. */
  predicate Finished(s: State) {
    s.cpc.CStopped? && DownstreamEnded(s)
  }

  predicate DownstreamEnded(s: State) {
    s.closerDone && s.ppc.PDone? && forall i :: 0 <= i < |s.lanes| ==> Ended(s.lanes[i].pc)
  }

  /** The consumer waits to send on a full channel that no indexer reads any more. */
  predicate Abandoned(c: Setup, s: State) {
    s.cpc.CSending? && |s.inq| == c.inCap && forall i :: 0 <= i < |s.lanes| ==> s.lanes[i].pc.IFailed?
  }

  /** A step that is not a tick, a cancellation or a failure. */
  predicate Useful(c: Setup, s: State, l: Label) {
    Enabled(c, s, l) && !IsTick(l) && !l.Cancel? && !IsFailure(l)
  }

  ghost predicate Stuck(c: Setup, s: State) {
    forall l :: !Useful(c, s, l)
  }

  /** The consumer can move if its channel has room or, when unbuffered, indexer i receives. */
  lemma ConsumerProgress(c: Setup, s: State, i: nat) returns (l: Label)
    requires StagesOk(c, s) && !s.cpc.CStopped?
    requires s.cpc.CSending? ==> |s.inq| < c.inCap || (c.inCap == 0 && At(s, i) && s.lanes[i].pc.ISelect?)
    ensures Useful(c, s, l)
  {
    match s.cpc {
      case CStarting => l := Consumer(ConsumerStart);
      case CSelect => l := Consumer(ConsumerCheck);
      case CPolling => l := Consumer(PollNothing);
      case CSending(_) => l := Consumer(if c.inCap == 0 then ConsumerHand(i) else ConsumerSend);
    }
  }

  /** The indexer waits to send on a full error channel whose forwarder does not receive. */
  predicate SendBlocked(c: Setup, s: State, i: nat)
    requires At(s, i)
  {
    var l := s.lanes[i];
    l.pc.ISend? && Wanted(c, s, i) && |l.err| == c.errCap && !(c.errCap == 0 && l.fwd.FRange?)
  }

  /** An indexer that has not ended, or the consumer it waits for, can move, unless it is blocked
      in a send. */
  lemma IndexerProgress(c: Setup, s: State, i: nat) returns (l: Label)
    requires Disciplined(c, s) && At(s, i) && !Ended(s.lanes[i].pc) && !SendBlocked(c, s, i)
    ensures Useful(c, s, l)
  {
    assert LaneOk(c, s.lanes[i], Drained(s));
    match s.lanes[i].pc {
      case ISelect =>
        if s.inq != [] {
          l := Loop(i, Receive);
        } else if s.inClosed {
          l := Loop(i, SeeClosed);
        } else {
          l := ConsumerProgress(c, s, i);
        }
      case ITime(_) => l := Loop(i, TimeTest(!MayFire(s.lanes[i], false)));
      case IBytes(_) => l := Loop(i, BytesTest);
      case IAppend(_) => l := Loop(i, AppendMsg);
      case IFlush(_) => l := Flush(i, BulkCall(NoResponse(), |s.mem|));
      case IPut(_, _) => l := Flush(i, PutBulk);
      case ISend(_, _) =>
        var full := |s.lanes[i].err| == c.errCap;
        l := Flush(i, if !Wanted(c, s, i) then DropErrors else if full then HandErrors else SendErrors);
      case IGet(_) => l := Flush(i, GetBulk(|s.mem|));
    }
  }

  /** A response the transport can always give. */
  function NoResponse(): Response {
    IndexerSpec.TransportError
  }

  /** A forwarder that still runs, or its indexer, can move when out has room, or when the
      producer receives from an unbuffered out. */
  lemma LaneProgress(c: Setup, s: State, i: nat) returns (l: Label)
    requires Disciplined(c, s) && Republishes(c) && At(s, i) && !s.lanes[i].fwd.FDone?
    requires s.lanes[i].fwd.FHold? ==> |s.out| < c.outCap || (c.outCap == 0 && s.ppc.PRange?)
    ensures Useful(c, s, l)
  {
    var lane := s.lanes[i];
    assert LaneOk(c, lane, Drained(s));
    if lane.fwd.FHold? {
      l := Merge(i, if c.outCap == 0 then ForwardHand else ForwardSend);
    } else if lane.err != [] {
      l := Merge(i, Forward);
    } else if lane.errClosed {
      l := Merge(i, ForwardEnd);
    } else {
      l := IndexerProgress(c, s, i);
    }
  }

  lemma ProducerProgress(c: Setup, s: State) returns (l: Label)
    requires Disciplined(c, s) && Republishes(c) && !s.ppc.PDone? && !s.ppc.PFailed?
    ensures Useful(c, s, l)
  {
    match s.ppc {
      case PStarting => l := Producer(ProducerStart);
      case PHold(_) => l := Producer(Produce(Produced));
      case PRetry(_) => l := Producer(Retry(true));
      case PRange =>
        if s.out != [] {
          l := Producer(ProducerReceive);
        } else if s.outClosed {
          l := Producer(ProducerEnd);
        } else if AllForwarded(s) {
          l := CloseOut;
        } else {
          var i: nat :| i < |s.lanes| && !s.lanes[i].fwd.FDone?;
          l := LaneProgress(c, s, i);
        }
    }
  }

  /** With the producer done (or absent), an indexer that has not ended has no error channel. */
  lemma OnlyWithoutProducer(c: Setup, s: State, i: nat)
    requires Disciplined(c, s) && s.ppc.PDone? && At(s, i) && !Ended(s.lanes[i].pc)
    ensures !Republishes(c)
  {
    assert LaneOk(c, s.lanes[i], Drained(s));
  }

  /** While the consumer runs, an indexer can only have ended by an error. */
  lemma EndedEarly(c: Setup, s: State)
    requires Disciplined(c, s) && DownstreamEnded(s) && !s.cpc.CStopped?
    ensures forall i :: 0 <= i < |s.lanes| ==> s.lanes[i].pc.IFailed?
  {
    forall i | 0 <= i < |s.lanes| ensures s.lanes[i].pc.IFailed? {
      assert LaneOk(c, s.lanes[i], Drained(s));
    }
  }

  /** No deadlock: unless the producer has failed, or all indexers have and the consumer is left
      with a message it cannot send, a pipeline that has not finished can take a step other than
      a tick, a cancellation or a failure. */
  lemma Progress(c: Setup, s: State) returns (l: Label)
    requires Disciplined(c, s) && c.n >= 1 && !s.ppc.PFailed?
    requires !Finished(s) && !(DownstreamEnded(s) && Abandoned(c, s))
    ensures Useful(c, s, l)
  {
    if !s.ppc.PDone? {
      l := ProducerProgress(c, s);
    } else if i: nat :| At(s, i) && !Ended(s.lanes[i].pc) {
      OnlyWithoutProducer(c, s, i);
      l := IndexerProgress(c, s, i);
    } else {
      assert DownstreamEnded(s);
      EndedEarly(c, s);
      l := ConsumerProgress(c, s, 0);
    }
  }

  /** The indexers that wait in their select. */
  function Selecting(ls: seq<Lane>): nat {
    if ls == [] then 0 else (if ls[0].pc.ISelect? then 1 else 0) + Selecting(ls[1..])
  }

  lemma {:induction false} SwapSelecting(ls: seq<Lane>, i: nat, l: Lane)
    requires i < |ls| && ls[i].pc.ISelect? && !l.pc.ISelect?
    ensures Selecting(ls[i := l]) + 1 == Selecting(ls)
  {
    if i == 0 {
      assert ls[0 := l][1..] == ls[1..];
    } else {
      assert ls[i := l][1..] == ls[1..][i - 1 := l];
      SwapSelecting(ls[1..], i - 1, l);
    }
  }

  /** A tick that flushes takes an indexer out of its select; one that does not changes nothing. */
  lemma TickStep(c: Setup, s: State, l: Label)
    requires Enabled(c, s, l) && IsTick(l)
    ensures if l.ls.TickIdle? then Next(c, s, l) == s else Selecting(Next(c, s, l).lanes) < Selecting(s.lanes)
  {
    if l.ls.TickFlush? {
      SwapSelecting(s.lanes, l.i, s.lanes[l.i].(pc := IFlush(ThenSelect)));
    }
  }

  ghost predicate OnlyTicks(labels: nat -> Label, k: nat) {
    forall j: nat :: j >= k ==> IsTick(labels(j))
  }

  /** An endless run of ticks stays in one state from some point on. */
  lemma {:induction false} TicksComeToRest(c: Setup, states: nat -> State, labels: nat -> Label, k: nat)
    returns (rest: nat)
    requires EndlessRun(c, states, labels) && OnlyTicks(labels, k)
    ensures rest >= k && forall j: nat :: j >= rest ==> states(j) == states(rest)
    decreases Selecting(states(k).lanes)
  {
    if j: nat :| j >= k && !labels(j).ls.TickIdle? {
      SelectingFalls(c, states, labels, k, j);
      rest := TicksComeToRest(c, states, labels, j + 1);
    } else {
      rest := k;
      forall j: nat | j >= rest ensures states(j) == states(rest) {
        StaysAtRest(c, states, labels, rest, j);
      }
    }
  }

  lemma OneTick(c: Setup, states: nat -> State, labels: nat -> Label, k: nat)
    requires EndlessRun(c, states, labels) && IsTick(labels(k))
    ensures if labels(k).ls.TickIdle? then states(k + 1) == states(k)
            else Selecting(states(k + 1).lanes) < Selecting(states(k).lanes)
  {
    assert Enabled(c, states(k), labels(k)) && states(k + 1) == Next(c, states(k), labels(k));
    TickStep(c, states(k), labels(k));
  }

  lemma {:induction false} SelectingFalls(c: Setup, states: nat -> State, labels: nat -> Label, k: nat, j: nat)
    requires EndlessRun(c, states, labels) && OnlyTicks(labels, k) && k <= j && !labels(j).ls.TickIdle?
    ensures Selecting(states(j + 1).lanes) < Selecting(states(k).lanes)
    decreases j - k
  {
    OneTick(c, states, labels, k);
    if k < j {
      SelectingFalls(c, states, labels, k + 1, j);
    }
  }

  lemma {:induction false} StaysAtRest(c: Setup, states: nat -> State, labels: nat -> Label, k: nat, j: nat)
    requires EndlessRun(c, states, labels) && k <= j
    requires forall n: nat :: k <= n ==> IsTick(labels(n)) && labels(n).ls.TickIdle?
    ensures states(j) == states(k)
    decreases j - k
  {
    if k < j {
      OneTick(c, states, labels, k);
      StaysAtRest(c, states, labels, k + 1, j);
    }
  }

  /** Every endless stopping run starves a step: from some point on one and the same step other
      than a tick, a cancellation or a failure is enabled for ever, and only ticks are taken. So
      a run in which ticks do not pre-empt other steps for ever comes to an end. */
  lemma EndlessRunsStarve(c: Setup, states: nat -> State, labels: nat -> Label, k: nat, m: nat)
    returns (rest: nat, l: Label)
    requires EndlessRun(c, states, labels) && WindsDown(c, states(k), m)
    ensures rest >= k
    ensures forall j: nat :: j >= rest ==> IsTick(labels(j)) && Useful(c, states(j), l)
  {
    var quiet := EndlessRunsOnlyTick(c, states, labels, k, m);
    rest := TicksComeToRest(c, states, labels, quiet);
    RestWindsDown(c, states, labels, quiet, rest, m);
    assert Enabled(c, states(rest), labels(rest)) && IsTick(labels(rest));
    l := IndexerProgress(c, states(rest), labels(rest).i);
  }

  lemma RestWindsDown(c: Setup, states: nat -> State, labels: nat -> Label, quiet: nat, rest: nat, m: nat)
    requires EndlessRun(c, states, labels) && WindsDown(c, states(quiet), m) && quiet <= rest
    ensures Disciplined(c, states(rest))
  {
    RunDescends(c, states, labels, quiet, rest, m);
  }

  /** Some indexer has not failed. */
  predicate Survivor(s: State) {
    exists i :: 0 <= i < |s.lanes| && !s.lanes[i].pc.IFailed?
  }

  lemma UsefulKeepsSurvivor(c: Setup, s: State, l: Label)
    requires Useful(c, s, l) && Survivor(s) && !s.ppc.PFailed?
    ensures Survivor(Next(c, s, l)) && !Next(c, s, l).ppc.PFailed?
  {
    StepLasting(c, s, l);
    var i :| 0 <= i < |s.lanes| && !s.lanes[i].pc.IFailed?;
    assert !Next(c, s, l).lanes[i].pc.IFailed?;
  }

  /** One surviving indexer is enough: from every stopping state with one, and a producer that
      has not failed, the pipeline can run to its end, within the measure. */
  lemma {:induction false} RunsToEnd(c: Setup, s: State) returns (trace: seq<Label>, end: State)
    requires Disciplined(c, s) && Stopping(s) && Survivor(s) && !s.ppc.PFailed?
    ensures Trace(c, s, trace, end) && Finished(end) && Survivor(end) && |trace| <= Measure(s)
    decreases Measure(s)
  {
    if Finished(s) {
      trace, end := [], s;
    } else {
      var l := Progress(c, s);
      StepDescends(c, s, l);
      StepKeepsDiscipline(c, s, l);
      UsefulKeepsSurvivor(c, s, l);
      var rest, e := RunsToEnd(c, Next(c, s, l));
      trace, end := [l] + rest, e;
      assert trace[1..] == rest;
    }
  }

  // ----------------------------------------------------------- at the end

  lemma {:induction false} LanesCarryNothing(ls: seq<Lane>, id: BufId)
    requires forall i :: 0 <= i < |ls| ==> Ended(ls[i].pc) && ls[i].err == [] && ls[i].fwd.FDone?
    ensures Ownership.LanesData(ls, id) == 0
  {
    if ls != [] {
      LanesCarryNothing(ls[1..], id);
    }
  }

  lemma FinishedHoldsNothing(c: Setup, s: State, id: BufId)
    requires Disciplined(c, s) && Finished(s) && Survivor(s)
    ensures Ownership.Data(s, id) == 0
  {
    forall i | 0 <= i < |s.lanes|
      ensures Ended(s.lanes[i].pc) && s.lanes[i].err == [] && s.lanes[i].fwd.FDone?
      ensures s.lanes[i].pc.IDone? ==> s.inq == []
    {
      assert LaneOk(c, s.lanes[i], Drained(s));
    }
    var j :| 0 <= j < |s.lanes| && !s.lanes[j].pc.IFailed?;
    assert s.lanes[j].pc.IDone?;
    LanesCarryNothing(s.lanes, id);
  }

  lemma {:induction false} NothingCarried(c: Setup, s: State, n: nat, d: WfDoc)
    requires Disciplined(c, s) && Finished(s) && Survivor(s)
    ensures Conservation.CarriedBelow(s, n, d) == 0
  {
    if n > 0 {
      FinishedHoldsNothing(c, s, n - 1);
      NothingCarried(c, s, n - 1, d);
    }
  }

  predicate NoIndexerLoss(s: State) {
    (exists i :: 0 <= i < |s.lanes| && s.lanes[i].pc.IFailed?) || s.ledger.lostIndexer == multiset{}
  }

  lemma StepNoIndexerLoss(c: Setup, s: State, l: Label)
    requires NoIndexerLoss(s) && Enabled(c, s, l)
    ensures NoIndexerLoss(Next(c, s, l))
  {
    StepLasting(c, s, l);
    var s' := Next(c, s, l);
    if i :| 0 <= i < |s.lanes| && s.lanes[i].pc.IFailed? {
      assert s'.lanes[i].pc.IFailed?;
    } else if l.Loop? && l.ls.TickFail? {
      assert s'.lanes[l.i].pc.IFailed?;
    }
  }

  lemma {:induction false} TraceNoIndexerLoss(c: Setup, a: State, trace: seq<Label>, b: State)
    requires NoIndexerLoss(a) && Trace(c, a, trace, b)
    ensures NoIndexerLoss(b)
    decreases |trace|
  {
    if trace != [] {
      StepNoIndexerLoss(c, a, trace[0]);
      TraceNoIndexerLoss(c, Next(c, a, trace[0]), trace[1..], b);
    }
  }

  /** End to end: when a pipeline with a surviving indexer has finished, nothing is in flight, and
      every document has been consumed exactly as often as, by the steps of the run, it was
      accepted, republished, or lost in a failed bulk call, a failed produce, for want of a
      producer, or in the buffer of an indexer that failed; the last only if one did. */
  lemma EndToEnd(c: Setup, trace: seq<Label>, s: State, d: WfDoc)
    requires Trace(c, Init(c), trace, s) && Finished(s) && Survivor(s)
    ensures Conservation.InFlight(s, d) == 0
    ensures Outcomes.Count(Outcomes.Consumed, c, Init(c), trace, d) == Conservation.CountSettled(c, Init(c), trace, d)
    ensures (forall i :: 0 <= i < |s.lanes| ==> s.lanes[i].pc.IDone?) ==>
              Outcomes.Count(Outcomes.LostIndexer, c, Init(c), trace, d) == 0
  {
    ReachableDisciplined(c, s);
    NothingCarried(c, s, |s.mem|, d);
    Conservation.RunConserves(c, trace, s, d);
    TraceNoIndexerLoss(c, Init(c), trace, s);
    Outcomes.LedgerIsExact(c, trace, s, Outcomes.LostIndexer, d);
  }
}
