/** What becomes of a document when every bulk call is judged document by document: over the whole
    pipeline and every interleaving, the rejected documents, and only they, reach the producer. */
module Verdicts {
  import opened Documents
  import opened Pipeline
  import opened Ownership
  import opened Exclusive
  import opened Rejections
  import opened Streams
  import opened Outcomes
  import Discipline
  import Shutdown

  predicate AllBad(docs: seq<WfDoc>, bad: WfDoc -> bool) {
    forall d :: d in docs ==> bad(d)
  }

  /** Error buffer id lies in place p. */
  predicate ErrorAt(s: State, p: Place, id: BufId) {
    match p
    case LaneHand(i) => At(s, i) && ErrorsInHand(s.lanes[i].pc) == Some(id)
    case ErrSlot(i) => At(s, i) && id in s.lanes[i].err
    case ForwarderHand(i) => At(s, i) && s.lanes[i].fwd == FHold(id)
    case OutSlot => id in s.out
    case InProducer => s.ppc == PHold(id) || s.ppc == PRetry(id)
    case _ => false
  }

  /** All that is on its way to the producer is bad. */
  ghost predicate OnlyBadErrors(s: State, bad: WfDoc -> bool) {
    forall p: Place, id: BufId :: ErrorAt(s, p, id) ==> AllBad(Load(s.mem, id), bad)
  }

  /** The ledger has only bad documents that were produced, only good ones that were accepted, and
      nothing that was lost before it was produced. */
  ghost predicate FairLedger(g: Ledger, bad: WfDoc -> bool) {
    && g.lostBatch == g.dropped == g.lostIndexer == multiset{}
    && (forall d :: d in g.accepted ==> !bad(d))
    && (forall d :: d in g.republished || d in g.lostProduce ==> bad(d))
  }

  predicate NoneFailed(s: State) {
    forall i :: 0 <= i < |s.lanes| ==> !s.lanes[i].pc.IFailed?
  }

  ghost predicate Fair(s: State, bad: WfDoc -> bool) {
    OnlyBadErrors(s, bad) && FairLedger(s.ledger, bad) && NoneFailed(s)
  }

  ghost predicate JudgedAll(s: State, l: Label, bad: WfDoc -> bool) {
    forall i: nat :: i < |s.lanes| ==> JudgedStep(s, l, i, bad)
  }

  // ------------------------------------------------------ verdicts and documents

  lemma {:induction false} RejectedAreBad(docs: seq<WfDoc>, bad: WfDoc -> bool)
    ensures AllBad(Rejected(docs, bad), bad)
  {
    if docs != [] {
      RejectedAreBad(docs[..|docs| - 1], bad);
    }
  }

  /** The passed documents of an honest answer are good. */
  lemma {:induction false} PassedAreGood(docs: seq<WfDoc>, v: seq<bool>, bad: WfDoc -> bool)
    requires |v| <= |docs| && forall i :: 0 <= i < |v| ==> v[i] == bad(docs[i])
    ensures forall d :: d in PassedPrefix(docs, v) ==> !bad(d)
  {
    if v != [] {
      PassedAreGood(docs, v[..|v| - 1], bad);
    }
  }

  lemma {:induction false} NoneRejected(docs: seq<WfDoc>, bad: WfDoc -> bool)
    requires Rejected(docs, bad) == []
    ensures forall d :: d in docs ==> !bad(d)
  {
    if docs != [] {
      var n := |docs| - 1;
      assert bad(docs[n]) ==> |Rejected(docs, bad)| >= 1;
      assert Rejected(docs[..n], bad) == [];
      NoneRejected(docs[..n], bad);
      assert docs == docs[..n] + [docs[n]];
    }
  }

  lemma JudgedPassed(docs: seq<WfDoc>, resp: Response, bad: WfDoc -> bool)
    requires Judged(resp, docs, bad)
    ensures forall d :: d in Passed(docs, Verdicts(resp.items)) ==> !bad(d)
    ensures !resp.hasErrors ==> forall d :: d in docs ==> !bad(d)
    ensures AllBad(Failed(docs, resp.items), bad)
  {
    var v := Verdicts(resp.items);
    assert forall i :: 0 <= i < |v| ==> v[i] == Marks(docs, bad)[i];
    PassedAreGood(docs, v, bad);
    assert docs[|v|..] == [];
    JudgedReport(docs, resp, bad);
    RejectedAreBad(docs, bad);
    if !resp.hasErrors {
      NoneRejected(docs, bad);
    }
  }

  // --------------------------------------------------------------- the ledger

  lemma CallIsFair(s: State, i: nat, resp: Response, get: BufId, bad: WfDoc -> bool)
    requires At(s, i) && s.lanes[i].pc.IFlush? && Answers(resp, Load(s.mem, s.lanes[i].ptr))
    requires FairLedger(s.ledger, bad)
    requires Load(s.mem, s.lanes[i].ptr) != [] ==> Judged(resp, Load(s.mem, s.lanes[i].ptr), bad)
    ensures FairLedger(DoBulkCall(s, i, resp, get).ledger, bad)
  {
    var docs := Load(s.mem, s.lanes[i].ptr);
    RenderLength(docs);
    if docs == [] {
      assert Render(docs) == [];
    } else {
      JudgedPassed(docs, resp, bad);
    }
  }

  lemma SettleIsFair(s: State, ok: bool, bad: WfDoc -> bool)
    requires (s.ppc.PHold? || s.ppc.PRetry?) && OnlyBadErrors(s, bad) && FairLedger(s.ledger, bad)
    ensures FairLedger(Settle(s, s.ppc.msg, ok).ledger, bad)
  {
    assert ErrorAt(s, InProducer, s.ppc.msg);
  }

  lemma FlushIsFair(c: Setup, s: State, i: nat, fs: FlushStep, bad: WfDoc -> bool)
    requires FlushCan(c, s, i, fs) && Republishes(c) && FairLedger(s.ledger, bad)
    requires JudgedStep(s, Flush(i, fs), i, bad)
    ensures FairLedger(FlushNext(c, s, i, fs).ledger, bad)
  {
    match fs {
      case BulkCall(resp, get) => CallIsFair(s, i, resp, get, bad);
      case DropErrors => DropNothing(c, s, i);
      case _ =>
    }
  }

  lemma ProducerIsFair(s: State, ps: ProducerStep, bad: WfDoc -> bool)
    requires ProducerCan(s, ps) && OnlyBadErrors(s, bad) && FairLedger(s.ledger, bad)
    ensures FairLedger(ProducerNext(s, ps).ledger, bad)
  {
    match ps {
      case Produce(result) =>
        if !result.QueueFull? {
          SettleIsFair(s, result.Produced?, bad);
        }
      case Retry(ok) => SettleIsFair(s, ok, bad);
      case _ =>
    }
  }

  lemma ConsumerIsFair(c: Setup, s: State, cs: ConsumerStep, bad: WfDoc -> bool)
    requires ConsumerCan(c, s, cs) && FairLedger(s.ledger, bad)
    ensures FairLedger(ConsumerNext(c, s, cs).ledger, bad)
  {
    assert ConsumerNext(c, s, cs).ledger == s.ledger.(consumed := ConsumerNext(c, s, cs).ledger.consumed);
  }

  lemma LoopIsFair(c: Setup, s: State, i: nat, ls: LoopStep)
    requires LoopCan(s, i, ls) && !ls.TickFail?
    ensures LoopNext(c, s, i, ls).ledger == s.ledger
  {
  }

  lemma LedgerStep(c: Setup, s: State, l: Label, bad: WfDoc -> bool)
    requires Enabled(c, s, l) && Republishes(c) && JudgedAll(s, l, bad) && Fair(s, bad)
    ensures FairLedger(Next(c, s, l).ledger, bad)
  {
    match l {
      case Consumer(cs) => ConsumerIsFair(c, s, cs, bad);
      case Loop(i, ls) =>
        assert JudgedStep(s, l, i, bad);
        LoopIsFair(c, s, i, ls);
      case Flush(i, fs) =>
        assert JudgedStep(s, l, i, bad);
        FlushIsFair(c, s, i, fs, bad);
      case Merge(i, ms) => assert MergeNext(c, s, i, ms).ledger == s.ledger;
      case Producer(ps) => ProducerIsFair(s, ps, bad);
      case _ =>
    }
  }

  // -------------------------------------------------- errors on their way

  /** An error buffer was one before, unless a bulk call has just filled it. */
  ghost predicate FromErrors(s: State, s': State, taken: Option<BufId>) {
    forall p: Place, id: BufId :: ErrorAt(s', p, id) ==> taken == Some(id) || exists q :: ErrorAt(s, q, id)
  }

  lemma ConsumerErrors(c: Setup, s: State, cs: ConsumerStep)
    requires ConsumerCan(c, s, cs)
    ensures FromErrors(s, ConsumerNext(c, s, cs), None)
  {
    forall p: Place, id: BufId | ErrorAt(ConsumerNext(c, s, cs), p, id) ensures ErrorAt(s, p, id) {
    }
  }

  lemma LoopMovesNoErrors(c: Setup, s: State, i: nat, ls: LoopStep)
    requires LoopCan(s, i, ls)
    ensures FromErrors(s, LoopNext(c, s, i, ls), None)
  {
    LoopErrors(c, s, i, ls);
    forall p: Place, id: BufId | ErrorAt(LoopNext(c, s, i, ls), p, id) ensures ErrorAt(s, p, id) {
    }
  }

  lemma CallErrorsFrom(s: State, i: nat, resp: Response, get: BufId)
    requires At(s, i) && s.lanes[i].pc.IFlush? && Answers(resp, Load(s.mem, s.lanes[i].ptr))
    ensures FromErrors(s, DoBulkCall(s, i, resp, get), FlushTaken(s, i, BulkCall(resp, get)))
  {
    var s' := DoBulkCall(s, i, resp, get);
    BulkCallShape(s, i, resp, get);
    CallTakes(s, i, resp, get);
    forall p: Place, id: BufId | ErrorAt(s', p, id) && FlushTaken(s, i, BulkCall(resp, get)) != Some(id)
      ensures ErrorAt(s, p, id)
    {
    }
  }

  /** A buffer sent on the error channel comes from the indexer's hand. */
  lemma SendErrorsFrom(s: State, i: nat)
    requires At(s, i) && s.lanes[i].pc.ISend?
    ensures FromErrors(s, DoSendErrors(s, i), None)
  {
    forall p: Place, id: BufId | ErrorAt(DoSendErrors(s, i), p, id) ensures exists q :: ErrorAt(s, q, id) {
      if p == ErrSlot(i) && id == s.lanes[i].pc.out {
        assert ErrorAt(s, LaneHand(i), id);
      } else {
        assert ErrorAt(s, p, id);
      }
    }
  }

  lemma ForwardErrorsFrom(s: State, i: nat)
    requires At(s, i) && s.lanes[i].err != []
    ensures FromErrors(s, DoForward(s, i), None)
  {
    forall p: Place, id: BufId | ErrorAt(DoForward(s, i), p, id) ensures exists q :: ErrorAt(s, q, id) {
      if p == ForwarderHand(i) {
        assert ErrorAt(s, ErrSlot(i), id);
      } else {
        assert ErrorAt(s, p, id);
      }
    }
  }

  lemma FromTwice(s: State, s1: State, s': State)
    requires FromErrors(s, s1, None) && FromErrors(s1, s', None)
    ensures FromErrors(s, s', None)
  {
  }

  lemma FlushErrorsFrom(c: Setup, s: State, i: nat, fs: FlushStep)
    requires FlushCan(c, s, i, fs)
    ensures FromErrors(s, FlushNext(c, s, i, fs), if fs.BulkCall? then FlushTaken(s, i, fs) else None)
  {
    match fs {
      case BulkCall(resp, get) => CallErrorsFrom(s, i, resp, get);
      case SendErrors => SendErrorsFrom(s, i);
      case HandErrors =>
        SendErrorsFrom(s, i);
        ForwardErrorsFrom(DoSendErrors(s, i), i);
        FromTwice(s, DoSendErrors(s, i), FlushNext(c, s, i, fs));
      case _ => EndErrorsFrom(c, s, i, fs);
    }
  }

  /** A step of indexer i that gets no error buffer. */
  lemma KeepsErrors(s: State, s': State, i: nat, l': Lane)
    requires At(s, i) && s'.lanes == s.lanes[i := l'] && s'.out == s.out && s'.ppc == s.ppc
    requires l'.err == s.lanes[i].err && l'.fwd == s.lanes[i].fwd
    requires ErrorsInHand(l'.pc).Some? ==> ErrorsInHand(l'.pc) == ErrorsInHand(s.lanes[i].pc)
    ensures FromErrors(s, s', None)
  {
    forall p: Place, id: BufId | ErrorAt(s', p, id) ensures ErrorAt(s, p, id) {
    }
  }

  lemma EndErrorsFrom(c: Setup, s: State, i: nat, fs: FlushStep)
    requires FlushCan(c, s, i, fs) && (fs.PutBulk? || fs.DropErrors? || fs.GetBulk?)
    ensures FromErrors(s, FlushNext(c, s, i, fs), None)
  {
    KeepsErrors(s, FlushNext(c, s, i, fs), i, FlushNext(c, s, i, fs).lanes[i]);
  }

  lemma ForwardSendFrom(s: State, i: nat)
    requires At(s, i) && s.lanes[i].fwd.FHold?
    ensures FromErrors(s, DoForwardSend(s, i), None)
  {
    forall p: Place, id: BufId | ErrorAt(DoForwardSend(s, i), p, id) ensures exists q :: ErrorAt(s, q, id) {
      if p == OutSlot && id == s.lanes[i].fwd.msg {
        assert ErrorAt(s, ForwarderHand(i), id);
      } else {
        assert ErrorAt(s, p, id);
      }
    }
  }

  lemma ReceiveErrorsFrom(s: State)
    requires s.out != []
    ensures FromErrors(s, DoProducerReceive(s), None)
  {
    forall p: Place, id: BufId | ErrorAt(DoProducerReceive(s), p, id) ensures exists q :: ErrorAt(s, q, id) {
      if p == InProducer {
        assert ErrorAt(s, OutSlot, id);
      } else {
        assert ErrorAt(s, p, id);
      }
    }
  }

  lemma MergeErrorsFrom(c: Setup, s: State, i: nat, ms: ForwarderStep)
    requires MergeCan(c, s, i, ms)
    ensures FromErrors(s, MergeNext(c, s, i, ms), None)
  {
    match ms {
      case Forward => ForwardErrorsFrom(s, i);
      case ForwardEnd =>
        forall p: Place, id: BufId | ErrorAt(MergeNext(c, s, i, ms), p, id) ensures ErrorAt(s, p, id) {
        }
      case ForwardSend => ForwardSendFrom(s, i);
      case ForwardHand =>
        ForwardSendFrom(s, i);
        ReceiveErrorsFrom(DoForwardSend(s, i));
        FromTwice(s, DoForwardSend(s, i), MergeNext(c, s, i, ms));
    }
  }

  /** A step that leaves the lanes and out alone. */
  lemma StageErrorsFrom(s: State, s': State)
    requires s'.lanes == s.lanes && s'.out == s.out
    requires s'.ppc.PHold? || s'.ppc.PRetry? ==> (s.ppc.PHold? || s.ppc.PRetry?) && s'.ppc.msg == s.ppc.msg
    ensures FromErrors(s, s', None)
  {
    forall p: Place, id: BufId | ErrorAt(s', p, id) ensures ErrorAt(s, p, id) {
    }
  }

  lemma ProducerErrorsFrom(s: State, ps: ProducerStep)
    requires ProducerCan(s, ps)
    ensures FromErrors(s, ProducerNext(s, ps), None)
  {
    match ps {
      case ProducerReceive => ReceiveErrorsFrom(s);
      case _ => StageErrorsFrom(s, ProducerNext(s, ps));
    }
  }

  /** The buffer a step fills with failed documents. */
  function Filled(s: State, l: Label): Option<BufId> {
    if l.Flush? && l.fs.BulkCall? && At(s, l.i) then FlushTaken(s, l.i, l.fs) else None
  }

  lemma StepErrorsFrom(c: Setup, s: State, l: Label)
    requires Enabled(c, s, l)
    ensures FromErrors(s, Next(c, s, l), Filled(s, l))
  {
    match l {
      case Consumer(cs) => ConsumerErrors(c, s, cs);
      case Loop(i, ls) => LoopMovesNoErrors(c, s, i, ls);
      case Flush(i, fs) => FlushErrorsFrom(c, s, i, fs);
      case Merge(i, ms) => MergeErrorsFrom(c, s, i, ms);
      case Producer(ps) => ProducerErrorsFrom(s, ps);
      case _ => assert forall p: Place, id: BufId :: ErrorAt(Next(c, s, l), p, id) ==> ErrorAt(s, p, id);
    }
  }

  /** No step adds documents to a buffer on its way. */
  lemma ErrorsNotGrown(c: Setup, s: State, l: Label, p: Place, id: BufId)
    requires Enabled(c, s, l) && SingleOwner(s) && ErrorAt(s, p, id)
    ensures Load(Next(c, s, l).mem, id) == Load(s.mem, id) || Load(Next(c, s, l).mem, id) == []
    ensures Filled(s, l) != Some(id)
  {
    ErrorIsHeld(s, p, id);
    StepWrites(c, s, l, id);
    if Taken(c, s, l) == Some(id) {
      TakenLeavesPool(c, s, l, id);
    }
    if l.Loop? && l.ls.AppendMsg? && s.lanes[l.i].ptr == id {
      PlacesApart(s, p, LaneBuffer(l.i), id);
    }
  }

  lemma ErrorIsHeld(s: State, p: Place, id: BufId)
    requires SingleOwner(s) && ErrorAt(s, p, id)
    ensures HeldAt(s, p, id) > 0 && !p.LaneBuffer? && Data(s, id) == 1
  {
    assert Data(s, id) + Idle(s, id) == if id < |s.mem| then 1 else 0;
    if LaneOf(p).Some? {
      LaneHeld(s.lanes, LaneOf(p).value, id);
    }
  }

  lemma FilledIsBad(c: Setup, s: State, l: Label, bad: WfDoc -> bool)
    requires Enabled(c, s, l) && SingleOwner(s) && JudgedAll(s, l, bad) && Filled(s, l).Some?
    ensures AllBad(Load(Next(c, s, l).mem, Filled(s, l).value), bad)
  {
    var i, resp, get := l.i, l.fs.resp, l.fs.get;
    var docs := Load(s.mem, s.lanes[i].ptr);
    assert JudgedStep(s, l, i, bad);
    CallErrors(s, i, resp, get);
    CallTakes(s, i, resp, get);
    RenderLength(docs);
    assert Render([]) == [] && docs != [];
    JudgedPassed(docs, resp, bad);
  }

  lemma ErrorsStayBad(c: Setup, s: State, l: Label, bad: WfDoc -> bool)
    requires Enabled(c, s, l) && SingleOwner(s) && JudgedAll(s, l, bad) && OnlyBadErrors(s, bad)
    ensures OnlyBadErrors(Next(c, s, l), bad)
  {
    var s' := Next(c, s, l);
    StepErrorsFrom(c, s, l);
    forall p: Place, id: BufId | ErrorAt(s', p, id) ensures AllBad(Load(s'.mem, id), bad) {
      if Filled(s, l) == Some(id) {
        FilledIsBad(c, s, l, bad);
      } else {
        var q :| ErrorAt(s, q, id);
        ErrorsNotGrown(c, s, l, q, id);
      }
    }
  }

  lemma StepIsFair(c: Setup, s: State, l: Label, bad: WfDoc -> bool)
    requires Enabled(c, s, l) && SingleOwner(s) && Republishes(c) && JudgedAll(s, l, bad) && Fair(s, bad)
    ensures Fair(Next(c, s, l), bad)
  {
    LedgerStep(c, s, l, bad);
    ErrorsStayBad(c, s, l, bad);
    Shutdown.StepLasting(c, s, l);
    assert l.Loop? ==> JudgedStep(s, l, l.i, bad);
  }

  /** Every bulk call of every indexer is judged document by document. */
  ghost predicate AllJudged(c: Setup, s: State, trace: seq<Label>, bad: WfDoc -> bool) {
    forall i: nat :: i < |s.lanes| ==> JudgedRun(c, s, trace, i, bad)
  }

  lemma JudgedFirst(c: Setup, s: State, trace: seq<Label>, bad: WfDoc -> bool)
    requires trace != [] && Enabled(c, s, trace[0]) && AllJudged(c, s, trace, bad)
    ensures JudgedAll(s, trace[0], bad) && AllJudged(c, Next(c, s, trace[0]), trace[1..], bad)
  {
    Shutdown.StepLasting(c, s, trace[0]);
    forall i: nat | i < |s.lanes|
      ensures JudgedStep(s, trace[0], i, bad) && JudgedRun(c, Next(c, s, trace[0]), trace[1..], i, bad)
    {
      assert JudgedRun(c, s, trace, i, bad);
    }
  }

  lemma {:induction false} TraceIsFair(c: Setup, a: State, trace: seq<Label>, b: State, bad: WfDoc -> bool)
    requires Trace(c, a, trace, b) && SingleOwner(a) && Republishes(c) && Fair(a, bad) && AllJudged(c, a, trace, bad)
    ensures Fair(b, bad)
    decreases |trace|
  {
    if trace != [] {
      JudgedFirst(c, a, trace, bad);
      StepIsFair(c, a, trace[0], bad);
      StepKeepsSingleOwner(c, a, trace[0]);
      TraceIsFair(c, Next(c, a, trace[0]), trace[1..], b, bad);
    }
  }

  lemma InitFair(c: Setup, bad: WfDoc -> bool)
    ensures Fair(Init(c), bad)
  {
  }

  /** End to end, for every interleaving, by the steps of the run: when all has finished, each bad
      document has been produced to the error topic, or lost in producing, exactly as often as it
      was consumed, and no good one has; each good one has been accepted exactly as often, and no
      bad one has. */
  lemma VerdictsDecide(c: Setup, trace: seq<Label>, s: State, bad: WfDoc -> bool, d: WfDoc)
    requires Trace(c, Init(c), trace, s) && Republishes(c) && AllJudged(c, Init(c), trace, bad)
    requires Shutdown.Finished(s)
    ensures Count(Republished, c, Init(c), trace, d) + Count(LostProduce, c, Init(c), trace, d) ==
            if bad(d) then Count(Consumed, c, Init(c), trace, d) else 0
    ensures Count(Accepted, c, Init(c), trace, d) == if bad(d) then 0 else Count(Consumed, c, Init(c), trace, d)
    ensures s.ledger.republished[d] == Count(Republished, c, Init(c), trace, d)
    ensures s.ledger.lostProduce[d] == Count(LostProduce, c, Init(c), trace, d)
  {
    InitFair(c, bad);
    InitSingleOwner(c);
    TraceIsFair(c, Init(c), trace, s, bad);
    Discipline.ReachableDisciplined(c, s);
    assert s.lanes != [] && !s.lanes[0].pc.IFailed?;
    Shutdown.EndToEnd(c, trace, s, d);
    FairCounts(c, trace, s, bad, d);
  }

  lemma FairCounts(c: Setup, trace: seq<Label>, s: State, bad: WfDoc -> bool, d: WfDoc)
    requires Trace(c, Init(c), trace, s) && FairLedger(s.ledger, bad)
    ensures Count(LostBatch, c, Init(c), trace, d) == Count(Dropped, c, Init(c), trace, d) == 0
    ensures Count(LostIndexer, c, Init(c), trace, d) == 0
    ensures bad(d) ==> Count(Accepted, c, Init(c), trace, d) == 0
    ensures !bad(d) ==>
              Count(Republished, c, Init(c), trace, d) == Count(LostProduce, c, Init(c), trace, d) == 0
    ensures s.ledger.republished[d] == Count(Republished, c, Init(c), trace, d)
    ensures s.ledger.lostProduce[d] == Count(LostProduce, c, Init(c), trace, d)
  {
    LedgerIsExact(c, trace, s, Accepted, d);
    LedgerIsExact(c, trace, s, Republished, d);
    LedgerIsExact(c, trace, s, LostBatch, d);
    LedgerIsExact(c, trace, s, Dropped, d);
    LedgerIsExact(c, trace, s, LostProduce, d);
    LedgerIsExact(c, trace, s, LostIndexer, d);
  }
}
