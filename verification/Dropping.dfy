/** Without a producer, what responses report as failed is dropped, and nothing else is. */
module Dropping {
  import opened Documents
  import opened Pipeline
  import opened Ownership
  import opened BulkSizes
  import opened Streams
  import opened Outcomes

  /** The copies of d that the first n indexers still have to hand on. */
  function InHandBelow(s: State, n: nat, d: WfDoc): nat
    requires n <= |s.lanes|
  {
    if n == 0 then 0 else InHandBelow(s, n - 1, d) + Copies(Handing(s, n - 1), d)
  }

  /** What lane i hands on changes by what is reported to it and what it drops. */
  predicate SharesAt(s: State, s': State, i: nat, d: WfDoc, dropped: nat, refused: nat) {
    At(s, i) && At(s', i) && Copies(Handing(s', i), d) + dropped == Copies(Handing(s, i), d) + refused
  }

  lemma CallShare(c: Setup, s: State, i: nat, resp: Response, get: BufId, d: WfDoc)
    requires FlushCan(c, s, i, BulkCall(resp, get)) && SingleOwner(s)
    ensures At(DoBulkCall(s, i, resp, get), i)
    ensures Copies(Handing(DoBulkCall(s, i, resp, get), i), d) ==
            CallFate(Refused, Load(s.mem, s.lanes[i].ptr), resp, d)
  {
    var docs := Load(s.mem, s.lanes[i].ptr);
    CallErrors(s, i, resp, get);
    RefusedIsFailed(docs, resp, d);
    assert FlushTaken(s, i, BulkCall(resp, get)).Some? <==> |Render(docs)| >= 5 && resp.Decoded? && resp.hasErrors;
  }

  lemma RefusedIsFailed(docs: seq<WfDoc>, resp: Response, d: WfDoc)
    requires Answers(resp, docs)
    ensures CallFate(Refused, docs, resp, d) ==
            if |Render(docs)| >= 5 && resp.Decoded? && resp.hasErrors then Copies(Failed(docs, resp.items), d) else 0
  {
    if resp.Decoded? {
      AnswerSplits(docs, resp, d);
    }
  }

  lemma DropShare(s: State, i: nat)
    requires At(s, i) && s.lanes[i].pc.ISend?
    ensures At(DoDropErrors(s, i), i) && Handing(DoDropErrors(s, i), i) == []
    ensures Handing(s, i) == Load(s.mem, s.lanes[i].pc.out)
  {
  }

  lemma EndShare(c: Setup, s: State, i: nat, fs: FlushStep, d: WfDoc)
    requires FlushCan(c, s, i, fs) && SingleOwner(s) && (fs.PutBulk? || fs.GetBulk?)
    ensures SharesAt(s, FlushNext(c, s, i, fs), i, d, 0, 0)
  {
    match fs {
      case PutBulk => PutErrors(s, i);
      case GetBulk(get) => GetErrorsKept(c, s, i, get);
    }
  }

  lemma CallShares(c: Setup, s: State, i: nat, resp: Response, get: BufId, d: WfDoc)
    requires FlushCan(c, s, i, BulkCall(resp, get)) && SingleOwner(s)
    ensures SharesAt(s, DoBulkCall(s, i, resp, get), i, d, 0, CallFate(Refused, Load(s.mem, s.lanes[i].ptr), resp, d))
  {
    CallShare(c, s, i, resp, get, d);
    assert Handing(s, i) == [];
  }

  /** SharesAt, for a flush step of lane i. */
  ghost predicate FlushSharesAt(c: Setup, s: State, i: nat, fs: FlushStep, d: WfDoc)
    requires FlushCan(c, s, i, fs)
  {
    SharesAt(s, FlushNext(c, s, i, fs), i, d,
             Happens(Dropped, c, s, Flush(i, fs), d), Happens(Refused, c, s, Flush(i, fs), d))
  }

  lemma CallCase(c: Setup, s: State, i: nat, resp: Response, get: BufId, d: WfDoc)
    requires FlushCan(c, s, i, BulkCall(resp, get)) && SingleOwner(s)
    ensures FlushSharesAt(c, s, i, BulkCall(resp, get), d)
  {
    CallShares(c, s, i, resp, get, d);
    CallDropsNothing(Load(s.mem, s.lanes[i].ptr), resp, d);
  }

  lemma DropCase(c: Setup, s: State, i: nat, d: WfDoc)
    requires FlushCan(c, s, i, DropErrors)
    ensures FlushSharesAt(c, s, i, DropErrors, d)
  {
    DropShare(s, i);
  }

  lemma FlushShare(c: Setup, s: State, i: nat, fs: FlushStep, d: WfDoc)
    requires FlushCan(c, s, i, fs) && SingleOwner(s) && !fs.SendErrors? && !fs.HandErrors?
    ensures FlushSharesAt(c, s, i, fs, d)
  {
    match fs {
      case BulkCall(resp, get) => CallCase(c, s, i, resp, get, d);
      case DropErrors => DropCase(c, s, i, d);
      case _ => EndShare(c, s, i, fs, d);
    }
  }

  lemma NothingSent(c: Setup, s: State, i: nat, fs: FlushStep)
    requires FlushCan(c, s, i, fs) && !Republishes(c)
    ensures !fs.SendErrors? && !fs.HandErrors?
  {
  }

  lemma CallDropsNothing(docs: seq<WfDoc>, resp: Response, d: WfDoc)
    ensures CallFate(Dropped, docs, resp, d) == 0
  {
  }

  lemma LoopShare(c: Setup, s: State, i: nat, ls: LoopStep, d: WfDoc)
    requires LoopCan(s, i, ls)
    ensures SharesAt(s, LoopNext(c, s, i, ls), i, d, 0, 0)
  {
    LoopErrors(c, s, i, ls);
    assert Handing(s, i) == [];
  }

  /** The copies of fate f in a step of lane i. */
  function LaneShare(f: Fate, c: Setup, s: State, l: Label, i: nat, d: WfDoc): nat
    requires Enabled(c, s, l)
  {
    if l.Flush? && l.i == i then Happens(f, c, s, l, d) else 0
  }

  lemma StepShare(c: Setup, s: State, l: Label, i: nat, d: WfDoc)
    requires Enabled(c, s, l) && SingleOwner(s) && !Republishes(c) && At(s, i)
    ensures SharesAt(s, Next(c, s, l), i, d, LaneShare(Dropped, c, s, l, i, d), LaneShare(Refused, c, s, l, i, d))
  {
    if Moves(l, i) {
      match l {
        case Consumer(_) => assert Handing(s, i) == [];
        case Loop(_, ls) => LoopShare(c, s, i, ls, d);
        case Flush(_, fs) =>
          NothingSent(c, s, i, fs);
          FlushShare(c, s, i, fs, d);
      }
    } else {
      OtherLanes(c, s, l, i);
    }
  }

  /** Only lane m has a share. */
  predicate OnlyLane(s: State, s': State, i: nat, d: WfDoc, m: nat, dropped: nat, refused: nat) {
    SharesAt(s, s', i, d, if i == m then dropped else 0, if i == m then refused else 0)
  }

  lemma {:induction false} SumShares(s: State, s': State, n: nat, d: WfDoc, m: nat, dropped: nat, refused: nat)
    requires n <= |s.lanes| && n <= |s'.lanes|
    requires forall i: nat :: i < n ==> OnlyLane(s, s', i, d, m, dropped, refused)
    ensures InHandBelow(s', n, d) + (if m < n then dropped else 0) ==
            InHandBelow(s, n, d) + (if m < n then refused else 0)
  {
    if n > 0 {
      SumShares(s, s', n - 1, d, m, dropped, refused);
      assert OnlyLane(s, s', n - 1, d, m, dropped, refused);
    }
  }

  lemma SumStep(c: Setup, s: State, l: Label, d: WfDoc)
    requires Enabled(c, s, l) && SingleOwner(s) && !Republishes(c)
    ensures var s' := Next(c, s, l);
            InHandBelow(s', |s'.lanes|, d) + Happens(Dropped, c, s, l, d) ==
            InHandBelow(s, |s.lanes|, d) + Happens(Refused, c, s, l, d)
  {
    var s' := Next(c, s, l);
    LanesKept(c, s, l);
    var m := if l.Flush? then l.i else |s.lanes|;
    var dropped, refused := Happens(Dropped, c, s, l, d), Happens(Refused, c, s, l, d);
    forall i: nat | i < |s.lanes| ensures OnlyLane(s, s', i, d, m, dropped, refused) {
      StepShare(c, s, l, i, d);
    }
    SumShares(s, s', |s.lanes|, d, m, dropped, refused);
    OnlyFlushes(c, s, l, d);
  }

  lemma OnlyFlushes(c: Setup, s: State, l: Label, d: WfDoc)
    requires Enabled(c, s, l)
    ensures l.Flush? ==> l.i < |s.lanes|
    ensures !l.Flush? ==> Happens(Dropped, c, s, l, d) == 0 && Happens(Refused, c, s, l, d) == 0
  {
  }

  lemma LanesKept(c: Setup, s: State, l: Label)
    requires Enabled(c, s, l)
    ensures |Next(c, s, l).lanes| == |s.lanes|
  {
    if s.lanes == [] {
      NoLanes(c, s, l);
    } else {
      LaneStays(c, s, l, 0);
    }
  }

  lemma {:induction false} TraceDrops(c: Setup, a: State, trace: seq<Label>, b: State, d: WfDoc)
    requires Trace(c, a, trace, b) && SingleOwner(a) && !Republishes(c)
    ensures InHandBelow(b, |b.lanes|, d) + Count(Dropped, c, a, trace, d) ==
            InHandBelow(a, |a.lanes|, d) + Count(Refused, c, a, trace, d)
    decreases |trace|
  {
    if trace != [] {
      StepKeepsSingleOwner(c, a, trace[0]);
      SumStep(c, a, trace[0], d);
      TraceDrops(c, Next(c, a, trace[0]), trace[1..], b, d);
    }
  }

  lemma {:induction false} NothingInHand(s: State, n: nat, d: WfDoc)
    requires n <= |s.lanes| && forall i :: 0 <= i < n ==> Handing(s, i) == []
    ensures InHandBelow(s, n, d) == 0
  {
    if n > 0 {
      NothingInHand(s, n - 1, d);
    }
  }

  lemma InitHandsNothing(c: Setup, d: WfDoc)
    ensures InHandBelow(Init(c), |Init(c).lanes|, d) == 0
  {
    NothingInHand(Init(c), c.n, d);
  }

  lemma DropsFrom(c: Setup, a: State, trace: seq<Label>, s: State, d: WfDoc)
    requires Trace(c, a, trace, s) && SingleOwner(a) && !Republishes(c) && InHandBelow(a, |a.lanes|, d) == 0
    ensures Count(Dropped, c, a, trace, d) + InHandBelow(s, |s.lanes|, d) == Count(Refused, c, a, trace, d)
  {
    TraceDrops(c, a, trace, s, d);
  }

  /** Without a producer, the copies dropped, and those in the indexers' hands, are exactly the
      copies reported as failed. */
  lemma DropsTheReported(c: Setup, trace: seq<Label>, s: State, d: WfDoc)
    requires Trace(c, Init(c), trace, s) && !Republishes(c)
    ensures s.ledger.dropped[d] + InHandBelow(s, |s.lanes|, d) == Count(Refused, c, Init(c), trace, d)
  {
    InitSingleOwner(c);
    InitHandsNothing(c, d);
    LedgerIsExact(c, trace, s, Dropped, d);
    DropsFrom(c, Init(c), trace, s, d);
  }

  /** With one, nothing is. */
  lemma {:induction false} DropsNothing(c: Setup, a: State, trace: seq<Label>, b: State, d: WfDoc)
    requires Trace(c, a, trace, b) && Republishes(c)
    ensures Count(Dropped, c, a, trace, d) == 0
    decreases |trace|
  {
    if trace != [] {
      var l := trace[0];
      if l.Flush? && l.fs.DropErrors? {
        DropNothing(c, a, l.i);
      }
      DropsNothing(c, Next(c, a, l), trace[1..], b, d);
    }
  }
}
