/** No document is lost without a name, settled twice, or invented: an account of every document
    over every interleaving. */
module Conservation {
  import opened Documents
  import opened Pipeline
  import opened Ownership
  import opened Outcomes

  /** The copies of d that buffer id carries, if it is in flight. */
  function Carried(s: State, id: BufId, d: WfDoc): nat {
    if Data(s, id) > 0 then Copies(Load(s.mem, id), d) else 0
  }

  function CarriedBelow(s: State, n: nat, d: WfDoc): nat {
    if n == 0 then 0 else CarriedBelow(s, n - 1, d) + Carried(s, n - 1, d)
  }

  /** The copies of d in the consumer's and the producer's hand, in channels, in bulk buffers and
      in the hands of indexers and forwarders. */
  function InFlight(s: State, d: WfDoc): nat {
    CarriedBelow(s, |s.mem|, d)
  }

  /** The copies of d with a final outcome. */
  function Settled(g: Ledger, d: WfDoc): nat {
    g.accepted[d] + g.republished[d] + g.lostBatch[d] + g.dropped[d] + g.lostProduce[d] + g.lostIndexer[d]
  }

  ghost predicate Conserved(s: State) {
    forall d: WfDoc :: s.ledger.consumed[d] == InFlight(s, d) + Settled(s.ledger, d)
  }

  // ------------------------------------------------- effect on the buffers

  /** The buffers a step takes, empties, appends to and puts back. */
  datatype Effect = Effect(taken: Option<BufId>, emptied: Option<BufId>, grown: Option<Write>, recycled: Option<BufId>)

  function EffectOf(c: Setup, s: State, l: Label): Effect
    requires Enabled(c, s, l)
  {
    Effect(Taken(c, s, l), Emptied(c, s, l), Grown(c, s, l), Recycled(c, s, l))
  }

  predicate Grows(f: Effect, id: BufId) {
    f.grown.Some? && f.grown.value.id == id
  }

  /** s' comes from s by effect f, as far as buffer id is concerned. */
  predicate Affects(s: State, s': State, f: Effect, id: BufId) {
    && Moved(s, s', f.taken, f.emptied, id)
    && Load(s'.mem, id) ==
       (if f.recycled == Some(id) then []
        else if Grows(f, id) then Load(s.mem, id) + f.grown.value.docs
        else Load(s.mem, id))
    && (f.taken == Some(id) ==>
          Load(s.mem, id) == [] && Data(s, id) == 0 && f.recycled == None && f.emptied != Some(id))
    && (f.emptied == Some(id) ==> Data(s, id) == 1 && f.taken != Some(id) && id < |s.mem|)
    && (Grows(f, id) ==>
          && id <= |s.mem|
          && (f.taken == Some(id) || (Data(s, id) == 1 && f.emptied != Some(id) && f.recycled != Some(id))))
    && (f.recycled == Some(id) ==> f.emptied == Some(id) || Data(s, id) == 0)
  }

  /** A recycled buffer has just been emptied, or held a body already settled. */
  lemma RecycledIsSpent(c: Setup, s: State, l: Label)
    requires Enabled(c, s, l) && SingleOwner(s) && Recycled(c, s, l).Some?
    ensures var id := Recycled(c, s, l).value;
            Taken(c, s, l) == None && (Emptied(c, s, l) == Some(id) || Data(s, id) == 0)
    ensures Grown(c, s, l).Some? ==> Grown(c, s, l).value.id != Recycled(c, s, l).value
  {
    if l.Flush? {
      HeldOnce(s, l.i, Recycled(c, s, l).value);
    }
    if l.Loop? {
      GrownIsHeld(c, s, l);
    }
  }

  lemma EmptiedWasCarried(c: Setup, s: State, l: Label)
    requires Enabled(c, s, l) && SingleOwner(s) && Emptied(c, s, l).Some?
    ensures Data(s, Emptied(c, s, l).value) == 1 && Emptied(c, s, l).value < |s.mem|
  {
    var id := Emptied(c, s, l).value;
    assert Data(s, id) + Idle(s, id) == if id < |s.mem| then 1 else 0;
    if l.Flush? || l.Loop? {
      HeldOnce(s, l.i, id);
    }
  }

  lemma StepAffects(c: Setup, s: State, l: Label, id: BufId)
    requires Enabled(c, s, l) && SingleOwner(s)
    ensures Affects(s, Next(c, s, l), EffectOf(c, s, l), id)
  {
    StepMoves(c, s, l, id);
    StepWrites(c, s, l, id);
    assert Data(s, id) + Idle(s, id) == if id < |s.mem| then 1 else 0;
    if Taken(c, s, l) == Some(id) {
      TakenLeavesPool(c, s, l, id);
    }
    if Emptied(c, s, l).Some? {
      EmptiedWasCarried(c, s, l);
    }
    if Grown(c, s, l).Some? {
      GrownIsHeld(c, s, l);
      GrownFits(c, s, l);
    }
    if Recycled(c, s, l).Some? {
      RecycledIsSpent(c, s, l);
    }
  }

  lemma GrownFits(c: Setup, s: State, l: Label)
    requires Enabled(c, s, l) && SingleOwner(s) && Grown(c, s, l).Some?
    ensures Grown(c, s, l).value.id <= |s.mem|
  {
    var id := Grown(c, s, l).value.id;
    GrownIsHeld(c, s, l);
    assert Data(s, id) + Idle(s, id) == if id < |s.mem| then 1 else 0;
  }

  function EmptiedCopies(s: State, f: Effect, d: WfDoc): nat {
    if f.emptied.Some? then Copies(Load(s.mem, f.emptied.value), d) else 0
  }

  function GrownCopies(f: Effect, d: WfDoc): nat {
    if f.grown.Some? then Copies(f.grown.value.docs, d) else 0
  }

  lemma CopiesAppend(a: seq<WfDoc>, b: seq<WfDoc>, d: WfDoc)
    ensures Copies(a + b, d) == Copies(a, d) + Copies(b, d)
  {
  }

  /** Buffer by buffer, a step changes what is carried by what it empties and fills. */
  lemma CarriedStep(s: State, s': State, f: Effect, id: BufId, d: WfDoc)
    requires Affects(s, s', f, id) && Data(s, id) <= 1
    ensures Carried(s', id, d) + (if f.emptied == Some(id) then EmptiedCopies(s, f, d) else 0) ==
            Carried(s, id, d) + if Grows(f, id) then GrownCopies(f, d) else 0
  {
    if Grows(f, id) {
      CopiesAppend(Load(s.mem, id), f.grown.value.docs, d);
    }
  }

  function EmptiedBelow(s: State, f: Effect, n: nat, d: WfDoc): nat {
    if f.emptied.Some? && f.emptied.value < n then EmptiedCopies(s, f, d) else 0
  }

  function GrownBelow(f: Effect, n: nat, d: WfDoc): nat {
    if f.grown.Some? && f.grown.value.id < n then GrownCopies(f, d) else 0
  }

  lemma {:induction false} CarriedBelowStep(s: State, s': State, f: Effect, n: nat, d: WfDoc)
    requires (forall id: BufId :: Affects(s, s', f, id)) && forall id: BufId :: Data(s, id) <= 1
    ensures CarriedBelow(s', n, d) + EmptiedBelow(s, f, n, d) == CarriedBelow(s, n, d) + GrownBelow(f, n, d)
  {
    if n > 0 {
      CarriedBelowStep(s, s', f, n - 1, d);
      assert Affects(s, s', f, n - 1);
      CarriedStep(s, s', f, n - 1, d);
      BelowNext(s, f, n - 1, d);
    }
  }

  lemma BelowNext(s: State, f: Effect, n: nat, d: WfDoc)
    ensures EmptiedBelow(s, f, n + 1, d) ==
            EmptiedBelow(s, f, n, d) + if f.emptied == Some(n) then EmptiedCopies(s, f, d) else 0
    ensures GrownBelow(f, n + 1, d) == GrownBelow(f, n, d) + if Grows(f, n) then GrownCopies(f, d) else 0
  {
  }

  /** Buffers that are not allocated carry nothing. */
  lemma CarriedAbove(s: State, d: WfDoc)
    requires SingleOwner(s)
    ensures CarriedBelow(s, |s.mem| + 1, d) == InFlight(s, d)
  {
    assert Data(s, |s.mem|) + Idle(s, |s.mem|) == 0;
  }

  lemma InFlightStep(s: State, s': State, f: Effect, d: WfDoc)
    requires SingleOwner(s) && SingleOwner(s') && |s.mem| <= |s'.mem| <= |s.mem| + 1
    requires forall id: BufId :: Affects(s, s', f, id)
    ensures InFlight(s', d) + EmptiedCopies(s, f, d) == InFlight(s, d) + GrownCopies(f, d)
  {
    AtMostOnce(s);
    var n := |s.mem| + 1;
    CarriedBelowStep(s, s', f, n, d);
    CarriedAbove(s, d);
    if |s'.mem| == |s.mem| {
      CarriedAbove(s', d);
    }
    BelowAll(s, s', f, d);
  }

  /** Whatever a step empties or fills lies within the allocated buffers. */
  lemma BelowAll(s: State, s': State, f: Effect, d: WfDoc)
    requires f.emptied.Some? ==> Affects(s, s', f, f.emptied.value)
    requires f.grown.Some? ==> Affects(s, s', f, f.grown.value.id)
    ensures EmptiedBelow(s, f, |s.mem| + 1, d) == EmptiedCopies(s, f, d)
    ensures GrownBelow(f, |s.mem| + 1, d) == GrownCopies(f, d)
  {
  }

  lemma AtMostOnce(s: State)
    requires SingleOwner(s)
    ensures forall id: BufId :: Data(s, id) <= 1
  {
    forall id: BufId ensures Data(s, id) <= 1 {
      assert Data(s, id) + Idle(s, id) == if id < |s.mem| then 1 else 0;
    }
  }

  // ------------------------------------------------------------- the ledger

  /** The ledger gains what the step empties and does not write elsewhere. */
  predicate Balanced(s: State, g': Ledger, f: Effect, d: WfDoc) {
    Settled(g', d) + GrownCopies(f, d) + s.ledger.consumed[d] ==
    Settled(s.ledger, d) + EmptiedCopies(s, f, d) + g'.consumed[d]
  }

  lemma BulkCallBalances(c: Setup, s: State, i: nat, resp: Response, get: BufId, d: WfDoc)
    requires FlushCan(c, s, i, BulkCall(resp, get))
    ensures Balanced(s, DoBulkCall(s, i, resp, get).ledger, EffectOf(c, s, Flush(i, BulkCall(resp, get))), d)
  {
    var docs := Load(s.mem, s.lanes[i].ptr);
    RenderLength(docs);
    if FlushTaken(s, i, BulkCall(resp, get)).Some? {
      FailedIsFilter(docs, resp.items);
      FilterPartitions(docs, Verdicts(resp.items));
    }
  }

  lemma FlushBalances(c: Setup, s: State, i: nat, fs: FlushStep, d: WfDoc)
    requires FlushCan(c, s, i, fs)
    ensures Balanced(s, FlushNext(c, s, i, fs).ledger, EffectOf(c, s, Flush(i, fs)), d)
  {
    match fs {
      case BulkCall(resp, get) => BulkCallBalances(c, s, i, resp, get, d);
      case _ =>
    }
  }

  lemma ConsumerBalances(c: Setup, s: State, cs: ConsumerStep, d: WfDoc)
    requires ConsumerCan(c, s, cs)
    ensures Balanced(s, ConsumerNext(c, s, cs).ledger, EffectOf(c, s, Consumer(cs)), d)
  {
  }

  lemma LoopBalances(c: Setup, s: State, i: nat, ls: LoopStep, d: WfDoc)
    requires LoopCan(s, i, ls)
    ensures Balanced(s, LoopNext(c, s, i, ls).ledger, EffectOf(c, s, Loop(i, ls)), d)
  {
  }

  lemma SettleBalances(s: State, m: BufId, ok: bool, d: WfDoc)
    ensures Balanced(s, Settle(s, m, ok).ledger, Effect(None, Some(m), None, Some(m)), d)
  {
  }

  lemma NothingSettles(s: State, g': Ledger, d: WfDoc)
    requires g' == s.ledger
    ensures Balanced(s, g', Effect(None, None, None, None), d)
  {
  }

  lemma ProducerBalances(c: Setup, s: State, ps: ProducerStep, d: WfDoc)
    requires ProducerCan(s, ps)
    ensures var m := ProducerEmptied(s, ps); Balanced(s, ProducerNext(s, ps).ledger, Effect(None, m, None, m), d)
  {
    match ps {
      case Produce(result) =>
        if result.QueueFull? {
          NothingSettles(s, s.ledger, d);
        } else {
          SettleBalances(s, s.ppc.msg, result.Produced?, d);
        }
      case Retry(ok) => SettleBalances(s, s.ppc.msg, ok, d);
      case _ => NothingSettles(s, ProducerNext(s, ps).ledger, d);
    }
  }

  lemma MergeBalances(c: Setup, s: State, i: nat, ms: ForwarderStep, d: WfDoc)
    requires MergeCan(c, s, i, ms)
    ensures Balanced(s, MergeNext(c, s, i, ms).ledger, EffectOf(c, s, Merge(i, ms)), d)
  {
  }

  lemma StepBalances(c: Setup, s: State, l: Label, d: WfDoc)
    requires Enabled(c, s, l)
    ensures Balanced(s, Next(c, s, l).ledger, EffectOf(c, s, l), d)
  {
    match l {
      case Consumer(cs) => ConsumerBalances(c, s, cs, d);
      case Loop(i, ls) => LoopBalances(c, s, i, ls, d);
      case Flush(i, fs) => FlushBalances(c, s, i, fs, d);
      case Merge(i, ms) => MergeBalances(c, s, i, ms, d);
      case Producer(ps) => ProducerBalances(c, s, ps, d);
      case _ =>
    }
  }

  /** Every step keeps the account, and books each fate exactly as often as it happens. */
  lemma StepConserves(c: Setup, s: State, l: Label)
    requires Enabled(c, s, l) && SingleOwner(s) && Conserved(s)
    ensures Conserved(Next(c, s, l))
    ensures forall f, d :: Books(s.ledger, Next(c, s, l).ledger, f, d, Happens(f, c, s, l, d))
  {
    forall f, d ensures Books(s.ledger, Next(c, s, l).ledger, f, d, Happens(f, c, s, l, d)) {
      StepBooks(c, s, l, f, d);
    }
    KeepsConserved(c, s, l);
  }

  lemma KeepsConserved(c: Setup, s: State, l: Label)
    requires Enabled(c, s, l) && SingleOwner(s) && Conserved(s)
    ensures Conserved(Next(c, s, l))
  {
    StepKeepsSingleOwner(c, s, l);
    StepPools(c, s, l, 0);
    ConservedBy(c, s, l, Next(c, s, l), EffectOf(c, s, l));
  }

  lemma ConservedBy(c: Setup, s: State, l: Label, s': State, f: Effect)
    requires Enabled(c, s, l) && s' == Next(c, s, l) && f == EffectOf(c, s, l)
    requires SingleOwner(s) && SingleOwner(s') && Conserved(s) && |s.mem| <= |s'.mem| <= |s.mem| + 1
    ensures Conserved(s')
  {
    forall id: BufId ensures Affects(s, s', f, id) {
      StepAffects(c, s, l, id);
    }
    forall d: WfDoc ensures s'.ledger.consumed[d] == InFlight(s', d) + Settled(s'.ledger, d) {
      InFlightStep(s, s', f, d);
      StepBalances(c, s, l, d);
    }
  }

  lemma {:induction false} TraceConserves(c: Setup, a: State, trace: seq<Label>, b: State)
    requires SingleOwner(a) && Conserved(a) && Trace(c, a, trace, b)
    ensures Conserved(b)
    decreases |trace|
  {
    if trace != [] {
      StepKeepsSingleOwner(c, a, trace[0]);
      KeepsConserved(c, a, trace[0]);
      TraceConserves(c, Next(c, a, trace[0]), trace[1..], b);
    }
  }

  /** Conservation, in every reachable state: each document has been consumed exactly as often as
      it is in flight, accepted, republished, or lost for a named reason. */
  lemma ReachableConserved(c: Setup, s: State)
    requires Reachable(c, s)
    ensures Conserved(s)
  {
    var trace :| Trace(c, Init(c), trace, s);
    InitSingleOwner(c);
    TraceConserves(c, Init(c), trace, s);
  }

  /** How often d has met a final fate in a run. */
  ghost function CountSettled(c: Setup, a: State, trace: seq<Label>, d: WfDoc): nat {
    Count(Accepted, c, a, trace, d) + Count(Republished, c, a, trace, d) + Count(LostBatch, c, a, trace, d)
    + Count(Dropped, c, a, trace, d) + Count(LostProduce, c, a, trace, d) + Count(LostIndexer, c, a, trace, d)
  }

  lemma SettledIsCounted(c: Setup, trace: seq<Label>, s: State, d: WfDoc)
    requires Trace(c, Init(c), trace, s)
    ensures Settled(s.ledger, d) == CountSettled(c, Init(c), trace, d)
  {
    BookedIsCounted(c, trace, s, d);
  }

  lemma BookedIsCounted(c: Setup, trace: seq<Label>, s: State, d: WfDoc)
    requires Trace(c, Init(c), trace, s)
    ensures forall f: Fate :: !f.Refused? ==> Booked(s.ledger, f, d) == Count(f, c, Init(c), trace, d)
  {
    forall f: Fate | !f.Refused? ensures Booked(s.ledger, f, d) == Count(f, c, Init(c), trace, d) {
      LedgerIsExact(c, trace, s, f, d);
    }
  }

  /** Conservation, in every run and by its own steps: the copies of a document that have been
      consumed are those in flight and those that have met exactly one final fate. */
  lemma RunConserves(c: Setup, trace: seq<Label>, s: State, d: WfDoc)
    requires Trace(c, Init(c), trace, s)
    ensures Count(Consumed, c, Init(c), trace, d) == InFlight(s, d) + CountSettled(c, Init(c), trace, d)
  {
    ReachableConserved(c, s);
    LedgerIsExact(c, trace, s, Consumed, d);
    SettledIsCounted(c, trace, s, d);
  }
}
