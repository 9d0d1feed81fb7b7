/** Every pooled buffer has exactly one owner at every step of every interleaving. */
module Ownership {
  import opened Documents
  import opened Pipeline

  // ------------------------------------------------- who holds a buffer

  function Is(x: BufId, id: BufId): nat {
    if x == id then 1 else 0
  }

  function Occ(q: seq<BufId>, id: BufId): nat {
    multiset(q)[id]
  }

  function ConsumerHolds(pc: ConsumerPc, id: BufId): nat {
    if pc.CSending? then Is(pc.msg, id) else 0
  }

  function ContHolds(k: Cont, id: BufId): nat {
    match k
    case ThenBytes(m) => Is(m, id)
    case ThenAppend(m) => Is(m, id)
    case _ => 0
  }

  /** The message and error buffers in an indexer's hand. */
  function PcHolds(pc: IndexerPc, id: BufId): nat {
    match pc
    case ITime(m) => Is(m, id)
    case IBytes(m) => Is(m, id)
    case IAppend(m) => Is(m, id)
    case IFlush(k) => ContHolds(k, id)
    case IPut(failed, k) => (if failed.Some? then Is(failed.value, id) else 0) + ContHolds(k, id)
    case ISend(out, k) => Is(out, id) + ContHolds(k, id)
    case IGet(k) => ContHolds(k, id)
    case _ => 0
  }

  function ForwarderHolds(pc: ForwarderPc, id: BufId): nat {
    if pc.FHold? then Is(pc.msg, id) else 0
  }

  function LaneData(l: Lane, id: BufId): nat {
    PcHolds(l.pc, id) + (if Unsettled(l.pc) then Is(l.ptr, id) else 0) + Occ(l.err, id) + ForwarderHolds(l.fwd, id)
  }

  /** Between the bulk call and the deferred Put the indexer still owns the sent buffer. */
  function LaneSpent(l: Lane, id: BufId): nat {
    if l.pc.IPut? then Is(l.ptr, id) else 0
  }

  function LanesData(ls: seq<Lane>, id: BufId): nat {
    if ls == [] then 0 else LaneData(ls[0], id) + LanesData(ls[1..], id)
  }

  function LanesSpent(ls: seq<Lane>, id: BufId): nat {
    if ls == [] then 0 else LaneSpent(ls[0], id) + LanesSpent(ls[1..], id)
  }

  function ProducerHolds(pc: ProducerPc, id: BufId): nat {
    if pc.PHold? || pc.PRetry? then Is(pc.msg, id) else 0
  }

  /** How many places hold the buffer while it carries documents in flight. */
  function Data(s: State, id: BufId): nat {
    ConsumerHolds(s.cpc, id) + Occ(s.inq, id) + LanesData(s.lanes, id) + Occ(s.out, id) + ProducerHolds(s.ppc, id)
  }

  /** How many other places hold it: a sent body, a pool, or nobody that still runs. */
  function Idle(s: State, id: BufId): nat {
    LanesSpent(s.lanes, id) + s.msgPool[id] + s.bulkPool[id] + s.garbage[id]
  }

  /** Exactly one owner for every allocated buffer, none for the others; and pooled buffers are
      empty. */
  ghost predicate SingleOwner(s: State) {
    && (forall id: BufId :: Data(s, id) + Idle(s, id) == if id < |s.mem| then 1 else 0)
    && (forall id: BufId :: s.msgPool[id] + s.bulkPool[id] > 0 ==> Load(s.mem, id) == [])
  }

  lemma {:induction false} SwapLane(ls: seq<Lane>, i: nat, l: Lane, id: BufId)
    requires i < |ls|
    ensures LanesData(ls[i := l], id) + LaneData(ls[i], id) == LanesData(ls, id) + LaneData(l, id)
    ensures LanesSpent(ls[i := l], id) + LaneSpent(ls[i], id) == LanesSpent(ls, id) + LaneSpent(l, id)
  {
    if i == 0 {
      assert ls[0 := l][1..] == ls[1..];
    } else {
      assert ls[i := l][1..] == ls[1..][i - 1 := l];
      SwapLane(ls[1..], i - 1, l, id);
    }
  }

  lemma OccSnoc(q: seq<BufId>, m: BufId, id: BufId)
    ensures Occ(q + [m], id) == Occ(q, id) + Is(m, id)
  {
  }

  lemma OccHead(q: seq<BufId>, id: BufId)
    requires q != []
    ensures Occ(q, id) == Is(q[0], id) + Occ(q[1..], id)
  {
    assert q == [q[0]] + q[1..];
  }

  // -------------------------------------------------- effect of each step

  /** s' differs from s in who holds buffer id: it has taken `taken` from a pool to hold
      documents, and settled or moved away the documents of `emptied`; every other holder only
      handed the buffer on. fresh: the step has allocated the next address. */
  predicate Moved(s: State, s': State, taken: Option<BufId>, emptied: Option<BufId>, id: BufId) {
    && Data(s', id) + Holds(emptied, id) == Data(s, id) + Holds(taken, id)
    && Idle(s', id) + Holds(taken, id) ==
       Idle(s, id) + Holds(emptied, id) + (if |s.mem| < |s'.mem| then Is(|s.mem|, id) else 0)
  }

  function Holds(o: Option<BufId>, id: BufId): nat {
    if o.Some? then Is(o.value, id) else 0
  }

  function ConsumerTaken(cs: ConsumerStep): Option<BufId> {
    if cs.PollMessage? then Some(cs.get) else None
  }

  function LoopEmptied(s: State, i: nat, ls: LoopStep): Option<BufId>
    requires LoopCan(s, i, ls)
  {
    match ls
    case AppendMsg => Some(s.lanes[i].pc.msg)
    case TickFail => Some(s.lanes[i].ptr)
    case _ => None
  }

  /** A bulk call takes a buffer only for an error response; the last Get of an indexer that
      returns is let go at once. */
  function FlushTaken(s: State, i: nat, fs: FlushStep): Option<BufId>
    requires At(s, i)
  {
    match fs
    case BulkCall(resp, get) =>
      if Extracts(s, i, resp) then Some(get) else None
    case GetBulk(get) => if s.lanes[i].pc.IGet? && !s.lanes[i].pc.k.ThenReturn? then Some(get) else None
    case _ => None
  }

  function FlushEmptied(c: Setup, s: State, i: nat, fs: FlushStep): Option<BufId>
    requires FlushCan(c, s, i, fs)
  {
    match fs
    case BulkCall(resp, get) => Some(s.lanes[i].ptr)
    case DropErrors => Some(s.lanes[i].pc.out)
    case _ => None
  }

  function ProducerEmptied(s: State, ps: ProducerStep): Option<BufId>
    requires ProducerCan(s, ps)
  {
    match ps
    case Produce(result) => if result.QueueFull? then None else Some(s.ppc.msg)
    case Retry(_) => Some(s.ppc.msg)
    case _ => None
  }

  function Taken(c: Setup, s: State, l: Label): Option<BufId>
    requires Enabled(c, s, l)
  {
    match l
    case Consumer(cs) => ConsumerTaken(cs)
    case Flush(i, fs) => FlushTaken(s, i, fs)
    case _ => None
  }

  function Emptied(c: Setup, s: State, l: Label): Option<BufId>
    requires Enabled(c, s, l)
  {
    match l
    case Loop(i, ls) => LoopEmptied(s, i, ls)
    case Flush(i, fs) => FlushEmptied(c, s, i, fs)
    case Producer(ps) => ProducerEmptied(s, ps)
    case _ => None
  }

  /** The effect of replacing one lane. */
  lemma LaneMove(s: State, i: nat, l': Lane, id: BufId)
    requires At(s, i)
    ensures Data(SetLane(s, i, l'), id) + LaneData(s.lanes[i], id) == Data(s, id) + LaneData(l', id)
    ensures Idle(SetLane(s, i, l'), id) + LaneSpent(s.lanes[i], id) == Idle(s, id) + LaneSpent(l', id)
  {
    SwapLane(s.lanes, i, l', id);
  }

  lemma ReceiveMoves(s: State, i: nat, id: BufId)
    requires At(s, i) && s.lanes[i].pc.ISelect? && s.inq != []
    ensures Moved(s, DoReceive(s, i), None, None, id)
  {
    OccHead(s.inq, id);
    LaneMove(s.(inq := s.inq[1..]), i, s.lanes[i].(pc := ITime(s.inq[0])), id);
  }

  lemma ConsumerSendMoves(s: State, id: BufId)
    requires s.cpc.CSending?
    ensures Moved(s, DoConsumerSend(s), None, None, id)
  {
    OccSnoc(s.inq, s.cpc.msg, id);
  }

  lemma PollMoves(s: State, get: BufId, docs: seq<WfDoc>, id: BufId)
    requires s.cpc.CPolling? && CanGet(s.msgPool, s.mem, get) && SingleOwner(s)
    ensures Moved(s, DoPollMessage(s, get, docs), Some(get), None, id)
  {
    GetMoves(s, s.msgPool, get, id);
  }

  /** A Get takes the buffer out of the pool, or allocates it. */
  lemma GetMoves(s: State, pool: multiset<BufId>, get: BufId, id: BufId)
    requires SingleOwner(s) && CanGet(pool, s.mem, get)
    requires pool == s.msgPool || pool == s.bulkPool
    ensures (pool - multiset{get})[id] + Is(get, id) ==
            pool[id] + (if |s.mem| < |Allocate(s.mem, get)| then Is(|s.mem|, id) else 0)
  {
    assert Data(s, get) + Idle(s, get) == if get < |s.mem| then 1 else 0;
  }

  lemma ConsumerMoves(c: Setup, s: State, cs: ConsumerStep, id: BufId)
    requires ConsumerCan(c, s, cs) && SingleOwner(s)
    ensures Moved(s, ConsumerNext(c, s, cs), ConsumerTaken(cs), None, id)
  {
    match cs {
      case PollMessage(get, docs) => PollMoves(s, get, docs, id);
      case ConsumerSend => ConsumerSendMoves(s, id);
      case ConsumerHand(i) =>
        ConsumerSendMoves(s, id);
        ReceiveMoves(DoConsumerSend(s), i, id);
      case _ =>
    }
  }

  lemma TestMoves(s: State, i: nat, pc: IndexerPc, id: BufId)
    requires At(s, i) && Unsettled(s.lanes[i].pc) && Unsettled(pc) && PcHolds(pc, id) == PcHolds(s.lanes[i].pc, id)
    ensures Moved(s, GoTo(s, i, pc), None, None, id)
  {
    LaneMove(s, i, s.lanes[i].(pc := pc), id);
  }

  lemma FailMoves(c: Setup, s: State, i: nat, id: BufId)
    requires At(s, i) && s.lanes[i].pc.ISelect?
    ensures Moved(s, DoTickFail(c, s, i), None, Some(s.lanes[i].ptr), id)
  {
    LaneMove(s, i, DoTickFail(c, s, i).lanes[i], id);
  }

  lemma AppendMoves(c: Setup, s: State, i: nat, id: BufId)
    requires At(s, i) && s.lanes[i].pc.IAppend?
    ensures Moved(s, DoAppendMsg(c, s, i), None, Some(s.lanes[i].pc.msg), id)
  {
    LaneMove(s, i, DoAppendMsg(c, s, i).lanes[i], id);
  }

  lemma LoopMoves(c: Setup, s: State, i: nat, ls: LoopStep, id: BufId)
    requires LoopCan(s, i, ls)
    ensures Moved(s, LoopNext(c, s, i, ls), None, LoopEmptied(s, i, ls), id)
  {
    match ls {
      case Receive => ReceiveMoves(s, i, id);
      case TickIdle =>
      case TickFail => FailMoves(c, s, i, id);
      case AppendMsg => AppendMoves(c, s, i, id);
      case _ => TestMoves(s, i, LoopNext(c, s, i, ls).lanes[i].pc, id);
    }
  }

  lemma SendMoves(s: State, i: nat, id: BufId)
    requires At(s, i) && s.lanes[i].pc.ISend?
    ensures Moved(s, DoSendErrors(s, i), None, None, id)
  {
    OccSnoc(s.lanes[i].err, s.lanes[i].pc.out, id);
    LaneMove(s, i, DoSendErrors(s, i).lanes[i], id);
  }

  lemma ForwardMoves(s: State, i: nat, id: BufId)
    requires At(s, i) && s.lanes[i].err != [] && s.lanes[i].fwd.FRange?
    ensures Moved(s, DoForward(s, i), None, None, id)
  {
    OccHead(s.lanes[i].err, id);
    LaneMove(s, i, DoForward(s, i).lanes[i], id);
  }

  lemma PutMoves(s: State, i: nat, id: BufId)
    requires At(s, i) && s.lanes[i].pc.IPut?
    ensures Moved(s, DoPutBulk(s, i), None, None, id)
  {
    LaneMove(s, i, DoPutBulk(s, i).lanes[i], id);
  }

  lemma DropMoves(s: State, i: nat, id: BufId)
    requires At(s, i) && s.lanes[i].pc.ISend?
    ensures Moved(s, DoDropErrors(s, i), None, Some(s.lanes[i].pc.out), id)
  {
    LaneMove(s, i, DoDropErrors(s, i).lanes[i], id);
  }

  lemma FlushMoves(c: Setup, s: State, i: nat, fs: FlushStep, id: BufId)
    requires FlushCan(c, s, i, fs) && SingleOwner(s)
    ensures Moved(s, FlushNext(c, s, i, fs), FlushTaken(s, i, fs), FlushEmptied(c, s, i, fs), id)
  {
    match fs {
      case BulkCall(resp, get) => BulkCallMoves(c, s, i, resp, get, id);
      case PutBulk => PutMoves(s, i, id);
      case DropErrors => DropMoves(s, i, id);
      case SendErrors => SendMoves(s, i, id);
      case HandErrors =>
        SendMoves(s, i, id);
        ForwardMoves(DoSendErrors(s, i), i, id);
      case GetBulk(get) => GetBulkMoves(c, s, i, get, id);
    }
  }

  lemma BulkCallMoves(c: Setup, s: State, i: nat, resp: Response, get: BufId, id: BufId)
    requires FlushCan(c, s, i, BulkCall(resp, get)) && SingleOwner(s)
    ensures Moved(s, DoBulkCall(s, i, resp, get), FlushTaken(s, i, BulkCall(resp, get)), Some(s.lanes[i].ptr), id)
  {
    var l, s' := s.lanes[i], DoBulkCall(s, i, resp, get);
    if FlushTaken(s, i, BulkCall(resp, get)).Some? {
      ExtractMoves(s, s', i, get, id);
    } else {
      SettledMoves(s, s', i, id);
    }
  }

  /** A bulk call that settles its whole body. */
  lemma SettledMoves(s: State, s': State, i: nat, id: BufId)
    requires At(s, i) && s.lanes[i].pc.IFlush?
    requires s' == GoTo(s, i, IPut(None, s.lanes[i].pc.k)).(ledger := s'.ledger)
    ensures Moved(s, s', None, Some(s.lanes[i].ptr), id)
  {
    LaneMove(s, i, s.lanes[i].(pc := IPut(None, s.lanes[i].pc.k)), id);
  }

  /** A bulk call that writes failed documents to a new buffer. */
  lemma ExtractMoves(s: State, s': State, i: nat, get: BufId, id: BufId)
    requires At(s, i) && s.lanes[i].pc.IFlush? && SingleOwner(s) && CanGet(s.msgPool, s.mem, get)
    requires |s'.mem| == |Allocate(s.mem, get)|
    requires s' == GoTo(s, i, IPut(Some(get), s.lanes[i].pc.k)).(
                     msgPool := s.msgPool - multiset{get}, mem := s'.mem, ledger := s'.ledger)
    ensures Moved(s, s', Some(get), Some(s.lanes[i].ptr), id)
  {
    TakeMoves(s, s', i, s.lanes[i].(pc := IPut(Some(get), s.lanes[i].pc.k)), get, id);
  }

  /** s' is s with lane i replaced and get taken from the message pool. */
  lemma TakeMoves(s: State, s': State, i: nat, l': Lane, get: BufId, id: BufId)
    requires At(s, i) && SingleOwner(s) && CanGet(s.msgPool, s.mem, get)
    requires s'.lanes == s.lanes[i := l'] && s'.msgPool == s.msgPool - multiset{get}
    requires s'.cpc == s.cpc && s'.inq == s.inq && s'.out == s.out && s'.ppc == s.ppc
    requires s'.bulkPool == s.bulkPool && s'.garbage == s.garbage && |s'.mem| == |Allocate(s.mem, get)|
    ensures Data(s', id) + LaneData(s.lanes[i], id) == Data(s, id) + LaneData(l', id)
    ensures Idle(s', id) + LaneSpent(s.lanes[i], id) + Is(get, id) ==
            Idle(s, id) + LaneSpent(l', id) + if |s.mem| < |s'.mem| then Is(|s.mem|, id) else 0
  {
    SwapLane(s.lanes, i, l', id);
    GetMoves(s, s.msgPool, get, id);
  }

  lemma GetBulkMoves(c: Setup, s: State, i: nat, get: BufId, id: BufId)
    requires FlushCan(c, s, i, GetBulk(get)) && SingleOwner(s)
    ensures Moved(s, DoGetBulk(c, s, i, get), FlushTaken(s, i, GetBulk(get)), None, id)
  {
    var l, s' := s.lanes[i], DoGetBulk(c, s, i, get);
    if l.pc.k.ThenReturn? {
      ReturnMoves(s, s', i, s'.lanes[i], get, id);
    } else {
      ResumeMoves(s, s', i, s'.lanes[i], get, id);
    }
  }

  lemma ResumeMoves(s: State, s': State, i: nat, l': Lane, get: BufId, id: BufId)
    requires At(s, i) && SingleOwner(s) && CanGet(s.bulkPool, s.mem, get)
    requires s.lanes[i].pc.IGet? && !s.lanes[i].pc.k.ThenReturn?
    requires l' == s.lanes[i].(pc := Resume(s.lanes[i].pc.k), ptr := get, count := 0, errClosed := l'.errClosed)
    requires s' == SetLane(s, i, l').(mem := Allocate(s.mem, get), bulkPool := s.bulkPool - multiset{get})
    ensures Moved(s, s', Some(get), None, id)
  {
    GetMoves(s, s.bulkPool, get, id);
    LaneMove(s, i, l', id);
  }

  lemma ReturnMoves(s: State, s': State, i: nat, l': Lane, get: BufId, id: BufId)
    requires At(s, i) && SingleOwner(s) && CanGet(s.bulkPool, s.mem, get)
    requires s.lanes[i].pc == IGet(ThenReturn)
    requires l' == s.lanes[i].(pc := IDone, ptr := get, count := 0, errClosed := l'.errClosed)
    requires s' == SetLane(s, i, l').(mem := Allocate(s.mem, get), bulkPool := s.bulkPool - multiset{get},
                                      garbage := s.garbage + multiset{get})
    ensures Moved(s, s', None, None, id)
  {
    GetMoves(s, s.bulkPool, get, id);
    LaneMove(s, i, l', id);
  }

  lemma ForwardSendMoves(s: State, i: nat, id: BufId)
    requires At(s, i) && s.lanes[i].fwd.FHold?
    ensures Moved(s, DoForwardSend(s, i), None, None, id)
  {
    OccSnoc(s.out, s.lanes[i].fwd.msg, id);
    LaneMove(s, i, DoForwardSend(s, i).lanes[i], id);
  }

  lemma MergeMoves(c: Setup, s: State, i: nat, ms: ForwarderStep, id: BufId)
    requires MergeCan(c, s, i, ms)
    ensures Moved(s, MergeNext(c, s, i, ms), None, None, id)
  {
    match ms {
      case Forward => ForwardMoves(s, i, id);
      case ForwardEnd => LaneMove(s, i, s.lanes[i].(fwd := FDone), id);
      case ForwardSend => ForwardSendMoves(s, i, id);
      case ForwardHand =>
        ForwardSendMoves(s, i, id);
        OccHead(DoForwardSend(s, i).out, id);
    }
  }

  lemma SettleMoves(s: State, m: BufId, ok: bool, id: BufId)
    requires (s.ppc.PHold? || s.ppc.PRetry?) && s.ppc.msg == m
    ensures Moved(s, Settle(s, m, ok), None, Some(m), id)
  {
  }

  lemma ProducerMoves(s: State, ps: ProducerStep, id: BufId)
    requires ProducerCan(s, ps)
    ensures Moved(s, ProducerNext(s, ps), None, ProducerEmptied(s, ps), id)
  {
    match ps {
      case ProducerReceive => OccHead(s.out, id);
      case Produce(result) =>
        if !result.QueueFull? {
          SettleMoves(s, s.ppc.msg, result.Produced?, id);
        }
      case Retry(ok) => SettleMoves(s, s.ppc.msg, ok, id);
      case _ =>
    }
  }

  lemma StepMoves(c: Setup, s: State, l: Label, id: BufId)
    requires Enabled(c, s, l) && SingleOwner(s)
    ensures Moved(s, Next(c, s, l), Taken(c, s, l), Emptied(c, s, l), id)
  {
    match l {
      case Consumer(cs) => ConsumerMoves(c, s, cs, id);
      case Loop(i, ls) => LoopMoves(c, s, i, ls, id);
      case Flush(i, fs) => FlushMoves(c, s, i, fs, id);
      case Merge(i, ms) => MergeMoves(c, s, i, ms, id);
      case Producer(ps) => ProducerMoves(s, ps, id);
      case _ =>
    }
  }

  // ---------------------------------------------------- effect on memory

  /** Documents appended to a buffer. */
  datatype Write = Write(id: BufId, docs: seq<WfDoc>)

  function Grown(c: Setup, s: State, l: Label): Option<Write>
    requires Enabled(c, s, l)
  {
    match l
    case Consumer(PollMessage(get, docs)) => Some(Write(get, docs))
    case Loop(i, AppendMsg) => Some(Write(s.lanes[i].ptr, Load(s.mem, s.lanes[i].pc.msg)))
    case Flush(i, BulkCall(resp, get)) =>
      if FlushTaken(s, i, BulkCall(resp, get)).Some?
      then Some(Write(get, Failed(Load(s.mem, s.lanes[i].ptr), resp.items))) else None
    case _ => None
  }

  function FlushRecycled(c: Setup, s: State, i: nat, fs: FlushStep): Option<BufId>
    requires FlushCan(c, s, i, fs)
  {
    match fs
    case PutBulk => Some(s.lanes[i].ptr)
    case DropErrors => Some(s.lanes[i].pc.out)
    case _ => None
  }

  /** The buffer a step puts back into a pool, which empties it. */
  function Recycled(c: Setup, s: State, l: Label): Option<BufId>
    requires Enabled(c, s, l)
  {
    match l
    case Loop(i, AppendMsg) => Some(s.lanes[i].pc.msg)
    case Flush(i, fs) => FlushRecycled(c, s, i, fs)
    case Producer(ps) => ProducerEmptied(s, ps)
    case _ => None
  }

  lemma {:induction false} LaneHeld(ls: seq<Lane>, i: nat, id: BufId)
    requires i < |ls|
    ensures LaneData(ls[i], id) <= LanesData(ls, id) && LaneSpent(ls[i], id) <= LanesSpent(ls, id)
  {
    if i > 0 {
      LaneHeld(ls[1..], i - 1, id);
    }
  }

  /** A buffer that someone holds is allocated, and held by nobody else. */
  lemma HeldOnce(s: State, i: nat, id: BufId)
    requires At(s, i) && SingleOwner(s) && LaneData(s.lanes[i], id) + LaneSpent(s.lanes[i], id) > 0
    ensures id < |s.mem| && LaneData(s.lanes[i], id) + LaneSpent(s.lanes[i], id) == 1
    ensures s.msgPool[id] == s.bulkPool[id] == 0
    ensures Data(s, id) == LaneData(s.lanes[i], id)
  {
    LaneHeld(s.lanes, i, id);
    assert Data(s, id) + Idle(s, id) == if id < |s.mem| then 1 else 0;
  }

  /** What a step does to the content of buffer id. */
  ghost predicate Wrote(c: Setup, s: State, l: Label, id: BufId)
    requires Enabled(c, s, l)
  {
    var g := Grown(c, s, l);
    Load(Next(c, s, l).mem, id) ==
      if Recycled(c, s, l) == Some(id) then []
      else if g.Some? && g.value.id == id then Load(s.mem, id) + g.value.docs
      else Load(s.mem, id)
  }

  lemma AppendWrites(c: Setup, s: State, i: nat, id: BufId)
    requires LoopCan(s, i, AppendMsg) && SingleOwner(s)
    ensures Wrote(c, s, Loop(i, AppendMsg), id)
  {
    HeldOnce(s, i, s.lanes[i].ptr);
    HeldOnce(s, i, s.lanes[i].pc.msg);
  }

  lemma BulkCallWrites(c: Setup, s: State, i: nat, resp: Response, get: BufId, id: BufId)
    requires FlushCan(c, s, i, BulkCall(resp, get)) && SingleOwner(s)
    ensures Wrote(c, s, Flush(i, BulkCall(resp, get)), id)
  {
    if FlushTaken(s, i, BulkCall(resp, get)).Some? {
      GetStores(s, get, Failed(Load(s.mem, s.lanes[i].ptr), resp.items), id);
    } else {
      assert DoBulkCall(s, i, resp, get).mem == s.mem;
    }
  }

  /** What a Get and a write to the buffer do to the memory. */
  lemma GetStores(s: State, get: BufId, docs: seq<WfDoc>, id: BufId)
    requires SingleOwner(s) && CanGet(s.msgPool, s.mem, get)
    ensures var mem := Allocate(s.mem, get);
            Load(Store(mem, get, Load(mem, get) + docs), id) ==
            if id == get then Load(s.mem, id) + docs else Load(s.mem, id)
  {
    assert Data(s, get) + Idle(s, get) == if get < |s.mem| then 1 else 0;
  }

  lemma PutWrites(c: Setup, s: State, i: nat, id: BufId)
    requires FlushCan(c, s, i, PutBulk) && SingleOwner(s)
    ensures Wrote(c, s, Flush(i, PutBulk), id)
  {
    HeldOnce(s, i, s.lanes[i].ptr);
  }

  lemma DropWrites(c: Setup, s: State, i: nat, id: BufId)
    requires FlushCan(c, s, i, DropErrors) && SingleOwner(s)
    ensures Wrote(c, s, Flush(i, DropErrors), id)
  {
    HeldOnce(s, i, s.lanes[i].pc.out);
  }

  lemma FlushWrites(c: Setup, s: State, i: nat, fs: FlushStep, id: BufId)
    requires FlushCan(c, s, i, fs) && SingleOwner(s)
    ensures Wrote(c, s, Flush(i, fs), id)
  {
    match fs {
      case BulkCall(resp, get) => BulkCallWrites(c, s, i, resp, get, id);
      case PutBulk => PutWrites(c, s, i, id);
      case DropErrors => DropWrites(c, s, i, id);
      case _ =>
    }
  }

  lemma LoopWrites(c: Setup, s: State, i: nat, ls: LoopStep, id: BufId)
    requires LoopCan(s, i, ls) && SingleOwner(s)
    ensures Wrote(c, s, Loop(i, ls), id)
  {
    if ls.AppendMsg? {
      AppendWrites(c, s, i, id);
    } else {
      assert LoopNext(c, s, i, ls).mem == s.mem;
    }
  }

  lemma MergeWrites(c: Setup, s: State, i: nat, ms: ForwarderStep, id: BufId)
    requires MergeCan(c, s, i, ms)
    ensures Wrote(c, s, Merge(i, ms), id)
  {
    assert MergeNext(c, s, i, ms).mem == s.mem;
  }

  lemma StepWrites(c: Setup, s: State, l: Label, id: BufId)
    requires Enabled(c, s, l) && SingleOwner(s)
    ensures Wrote(c, s, l, id)
  {
    match l {
      case Consumer(cs) => PollWrites(c, s, cs, id);
      case Loop(i, ls) => LoopWrites(c, s, i, ls, id);
      case Flush(i, fs) => FlushWrites(c, s, i, fs, id);
      case Merge(i, ms) => MergeWrites(c, s, i, ms, id);
      case Producer(ps) => ProducerWrites(c, s, ps, id);
      case _ =>
    }
  }

  lemma PollWrites(c: Setup, s: State, cs: ConsumerStep, id: BufId)
    requires ConsumerCan(c, s, cs) && SingleOwner(s)
    ensures Wrote(c, s, Consumer(cs), id)
  {
    if cs.PollMessage? {
      PollStores(s, cs.get, cs.docs, id);
    }
  }

  lemma PollStores(s: State, get: BufId, docs: seq<WfDoc>, id: BufId)
    requires CanGet(s.msgPool, s.mem, get) && SingleOwner(s)
    ensures Load(DoPollMessage(s, get, docs).mem, id) == if id == get then Load(s.mem, id) + docs else Load(s.mem, id)
  {
    GetStores(s, get, docs, id);
  }

  lemma ProducerWrites(c: Setup, s: State, ps: ProducerStep, id: BufId)
    requires ProducerCan(s, ps) && SingleOwner(s)
    ensures Wrote(c, s, Producer(ps), id)
  {
    match ps {
      case Produce(result) =>
        ProducerHeld(s);
        SettleWrites(s, s.ppc.msg, result.Produced?, id);
      case Retry(ok) =>
        ProducerHeld(s);
        SettleWrites(s, s.ppc.msg, ok, id);
      case _ =>
    }
  }

  lemma ProducerHeld(s: State)
    requires SingleOwner(s) && (s.ppc.PHold? || s.ppc.PRetry?)
    ensures s.ppc.msg < |s.mem|
  {
    assert Data(s, s.ppc.msg) + Idle(s, s.ppc.msg) == if s.ppc.msg < |s.mem| then 1 else 0;
  }

  lemma SettleWrites(s: State, m: BufId, ok: bool, id: BufId)
    requires m < |s.mem|
    ensures Load(Settle(s, m, ok).mem, id) == if id == m then [] else Load(s.mem, id)
  {
  }

  // ------------------------------------------------- the invariant is kept

  /** At most one buffer enters the pools and at most one is allocated. */
  predicate PoolsChange(s: State, s': State, recycled: Option<BufId>, id: BufId) {
    && s'.msgPool[id] + s'.bulkPool[id] <= s.msgPool[id] + s.bulkPool[id] + Holds(recycled, id)
    && |s.mem| <= |s'.mem| <= |s.mem| + 1
  }

  lemma LoopPools(c: Setup, s: State, i: nat, ls: LoopStep, id: BufId)
    requires LoopCan(s, i, ls)
    ensures PoolsChange(s, LoopNext(c, s, i, ls), Recycled(c, s, Loop(i, ls)), id)
  {
  }

  lemma BulkCallPools(c: Setup, s: State, i: nat, resp: Response, get: BufId, id: BufId)
    requires FlushCan(c, s, i, BulkCall(resp, get))
    ensures PoolsChange(s, DoBulkCall(s, i, resp, get), None, id)
  {
  }

  lemma PutPools(s: State, i: nat, id: BufId)
    requires At(s, i) && s.lanes[i].pc.IPut?
    ensures PoolsChange(s, DoPutBulk(s, i), Some(s.lanes[i].ptr), id)
  {
  }

  lemma DropPools(s: State, i: nat, id: BufId)
    requires At(s, i) && s.lanes[i].pc.ISend?
    ensures PoolsChange(s, DoDropErrors(s, i), Some(s.lanes[i].pc.out), id)
  {
  }

  lemma GetPools(c: Setup, s: State, i: nat, get: BufId, id: BufId)
    requires At(s, i) && s.lanes[i].pc.IGet?
    ensures PoolsChange(s, DoGetBulk(c, s, i, get), None, id)
  {
  }

  lemma SendPools(s: State, i: nat, id: BufId)
    requires At(s, i) && s.lanes[i].pc.ISend?
    ensures PoolsChange(s, DoSendErrors(s, i), None, id)
    ensures PoolsChange(s, DoForward(DoSendErrors(s, i), i), None, id)
  {
  }

  lemma FlushPools(c: Setup, s: State, i: nat, fs: FlushStep, id: BufId)
    requires FlushCan(c, s, i, fs)
    ensures PoolsChange(s, FlushNext(c, s, i, fs), FlushRecycled(c, s, i, fs), id)
  {
    match fs {
      case BulkCall(resp, get) => BulkCallPools(c, s, i, resp, get, id);
      case PutBulk => PutPools(s, i, id);
      case DropErrors => DropPools(s, i, id);
      case GetBulk(get) => GetPools(c, s, i, get, id);
      case _ => SendPools(s, i, id);
    }
  }

  lemma PollPools(s: State, get: BufId, docs: seq<WfDoc>, id: BufId)
    ensures PoolsChange(s, DoPollMessage(s, get, docs), None, id)
  {
  }

  lemma SettlePools(s: State, m: BufId, ok: bool, id: BufId)
    ensures PoolsChange(s, Settle(s, m, ok), Some(m), id)
  {
  }

  lemma ConsumerPools(c: Setup, s: State, cs: ConsumerStep, id: BufId)
    requires ConsumerCan(c, s, cs)
    ensures PoolsChange(s, ConsumerNext(c, s, cs), None, id)
  {
    if cs.PollMessage? {
      PollPools(s, cs.get, cs.docs, id);
    }
  }

  lemma ProducerPools(s: State, ps: ProducerStep, id: BufId)
    requires ProducerCan(s, ps)
    ensures PoolsChange(s, ProducerNext(s, ps), ProducerEmptied(s, ps), id)
  {
    match ps {
      case Produce(result) => SettlePools(s, s.ppc.msg, result.Produced?, id);
      case Retry(ok) => SettlePools(s, s.ppc.msg, ok, id);
      case _ =>
    }
  }

  lemma StepPools(c: Setup, s: State, l: Label, id: BufId)
    requires Enabled(c, s, l)
    ensures PoolsChange(s, Next(c, s, l), Recycled(c, s, l), id)
  {
    match l {
      case Loop(i, ls) => LoopPools(c, s, i, ls, id);
      case Flush(i, fs) => FlushPools(c, s, i, fs, id);
      case Consumer(cs) => ConsumerPools(c, s, cs, id);
      case Producer(ps) => ProducerPools(s, ps, id);
      case _ =>
    }
  }

  /** A step never writes to a buffer that is in a pool before and after it. */
  lemma GrownIsHeld(c: Setup, s: State, l: Label)
    requires Enabled(c, s, l) && SingleOwner(s) && Grown(c, s, l).Some?
    ensures var id := Grown(c, s, l).value.id;
            || Taken(c, s, l) == Some(id)
            || (s.msgPool[id] == s.bulkPool[id] == 0 && Data(s, id) == 1 && Emptied(c, s, l) != Some(id))
  {
    if l.Loop? {
      HeldOnce(s, l.i, s.lanes[l.i].ptr);
      HeldOnce(s, l.i, s.lanes[l.i].pc.msg);
      assert LaneData(s.lanes[l.i], s.lanes[l.i].ptr) >= Is(s.lanes[l.i].pc.msg, s.lanes[l.i].ptr) + 1;
    }
  }

  /** A buffer that a pool can hand out is empty and held by nobody. */
  lemma AvailableIsFree(s: State, id: BufId)
    requires SingleOwner(s) && (CanGet(s.msgPool, s.mem, id) || CanGet(s.bulkPool, s.mem, id))
    ensures Data(s, id) == 0 && Load(s.mem, id) == []
    ensures CanGet(s.msgPool, s.mem, id) ==> (s.msgPool - multiset{id})[id] + s.bulkPool[id] == 0
    ensures CanGet(s.bulkPool, s.mem, id) ==> s.msgPool[id] + (s.bulkPool - multiset{id})[id] == 0
  {
    assert Data(s, id) + Idle(s, id) == if id < |s.mem| then 1 else 0;
  }

  lemma TakenWasAvailable(c: Setup, s: State, l: Label)
    requires Enabled(c, s, l) && Taken(c, s, l).Some?
    ensures var id, s' := Taken(c, s, l).value, Next(c, s, l);
            || (CanGet(s.msgPool, s.mem, id) && s'.msgPool == s.msgPool - multiset{id} && s'.bulkPool == s.bulkPool)
            || (CanGet(s.bulkPool, s.mem, id) && s'.bulkPool == s.bulkPool - multiset{id} && s'.msgPool == s.msgPool)
  {
  }

  lemma TakenLeavesPool(c: Setup, s: State, l: Label, id: BufId)
    requires Enabled(c, s, l) && SingleOwner(s) && Taken(c, s, l) == Some(id)
    ensures var s' := Next(c, s, l); s'.msgPool[id] + s'.bulkPool[id] == 0
    ensures Recycled(c, s, l) == None && Emptied(c, s, l) != Some(id) && Load(s.mem, id) == [] && Data(s, id) == 0
  {
    TakenWasAvailable(c, s, l);
    AvailableIsFree(s, id);
    if l.Flush? {
      HeldOnceIfLive(s, l.i);
    }
  }

  lemma HeldOnceIfLive(s: State, i: nat)
    requires At(s, i) && SingleOwner(s)
    ensures Unsettled(s.lanes[i].pc) ==> Data(s, s.lanes[i].ptr) == 1
  {
    if Unsettled(s.lanes[i].pc) {
      HeldOnce(s, i, s.lanes[i].ptr);
    }
  }

  lemma PoolsStayEmpty(c: Setup, s: State, l: Label, id: BufId)
    requires Enabled(c, s, l) && SingleOwner(s)
    ensures var s' := Next(c, s, l); s'.msgPool[id] + s'.bulkPool[id] > 0 ==> Load(s'.mem, id) == []
  {
    StepWrites(c, s, l, id);
    StepPools(c, s, l, id);
    if Taken(c, s, l) == Some(id) {
      TakenLeavesPool(c, s, l, id);
    }
    if Grown(c, s, l).Some? {
      GrownIsHeld(c, s, l);
    }
  }

  lemma StepKeepsSingleOwner(c: Setup, s: State, l: Label)
    requires Enabled(c, s, l) && SingleOwner(s)
    ensures SingleOwner(Next(c, s, l))
  {
    var s' := Next(c, s, l);
    StepPools(c, s, l, 0);
    forall id: BufId ensures Data(s', id) + Idle(s', id) == if id < |s'.mem| then 1 else 0 {
      StepMoves(c, s, l, id);
      assert Data(s, id) + Idle(s, id) == if id < |s.mem| then 1 else 0;
    }
    forall id: BufId | s'.msgPool[id] + s'.bulkPool[id] > 0 ensures Load(s'.mem, id) == [] {
      PoolsStayEmpty(c, s, l, id);
    }
  }

  lemma {:induction false} LanesStartEmpty(ls: seq<Lane>, id: BufId)
    requires forall i :: 0 <= i < |ls| ==> ls[i].pc == IGet(ThenSelect) && ls[i].err == [] && !ls[i].fwd.FHold?
    ensures LanesData(ls, id) == 0 && LanesSpent(ls, id) == 0
  {
    if ls != [] {
      LanesStartEmpty(ls[1..], id);
    }
  }

  lemma InitSingleOwner(c: Setup)
    ensures SingleOwner(Init(c))
  {
    forall id: BufId ensures Data(Init(c), id) + Idle(Init(c), id) == 0 {
      LanesStartEmpty(Init(c).lanes, id);
    }
  }

  lemma {:induction false} TraceSingleOwner(c: Setup, a: State, trace: seq<Label>, b: State)
    requires SingleOwner(a) && Trace(c, a, trace, b)
    ensures SingleOwner(b)
    decreases |trace|
  {
    if trace != [] {
      StepKeepsSingleOwner(c, a, trace[0]);
      TraceSingleOwner(c, Next(c, a, trace[0]), trace[1..], b);
    }
  }

  /** In every reachable state every buffer has exactly one owner: one goroutine, one channel
      slot, one pool entry, or a goroutine that has ended. None is in a pool twice. */
  lemma ReachableSingleOwner(c: Setup, s: State)
    requires Reachable(c, s)
    ensures SingleOwner(s)
  {
    var trace :| Trace(c, Init(c), trace, s);
    InitSingleOwner(c);
    TraceSingleOwner(c, Init(c), trace, s);
  }

  // ----------------------------------------------------- exclusive access

  /** The goroutine of indexer i holds the buffer; a stale b.buffer does not count. */
  predicate IndexerHolds(s: State, i: nat, id: BufId)
    requires At(s, i)
  {
    var l := s.lanes[i];
    PcHolds(l.pc, id) > 0 || ((Unsettled(l.pc) || l.pc.IPut?) && l.ptr == id)
  }

  /** The goroutine that takes the step holds the buffer, or gets it from a pool in this step. */
  predicate MayTouch(c: Setup, s: State, l: Label, id: BufId)
    requires Enabled(c, s, l)
  {
    || Taken(c, s, l) == Some(id)
    || match l
       case Consumer(_) => ConsumerHolds(s.cpc, id) > 0
       case Loop(i, _) => IndexerHolds(s, i, id)
       case Flush(i, _) => IndexerHolds(s, i, id) || (l.fs.GetBulk? && l.fs.get == id)
       case Producer(_) => ProducerHolds(s.ppc, id) > 0
       case _ => false
  }

  /** The same state with other documents in buffer id. */
  function Scribble(s: State, id: BufId, docs: seq<WfDoc>): State {
    s.(mem := Store(s.mem, id, docs))
  }

  lemma StoresCommute(mem: seq<seq<WfDoc>>, x: BufId, v: seq<WfDoc>, id: BufId, docs: seq<WfDoc>)
    requires x != id
    ensures Store(Store(mem, id, docs), x, v) == Store(Store(mem, x, v), id, docs)
    ensures Load(Store(mem, id, docs), x) == Load(mem, x)
  {
  }

  lemma AllocateCommutes(mem: seq<seq<WfDoc>>, x: BufId, id: BufId, docs: seq<WfDoc>)
    requires x != id
    ensures Allocate(Store(mem, id, docs), x) == Store(Allocate(mem, x), id, docs)
    ensures |Store(mem, id, docs)| == |mem|
  {
  }

  lemma PollIndependent(s: State, get: BufId, more: seq<WfDoc>, id: BufId, docs: seq<WfDoc>)
    requires get != id
    ensures DoPollMessage(Scribble(s, id, docs), get, more) == Scribble(DoPollMessage(s, get, more), id, docs)
    ensures CanGet(s.msgPool, Scribble(s, id, docs).mem, get) == CanGet(s.msgPool, s.mem, get)
  {
    AllocateCommutes(s.mem, get, id, docs);
    var mem := Allocate(s.mem, get);
    StoresCommute(mem, get, Load(mem, get) + more, id, docs);
  }

  lemma ConsumerIndependent(c: Setup, s: State, cs: ConsumerStep, id: BufId, docs: seq<WfDoc>)
    requires ConsumerCan(c, s, cs) && ConsumerTaken(cs) != Some(id)
    ensures ConsumerCan(c, Scribble(s, id, docs), cs)
    ensures ConsumerNext(c, Scribble(s, id, docs), cs) == Scribble(ConsumerNext(c, s, cs), id, docs)
  {
    if cs.PollMessage? {
      PollIndependent(s, cs.get, cs.docs, id, docs);
    }
  }

  lemma AppendIndependent(c: Setup, s: State, i: nat, id: BufId, docs: seq<WfDoc>)
    requires LoopCan(s, i, AppendMsg) && s.lanes[i].ptr != id && s.lanes[i].pc.msg != id
    ensures DoAppendMsg(c, Scribble(s, id, docs), i) == Scribble(DoAppendMsg(c, s, i), id, docs)
  {
    var ptr, m := s.lanes[i].ptr, s.lanes[i].pc.msg;
    var v := Load(s.mem, ptr) + Load(s.mem, m);
    StoresCommute(s.mem, ptr, v, id, docs);
    StoresCommute(s.mem, m, v, id, docs);
    StoresCommute(Store(s.mem, ptr, v), m, [], id, docs);
  }

  lemma LoopIndependent(c: Setup, s: State, i: nat, ls: LoopStep, id: BufId, docs: seq<WfDoc>)
    requires LoopCan(s, i, ls) && !IndexerHolds(s, i, id)
    ensures LoopNext(c, Scribble(s, id, docs), i, ls) == Scribble(LoopNext(c, s, i, ls), id, docs)
  {
    match ls {
      case AppendMsg => AppendIndependent(c, s, i, id, docs);
      case TickFail => FailIndependent(c, s, i, id, docs);
      case BytesTest => TestIndependent(c, s, i, id, docs);
      case _ =>
    }
  }

  lemma FailIndependent(c: Setup, s: State, i: nat, id: BufId, docs: seq<WfDoc>)
    requires At(s, i) && s.lanes[i].ptr != id
    ensures DoTickFail(c, Scribble(s, id, docs), i) == Scribble(DoTickFail(c, s, i), id, docs)
  {
    StoresCommute(s.mem, s.lanes[i].ptr, [], id, docs);
  }

  lemma TestIndependent(c: Setup, s: State, i: nat, id: BufId, docs: seq<WfDoc>)
    requires At(s, i) && s.lanes[i].pc.IBytes? && s.lanes[i].ptr != id && s.lanes[i].pc.msg != id
    ensures DoBytesTest(c, Scribble(s, id, docs), i) == Scribble(DoBytesTest(c, s, i), id, docs)
  {
    StoresCommute(s.mem, s.lanes[i].ptr, [], id, docs);
    StoresCommute(s.mem, s.lanes[i].pc.msg, [], id, docs);
  }

  lemma CanCallIndependent(c: Setup, s: State, i: nat, resp: Response, get: BufId, id: BufId, docs: seq<WfDoc>)
    requires FlushCan(c, s, i, BulkCall(resp, get)) && s.lanes[i].ptr != id
    ensures FlushCan(c, Scribble(s, id, docs), i, BulkCall(resp, get))
    ensures Load(Scribble(s, id, docs).mem, s.lanes[i].ptr) == Load(s.mem, s.lanes[i].ptr)
  {
    StoresCommute(s.mem, s.lanes[i].ptr, [], id, docs);
  }

  lemma BulkCallIndependent(c: Setup, s: State, i: nat, resp: Response, get: BufId, id: BufId, docs: seq<WfDoc>)
    requires FlushCan(c, s, i, BulkCall(resp, get)) && s.lanes[i].ptr != id
    requires FlushTaken(s, i, BulkCall(resp, get)) != Some(id)
    ensures FlushCan(c, Scribble(s, id, docs), i, BulkCall(resp, get))
    ensures DoBulkCall(Scribble(s, id, docs), i, resp, get) == Scribble(DoBulkCall(s, i, resp, get), id, docs)
  {
    CanCallIndependent(c, s, i, resp, get, id, docs);
    if FlushTaken(s, i, BulkCall(resp, get)).Some? {
      TakeIndependent(s.mem, get, Failed(Load(s.mem, s.lanes[i].ptr), resp.items), id, docs);
    }
  }

  lemma TakeIndependent(mem: seq<seq<WfDoc>>, get: BufId, more: seq<WfDoc>, id: BufId, docs: seq<WfDoc>)
    requires get != id
    ensures var a, b := Allocate(mem, get), Allocate(Store(mem, id, docs), get);
            Store(b, get, Load(b, get) + more) == Store(Store(a, get, Load(a, get) + more), id, docs)
  {
    AllocateCommutes(mem, get, id, docs);
    var a := Allocate(mem, get);
    StoresCommute(a, get, Load(a, get) + more, id, docs);
  }

  lemma PutIndependent(s: State, i: nat, id: BufId, docs: seq<WfDoc>)
    requires At(s, i) && s.lanes[i].pc.IPut? && s.lanes[i].ptr != id
    ensures DoPutBulk(Scribble(s, id, docs), i) == Scribble(DoPutBulk(s, i), id, docs)
  {
    StoresCommute(s.mem, s.lanes[i].ptr, [], id, docs);
  }

  lemma DropIndependent(c: Setup, s: State, i: nat, id: BufId, docs: seq<WfDoc>)
    requires At(s, i) && s.lanes[i].pc.ISend? && s.lanes[i].pc.out != id
    ensures DoDropErrors(Scribble(s, id, docs), i) == Scribble(DoDropErrors(s, i), id, docs)
    ensures Wanted(c, Scribble(s, id, docs), i) == Wanted(c, s, i)
  {
    StoresCommute(s.mem, s.lanes[i].pc.out, [], id, docs);
  }

  lemma GetIndependent(c: Setup, s: State, i: nat, get: BufId, id: BufId, docs: seq<WfDoc>)
    requires At(s, i) && s.lanes[i].pc.IGet? && get != id
    ensures DoGetBulk(c, Scribble(s, id, docs), i, get) == Scribble(DoGetBulk(c, s, i, get), id, docs)
  {
    AllocateCommutes(s.mem, get, id, docs);
  }

  lemma FlushIndependent(c: Setup, s: State, i: nat, fs: FlushStep, id: BufId, docs: seq<WfDoc>)
    requires FlushCan(c, s, i, fs) && !IndexerHolds(s, i, id)
    requires FlushTaken(s, i, fs) != Some(id) && !(fs.GetBulk? && fs.get == id)
    ensures FlushCan(c, Scribble(s, id, docs), i, fs)
    ensures FlushNext(c, Scribble(s, id, docs), i, fs) == Scribble(FlushNext(c, s, i, fs), id, docs)
  {
    match fs {
      case BulkCall(resp, get) => BulkCallIndependent(c, s, i, resp, get, id, docs);
      case PutBulk => PutIndependent(s, i, id, docs);
      case GetBulk(get) => GetIndependent(c, s, i, get, id, docs);
      case _ => DropIndependent(c, s, i, id, docs);
    }
  }

  lemma SettleIndependent(s: State, m: BufId, ok: bool, id: BufId, docs: seq<WfDoc>)
    requires m != id
    ensures Settle(Scribble(s, id, docs), m, ok) == Scribble(Settle(s, m, ok), id, docs)
  {
    StoresCommute(s.mem, m, [], id, docs);
  }

  lemma ProducerIndependent(s: State, ps: ProducerStep, id: BufId, docs: seq<WfDoc>)
    requires ProducerCan(s, ps) && ProducerHolds(s.ppc, id) == 0
    ensures ProducerNext(Scribble(s, id, docs), ps) == Scribble(ProducerNext(s, ps), id, docs)
  {
    match ps {
      case Produce(result) => SettleIndependent(s, s.ppc.msg, result.Produced?, id, docs);
      case Retry(ok) => SettleIndependent(s, s.ppc.msg, ok, id, docs);
      case _ =>
    }
  }

  lemma MergeIndependent(c: Setup, s: State, i: nat, ms: ForwarderStep, id: BufId, docs: seq<WfDoc>)
    requires MergeCan(c, s, i, ms)
    ensures MergeCan(c, Scribble(s, id, docs), i, ms)
    ensures MergeNext(c, Scribble(s, id, docs), i, ms) == Scribble(MergeNext(c, s, i, ms), id, docs)
  {
  }

  /** The step does the same, and leaves it alone, if buffer id has other content. */
  predicate Independent(c: Setup, s: State, l: Label, id: BufId, docs: seq<WfDoc>)
    requires Enabled(c, s, l)
  {
    && Enabled(c, Scribble(s, id, docs), l)
    && Next(c, Scribble(s, id, docs), l) == Scribble(Next(c, s, l), id, docs)
  }

  lemma LoopOwnersOnly(c: Setup, s: State, i: nat, ls: LoopStep, id: BufId, docs: seq<WfDoc>)
    requires LoopCan(s, i, ls) && !MayTouch(c, s, Loop(i, ls), id)
    ensures Independent(c, s, Loop(i, ls), id, docs)
  {
    LoopIndependent(c, s, i, ls, id, docs);
  }

  lemma FlushOwnersOnly(c: Setup, s: State, i: nat, fs: FlushStep, id: BufId, docs: seq<WfDoc>)
    requires FlushCan(c, s, i, fs) && !MayTouch(c, s, Flush(i, fs), id)
    ensures Independent(c, s, Flush(i, fs), id, docs)
  {
    FlushIndependent(c, s, i, fs, id, docs);
  }

  lemma OtherOwnersOnly(c: Setup, s: State, l: Label, id: BufId, docs: seq<WfDoc>)
    requires Enabled(c, s, l) && !MayTouch(c, s, l, id) && !l.Loop? && !l.Flush?
    ensures Independent(c, s, l, id, docs)
  {
    match l {
      case Consumer(cs) => ConsumerIndependent(c, s, cs, id, docs);
      case Merge(i, ms) => MergeIndependent(c, s, i, ms, id, docs);
      case Producer(ps) => ProducerIndependent(s, ps, id, docs);
      case _ =>
    }
  }

  /** No step reads or writes a buffer its goroutine does not hold: if the content of any other
      buffer were different, the step would do the same and leave that content alone. */
  lemma OwnersOnly(c: Setup, s: State, l: Label, id: BufId, docs: seq<WfDoc>)
    requires Enabled(c, s, l) && !MayTouch(c, s, l, id)
    ensures Enabled(c, Scribble(s, id, docs), l)
    ensures Next(c, Scribble(s, id, docs), l) == Scribble(Next(c, s, l), id, docs)
  {
    match l {
      case Loop(i, ls) => LoopOwnersOnly(c, s, i, ls, id, docs);
      case Flush(i, fs) => FlushOwnersOnly(c, s, i, fs, id, docs);
      case _ => OtherOwnersOnly(c, s, l, id, docs);
    }
  }
}
