/** The order of documents through one indexer, over every interleaving: what it batches and what
    it republishes, although all other goroutines share its pools and channels. */
module Streams {
  import opened Lines
  import opened Documents
  import opened Pipeline
  import opened Ownership
  import opened Exclusive
  import opened BulkSizes
  import opened Rejections
  import IndexerSpec

  function Content(s: State, o: Option<BufId>): seq<WfDoc> {
    if o.Some? then Load(s.mem, o.value) else []
  }

  function ContMsg(k: Cont): Option<BufId> {
    match k
    case ThenBytes(m) => Some(m)
    case ThenAppend(m) => Some(m)
    case _ => None
  }

  /** The message an indexer has received and not yet written to its buffer. */
  function InHand(pc: IndexerPc): Option<BufId> {
    match pc
    case ITime(m) => Some(m)
    case IBytes(m) => Some(m)
    case IAppend(m) => Some(m)
    case IFlush(k) => ContMsg(k)
    case IPut(_, k) => ContMsg(k)
    case ISend(_, k) => ContMsg(k)
    case IGet(k) => ContMsg(k)
    case _ => None
  }

  function LiveBuffer(l: Lane): Option<BufId> {
    if Unsettled(l.pc) then Some(l.ptr) else None
  }

  /** The documents an indexer still has to send, in the order it will send them. */
  function Waiting(s: State, i: nat): seq<WfDoc>
    requires At(s, i)
  {
    Content(s, LiveBuffer(s.lanes[i])) + Content(s, InHand(s.lanes[i].pc))
  }

  /** The buffer of failed documents an indexer has not handed on yet. */
  function ErrorsInHand(pc: IndexerPc): Option<BufId> {
    match pc
    case IPut(failed, _) => failed
    case ISend(out, _) => Some(out)
    case _ => None
  }

  /** The failed documents an indexer has not handed on yet. */
  function Handing(s: State, i: nat): seq<WfDoc>
    requires At(s, i)
  {
    Content(s, ErrorsInHand(s.lanes[i].pc))
  }

  /** What a step does for indexer i: documents it receives, documents that leave its buffer (in
      a bulk call, or given up when it fails), documents a response reports as failed, and
      documents it sends on its error channel. */
  datatype Flow = Received | Batched | Reported | Posted

  function StepFlow(f: Flow, c: Setup, s: State, l: Label, i: nat): seq<WfDoc>
    requires Enabled(c, s, l) && At(s, i)
  {
    match f
    case Received => ReceivedBy(c, s, l, i)
    case Batched => BatchedBy(c, s, l, i)
    case Reported => ReportedBy(c, s, l, i)
    case Posted => PostedBy(c, s, l, i)
  }

  function ReceivedBy(c: Setup, s: State, l: Label, i: nat): seq<WfDoc>
    requires Enabled(c, s, l) && At(s, i)
  {
    match l
    case Loop(j, Receive) => if j == i then Load(s.mem, s.inq[0]) else []
    case Consumer(ConsumerHand(j)) => if j == i then Load(s.mem, DoConsumerSend(s).inq[0]) else []
    case _ => []
  }

  function BatchedBy(c: Setup, s: State, l: Label, i: nat): seq<WfDoc>
    requires Enabled(c, s, l) && At(s, i)
  {
    match l
    case Loop(j, TickFail) => if j == i then Load(s.mem, s.lanes[i].ptr) else []
    case Flush(j, BulkCall(_, _)) => if j == i then Load(s.mem, s.lanes[i].ptr) else []
    case _ => []
  }

  function ReportedBy(c: Setup, s: State, l: Label, i: nat): seq<WfDoc>
    requires Enabled(c, s, l) && At(s, i)
  {
    match l
    case Flush(j, BulkCall(resp, get)) =>
      if j == i && FlushTaken(s, i, BulkCall(resp, get)).Some?
      then Failed(Load(s.mem, s.lanes[i].ptr), resp.items) else []
    case _ => []
  }

  function PostedBy(c: Setup, s: State, l: Label, i: nat): seq<WfDoc>
    requires Enabled(c, s, l) && At(s, i)
  {
    match l
    case Flush(j, SendErrors) => if j == i then Load(s.mem, s.lanes[i].pc.out) else []
    case Flush(j, HandErrors) => if j == i then Load(s.mem, s.lanes[i].pc.out) else []
    case _ => []
  }

  /** The flow of a whole run, in order. */
  ghost function Total(f: Flow, c: Setup, s: State, trace: seq<Label>, i: nat): seq<WfDoc>
    decreases |trace|
  {
    if trace == [] || !Enabled(c, s, trace[0]) || !At(s, i) then []
    else StepFlow(f, c, s, trace[0], i) + Total(f, c, Next(c, s, trace[0]), trace[1..], i)
  }

  // -------------------------------------------------- one step keeps the order

  /** What waits afterwards is what waited, without what has left and with what has come. */
  ghost predicate InOrder(c: Setup, s: State, l: Label, i: nat)
    requires Enabled(c, s, l) && At(s, i)
  {
    var s' := Next(c, s, l);
    At(s', i) && BatchedBy(c, s, l, i) + Waiting(s', i) == Waiting(s, i) + ReceivedBy(c, s, l, i)
  }

  /** Steps of others leave alone what indexer i holds in place p. */
  lemma OthersKeepContent(c: Setup, s: State, l: Label, i: nat, p: Place, o: Option<BufId>)
    requires Enabled(c, s, l) && SingleOwner(s) && !Moves(l, i) && (p == LaneHand(i) || p == LaneBuffer(i))
    requires o.Some? ==> HeldAt(s, p, o.value) > 0
    ensures Content(Next(c, s, l), o) == Content(s, o)
  {
    if o.Some? {
      ElsewhereKept(c, s, l, p, o.value);
    }
  }

  lemma OtherLanes(c: Setup, s: State, l: Label, i: nat)
    requires Enabled(c, s, l) && SingleOwner(s) && At(s, i) && !Moves(l, i)
    ensures At(Next(c, s, l), i) && Next(c, s, l).lanes[i].pc == s.lanes[i].pc
    ensures Waiting(Next(c, s, l), i) == Waiting(s, i)
    ensures Content(Next(c, s, l), ErrorsInHand(s.lanes[i].pc)) == Handing(s, i)
  {
    LaneStays(c, s, l, i);
    OthersKeepContent(c, s, l, i, LaneBuffer(i), LiveBuffer(s.lanes[i]));
    OthersKeepContent(c, s, l, i, LaneHand(i), InHand(s.lanes[i].pc));
    OthersKeepContent(c, s, l, i, LaneHand(i), ErrorsInHand(s.lanes[i].pc));
  }

  lemma ReceiveInOrder(s: State, i: nat)
    requires At(s, i) && s.lanes[i].pc.ISelect? && s.inq != []
    ensures Waiting(DoReceive(s, i), i) == Waiting(s, i) + Load(s.mem, s.inq[0])
  {
  }

  lemma AppendedContent(c: Setup, s: State, i: nat)
    requires LoopCan(s, i, AppendMsg) && SingleOwner(s)
    ensures Load(DoAppendMsg(c, s, i).mem, s.lanes[i].ptr) ==
            Load(s.mem, s.lanes[i].ptr) + Load(s.mem, s.lanes[i].pc.msg)
  {
    PlacesApart(s, LaneBuffer(i), LaneHand(i), s.lanes[i].ptr);
    HeldIsAllocated(s, LaneBuffer(i), s.lanes[i].ptr);
  }

  lemma AppendedHand(c: Setup, s: State, i: nat)
    requires LoopCan(s, i, AppendMsg)
    ensures var s' := DoAppendMsg(c, s, i);
            At(s', i) && InHand(s'.lanes[i].pc) == None && LiveBuffer(s'.lanes[i]) == Some(s.lanes[i].ptr)
  {
  }

  lemma AppendInOrder(c: Setup, s: State, i: nat)
    requires LoopCan(s, i, AppendMsg) && SingleOwner(s)
    ensures Waiting(DoAppendMsg(c, s, i), i) == Waiting(s, i)
  {
    AppendedContent(c, s, i);
    AppendedHand(c, s, i);
    MovedOver(s, DoAppendMsg(c, s, i), i);
  }

  /** The message in hand has moved to the buffer. */
  lemma MovedOver(s: State, s': State, i: nat)
    requires At(s, i) && At(s', i) && s.lanes[i].pc.IAppend? && InHand(s'.lanes[i].pc) == None
    requires LiveBuffer(s'.lanes[i]) == Some(s.lanes[i].ptr)
    requires Load(s'.mem, s.lanes[i].ptr) == Load(s.mem, s.lanes[i].ptr) + Load(s.mem, s.lanes[i].pc.msg)
    ensures Waiting(s', i) == Waiting(s, i)
  {
  }

  /** A move within the stages of bulk. */
  lemma TestInOrder(s: State, i: nat, pc: IndexerPc)
    requires At(s, i) && Unsettled(s.lanes[i].pc) && Unsettled(pc) && InHand(pc) == InHand(s.lanes[i].pc)
    ensures Waiting(GoTo(s, i, pc), i) == Waiting(s, i)
  {
  }

  lemma FailInOrder(c: Setup, s: State, i: nat)
    requires At(s, i) && s.lanes[i].pc.ISelect?
    ensures Load(s.mem, s.lanes[i].ptr) + Waiting(DoTickFail(c, s, i), i) == Waiting(s, i)
  {
  }

  /** The documents that leave the buffer in a step of the loop, and those that come. */
  lemma LoopInOrder(c: Setup, s: State, i: nat, ls: LoopStep)
    requires LoopCan(s, i, ls) && SingleOwner(s)
    ensures |LoopNext(c, s, i, ls).lanes| == |s.lanes|
    ensures (if ls.TickFail? then Load(s.mem, s.lanes[i].ptr) else []) + Waiting(LoopNext(c, s, i, ls), i) ==
            Waiting(s, i) + if ls.Receive? then Load(s.mem, s.inq[0]) else []
  {
    match ls {
      case Receive => ReceiveInOrder(s, i);
      case TickFail => FailInOrder(c, s, i);
      case AppendMsg => AppendInOrder(c, s, i);
      case TickIdle =>
      case _ => TestsInOrder(c, s, i, ls);
    }
  }

  lemma TestsInOrder(c: Setup, s: State, i: nat, ls: LoopStep)
    requires LoopCan(s, i, ls) && (ls.SeeClosed? || ls.TickFlush? || ls.TimeTest? || ls.BytesTest?)
    ensures At(LoopNext(c, s, i, ls), i) && Waiting(LoopNext(c, s, i, ls), i) == Waiting(s, i)
  {
    match ls {
      case SeeClosed => TestInOrder(s, i, IFlush(ThenReturn));
      case TickFlush => TestInOrder(s, i, IFlush(ThenSelect));
      case TimeTest(fires) => TestInOrder(s, i, DoTimeTest(s, i, fires).lanes[i].pc);
      case BytesTest => TestInOrder(s, i, DoBytesTest(c, s, i).lanes[i].pc);
    }
  }

  lemma FlushSpares(c: Setup, s: State, i: nat, fs: FlushStep, m: BufId)
    requires FlushCan(c, s, i, fs) && SingleOwner(s) && InHand(s.lanes[i].pc) == Some(m)
    ensures Recycled(c, s, Flush(i, fs)) != Some(m)
    ensures FlushTaken(s, i, fs) != Some(m)
  {
    HeldOnce(s, i, m);
    match fs {
      case BulkCall(_, get) => if get == m { AvailableIsFree(s, m); }
      case GetBulk(get) => if get == m { AvailableIsFree(s, m); }
      case _ =>
    }
  }

  /** A flush leaves the message in hand alone. */
  lemma HandKept(c: Setup, s: State, i: nat, fs: FlushStep, m: BufId)
    requires FlushCan(c, s, i, fs) && SingleOwner(s) && InHand(s.lanes[i].pc) == Some(m)
    ensures Load(FlushNext(c, s, i, fs).mem, m) == Load(s.mem, m)
  {
    StepWrites(c, s, Flush(i, fs), m);
    FlushSpares(c, s, i, fs, m);
    assert Grown(c, s, Flush(i, fs)).Some? ==> Grown(c, s, Flush(i, fs)).value.id != m;
  }

  /** s' keeps the message in hand of indexer i. */
  predicate KeepsHand(s: State, s': State, i: nat) {
    && At(s, i) && At(s', i) && InHand(s'.lanes[i].pc) == InHand(s.lanes[i].pc)
    && Content(s', InHand(s.lanes[i].pc)) == Content(s, InHand(s.lanes[i].pc))
  }

  lemma CallInOrder(s: State, s': State, i: nat)
    requires At(s, i) && s.lanes[i].pc.IFlush? && CallReturned(s, s', i) && KeepsHand(s, s', i)
    ensures Load(s.mem, s.lanes[i].ptr) + Waiting(s', i) == Waiting(s, i)
  {
  }

  lemma IdleInOrder(s: State, s': State, i: nat)
    requires KeepsHand(s, s', i) && !Unsettled(s.lanes[i].pc) && Content(s', LiveBuffer(s'.lanes[i])) == []
    ensures Waiting(s', i) == Waiting(s, i)
  {
  }

  lemma GetFindsEmpty(c: Setup, s: State, i: nat, get: BufId)
    requires FlushCan(c, s, i, GetBulk(get)) && SingleOwner(s)
    ensures Content(DoGetBulk(c, s, i, get), LiveBuffer(DoGetBulk(c, s, i, get).lanes[i])) == []
  {
    AvailableIsFree(s, get);
  }

  lemma CallKeepsHand(s: State, s': State, i: nat)
    requires At(s, i) && s.lanes[i].pc.IFlush? && CallReturned(s, s', i)
    ensures At(s', i) && InHand(s'.lanes[i].pc) == InHand(s.lanes[i].pc)
  {
  }

  lemma GetKeepsPcHand(c: Setup, s: State, i: nat, get: BufId)
    requires At(s, i) && s.lanes[i].pc.IGet?
    ensures var s' := DoGetBulk(c, s, i, get); At(s', i) && InHand(s'.lanes[i].pc) == InHand(s.lanes[i].pc)
  {
  }

  lemma SamePcHand(c: Setup, s: State, i: nat, fs: FlushStep)
    requires FlushCan(c, s, i, fs)
    ensures At(FlushNext(c, s, i, fs), i) && InHand(FlushNext(c, s, i, fs).lanes[i].pc) == InHand(s.lanes[i].pc)
  {
    match fs {
      case BulkCall(resp, get) =>
        BulkCallShape(s, i, resp, get);
        CallKeepsHand(s, DoBulkCall(s, i, resp, get), i);
      case GetBulk(get) => GetKeepsPcHand(c, s, i, get);
      case PutBulk => assert InHand(DoPutBulk(s, i).lanes[i].pc) == ContMsg(s.lanes[i].pc.k);
      case _ => assert FlushNext(c, s, i, fs).lanes[i].pc == IGet(s.lanes[i].pc.k);
    }
  }

  lemma FlushKeepsHand(c: Setup, s: State, i: nat, fs: FlushStep)
    requires FlushCan(c, s, i, fs) && SingleOwner(s)
    ensures KeepsHand(s, FlushNext(c, s, i, fs), i)
  {
    SamePcHand(c, s, i, fs);
    if InHand(s.lanes[i].pc).Some? {
      HandKept(c, s, i, fs, InHand(s.lanes[i].pc).value);
    }
  }

  lemma EndInOrder(c: Setup, s: State, i: nat, fs: FlushStep)
    requires FlushCan(c, s, i, fs) && !fs.BulkCall? && !fs.GetBulk? && KeepsHand(s, FlushNext(c, s, i, fs), i)
    ensures Waiting(FlushNext(c, s, i, fs), i) == Waiting(s, i)
  {
    IdleInOrder(s, FlushNext(c, s, i, fs), i);
  }

  lemma FlushInOrder(c: Setup, s: State, i: nat, fs: FlushStep)
    requires FlushCan(c, s, i, fs) && SingleOwner(s)
    ensures |FlushNext(c, s, i, fs).lanes| == |s.lanes|
    ensures (if fs.BulkCall? then Load(s.mem, s.lanes[i].ptr) else []) + Waiting(FlushNext(c, s, i, fs), i) ==
            Waiting(s, i)
  {
    FlushKeepsHand(c, s, i, fs);
    match fs {
      case BulkCall(resp, get) =>
        BulkCallShape(s, i, resp, get);
        CallInOrder(s, DoBulkCall(s, i, resp, get), i);
      case GetBulk(get) =>
        GetFindsEmpty(c, s, i, get);
        IdleInOrder(s, DoGetBulk(c, s, i, get), i);
      case _ => EndInOrder(c, s, i, fs);
    }
  }

  lemma HandInOrder(c: Setup, s: State, i: nat)
    requires ConsumerCan(c, s, ConsumerHand(i))
    ensures var s' := ConsumerNext(c, s, ConsumerHand(i));
            At(s', i) && Waiting(s', i) == Waiting(s, i) + Load(s.mem, DoConsumerSend(s).inq[0])
  {
    ReceiveInOrder(DoConsumerSend(s), i);
  }

  lemma OwnInOrder(c: Setup, s: State, l: Label, i: nat)
    requires Enabled(c, s, l) && SingleOwner(s) && At(s, i) && Moves(l, i)
    ensures InOrder(c, s, l, i)
  {
    match l {
      case Consumer(_) => HandInOrder(c, s, i);
      case Loop(_, ls) => LoopInOrder(c, s, i, ls);
      case Flush(_, fs) => FlushInOrder(c, s, i, fs);
    }
  }

  lemma OthersInOrder(c: Setup, s: State, l: Label, i: nat)
    requires Enabled(c, s, l) && SingleOwner(s) && At(s, i) && !Moves(l, i)
    ensures InOrder(c, s, l, i)
  {
    OtherLanes(c, s, l, i);
    var none: seq<WfDoc> := [];
    assert BatchedBy(c, s, l, i) == none && ReceivedBy(c, s, l, i) == none;
    assert none + Waiting(s, i) == Waiting(s, i) + none;
  }

  lemma StepInOrder(c: Setup, s: State, l: Label, i: nat)
    requires Enabled(c, s, l) && SingleOwner(s) && At(s, i)
    ensures InOrder(c, s, l, i)
  {
    if Moves(l, i) {
      OwnInOrder(c, s, l, i);
    } else {
      OthersInOrder(c, s, l, i);
    }
  }

  // ----------------------------------------------- and so do failed documents

  /** The same for failed documents: what an indexer has to hand on is what responses report. */
  ghost predicate ErrorsInOrder(c: Setup, s: State, l: Label, i: nat)
    requires Enabled(c, s, l) && At(s, i)
  {
    var s' := Next(c, s, l);
    && At(s', i)
    && PostedBy(c, s, l, i) + Handing(s', i) ==
       Handing(s, i) + ReportedBy(c, s, l, i)
  }

  lemma StoredFresh(s: State, get: BufId, docs: seq<WfDoc>)
    requires SingleOwner(s) && CanGet(s.msgPool, s.mem, get)
    ensures var mem := Allocate(s.mem, get); Load(Store(mem, get, Load(mem, get) + docs), get) == docs
  {
    AvailableIsFree(s, get);
    assert Data(s, get) + Idle(s, get) == if get < |s.mem| then 1 else 0;
    assert [] + docs == docs;
  }

  lemma CallTakes(s: State, i: nat, resp: Response, get: BufId)
    requires At(s, i) && s.lanes[i].pc.IFlush? && Answers(resp, Load(s.mem, s.lanes[i].ptr))
    ensures var s' := DoBulkCall(s, i, resp, get);
            At(s', i) && ErrorsInHand(s'.lanes[i].pc) == FlushTaken(s, i, BulkCall(resp, get))
  {
    BulkCallShape(s, i, resp, get);
    ReturnedErrors(s, DoBulkCall(s, i, resp, get), i);
  }

  lemma ReturnedErrors(s: State, s': State, i: nat)
    requires At(s, i) && s.lanes[i].pc.IFlush? && CallReturned(s, s', i)
    ensures At(s', i) && ErrorsInHand(s'.lanes[i].pc) == s'.lanes[i].pc.failed
  {
  }

  lemma CallFills(s: State, i: nat, resp: Response, get: BufId)
    requires At(s, i) && s.lanes[i].pc.IFlush? && Answers(resp, Load(s.mem, s.lanes[i].ptr))
    requires SingleOwner(s) && CanGet(s.msgPool, s.mem, get) && FlushTaken(s, i, BulkCall(resp, get)).Some?
    ensures Load(DoBulkCall(s, i, resp, get).mem, get) == Failed(Load(s.mem, s.lanes[i].ptr), resp.items)
  {
    StoredFresh(s, get, Failed(Load(s.mem, s.lanes[i].ptr), resp.items));
  }

  lemma CallErrors(s: State, i: nat, resp: Response, get: BufId)
    requires At(s, i) && s.lanes[i].pc.IFlush? && Answers(resp, Load(s.mem, s.lanes[i].ptr))
    requires SingleOwner(s) && CanGet(s.msgPool, s.mem, get)
    ensures var s', docs := DoBulkCall(s, i, resp, get), Load(s.mem, s.lanes[i].ptr);
            && At(s', i)
            && Handing(s', i) ==
               if FlushTaken(s, i, BulkCall(resp, get)).Some? then Failed(docs, resp.items) else []
  {
    CallTakes(s, i, resp, get);
    if FlushTaken(s, i, BulkCall(resp, get)).Some? {
      CallFills(s, i, resp, get);
    }
  }

  /** The bulk call of the pipeline is sendToES on the bytes of the buffer: it yields a buffer
      exactly when sendToES does, with the same bytes. */
  lemma CallIsSendToES(env: IndexerSpec.Env, calls: nat, s: State, i: nat, resp: Response, get: BufId)
    requires At(s, i) && s.lanes[i].pc.IFlush? && Answers(resp, Load(s.mem, s.lanes[i].ptr))
    requires SingleOwner(s) && CanGet(s.msgPool, s.mem, get)
    requires resp == env.answer(calls, Render(Load(s.mem, s.lanes[i].ptr)))
    ensures At(DoBulkCall(s, i, resp, get), i)
    ensures IndexerSpec.Extracted(env, calls, Render(Load(s.mem, s.lanes[i].ptr))) ==
            ErrorBytes(DoBulkCall(s, i, resp, get), i)
  {
    var docs := Load(s.mem, s.lanes[i].ptr);
    CallErrors(s, i, resp, get);
    CallTakes(s, i, resp, get);
    ExtractsFailed(env, calls, docs, resp);
    var bytes := if Extracts(s, i, resp) then Some(Render(Failed(docs, resp.items))) else None;
    assert ErrorBytes(DoBulkCall(s, i, resp, get), i) == bytes;
  }

  /** The error buffer an indexer has not handed on yet. */
  function ErrorBytes(s: State, i: nat): Option<seq<byte>>
    requires At(s, i)
  {
    if ErrorsInHand(s.lanes[i].pc).Some? then Some(Render(Handing(s, i))) else None
  }

  /** sendToES on a well-formed body. */
  lemma ExtractsFailed(env: IndexerSpec.Env, calls: nat, docs: seq<WfDoc>, resp: Response)
    requires Answers(resp, docs) && resp == env.answer(calls, Render(docs))
    ensures IndexerSpec.Extracted(env, calls, Render(docs)) ==
            if |Render(docs)| >= MINIMUM_BUFFER_SIZE && resp.Decoded? && resp.hasErrors
            then Some(Render(Failed(docs, resp.items))) else None
  {
    if resp.Decoded? && resp.hasErrors {
      ParseFilters(docs, resp.items);
    }
  }

  lemma PutErrors(s: State, i: nat)
    requires At(s, i) && s.lanes[i].pc.IPut? && SingleOwner(s)
    ensures At(DoPutBulk(s, i), i) && Handing(DoPutBulk(s, i), i) == Handing(s, i)
  {
    HeldOnce(s, i, s.lanes[i].ptr);
  }

  lemma DropNothing(c: Setup, s: State, i: nat)
    requires FlushCan(c, s, i, DropErrors) && Republishes(c)
    ensures Load(s.mem, s.lanes[i].pc.out) == []
  {
    RenderLength(Load(s.mem, s.lanes[i].pc.out));
  }

  lemma LoopErrors(c: Setup, s: State, i: nat, ls: LoopStep)
    requires LoopCan(s, i, ls)
    ensures At(LoopNext(c, s, i, ls), i)
    ensures ErrorsInHand(LoopNext(c, s, i, ls).lanes[i].pc) == None
  {
    match ls {
      case TimeTest(fires) =>
      case BytesTest =>
      case AppendMsg =>
      case _ =>
    }
  }

  lemma SendErrorsPosts(s: State, i: nat)
    requires At(s, i) && s.lanes[i].pc.ISend?
    ensures ErrorsInHand(DoSendErrors(s, i).lanes[i].pc) == None
    ensures Handing(s, i) == Load(s.mem, s.lanes[i].pc.out)
  {
  }

  /** What indexer i hands on in a flush step, and what a response reports. */
  lemma FlushErrors(c: Setup, s: State, i: nat, fs: FlushStep)
    requires FlushCan(c, s, i, fs) && SingleOwner(s) && Republishes(c)
    ensures ErrorsInOrder(c, s, Flush(i, fs), i)
  {
    match fs {
      case BulkCall(resp, get) => CallErrorsInOrder(c, s, i, resp, get);
      case SendErrors => PostErrorsInOrder(c, s, i, fs);
      case HandErrors => PostErrorsInOrder(c, s, i, fs);
      case _ => EndErrorsInOrder(c, s, i, fs);
    }
  }

  lemma CallErrorsInOrder(c: Setup, s: State, i: nat, resp: Response, get: BufId)
    requires FlushCan(c, s, i, BulkCall(resp, get)) && SingleOwner(s)
    ensures ErrorsInOrder(c, s, Flush(i, BulkCall(resp, get)), i)
  {
    CallErrors(s, i, resp, get);
    assert Handing(s, i) == [];
  }

  /** A step that neither reports nor posts. */
  lemma QuietErrors(c: Setup, s: State, l: Label, s': State, i: nat)
    requires Enabled(c, s, l) && s' == Next(c, s, l) && At(s, i) && At(s', i)
    requires PostedBy(c, s, l, i) == ReportedBy(c, s, l, i) == [] && Handing(s', i) == Handing(s, i)
    ensures ErrorsInOrder(c, s, l, i)
  {
    assert [] + Handing(s, i) == Handing(s, i) + [];
  }

  lemma DropErrorsKept(c: Setup, s: State, i: nat)
    requires FlushCan(c, s, i, DropErrors) && Republishes(c)
    ensures Handing(s, i) == Handing(DoDropErrors(s, i), i) == []
  {
    DropNothing(c, s, i);
  }

  lemma GetErrorsKept(c: Setup, s: State, i: nat, get: BufId)
    requires At(s, i) && s.lanes[i].pc.IGet?
    ensures Handing(s, i) == Handing(DoGetBulk(c, s, i, get), i) == []
  {
  }

  lemma EndErrorsInOrder(c: Setup, s: State, i: nat, fs: FlushStep)
    requires FlushCan(c, s, i, fs) && SingleOwner(s) && Republishes(c) && (fs.PutBulk? || fs.DropErrors? || fs.GetBulk?)
    ensures ErrorsInOrder(c, s, Flush(i, fs), i)
  {
    match fs {
      case PutBulk => PutErrors(s, i);
      case DropErrors => DropErrorsKept(c, s, i);
      case GetBulk(get) => GetErrorsKept(c, s, i, get);
    }
    QuietErrors(c, s, Flush(i, fs), FlushNext(c, s, i, fs), i);
  }

  lemma PostErrorsInOrder(c: Setup, s: State, i: nat, fs: FlushStep)
    requires FlushCan(c, s, i, fs) && (fs.SendErrors? || fs.HandErrors?)
    ensures ErrorsInOrder(c, s, Flush(i, fs), i)
  {
    SendErrorsPosts(s, i);
  }

  lemma LoopErrorsInOrder(c: Setup, s: State, i: nat, ls: LoopStep)
    requires LoopCan(s, i, ls)
    ensures ErrorsInOrder(c, s, Loop(i, ls), i)
  {
    LoopErrors(c, s, i, ls);
    assert Handing(s, i) == [];
  }

  lemma OthersErrorsInOrder(c: Setup, s: State, l: Label, i: nat)
    requires Enabled(c, s, l) && SingleOwner(s) && At(s, i) && !Moves(l, i)
    ensures ErrorsInOrder(c, s, l, i)
  {
    OtherLanes(c, s, l, i);
    var none: seq<WfDoc> := [];
    assert PostedBy(c, s, l, i) == none && ReportedBy(c, s, l, i) == none;
    assert none + Handing(s, i) == Handing(s, i) + none;
  }

  lemma StepErrors(c: Setup, s: State, l: Label, i: nat)
    requires Enabled(c, s, l) && SingleOwner(s) && At(s, i) && Republishes(c)
    ensures ErrorsInOrder(c, s, l, i)
  {
    if Moves(l, i) {
      match l {
        case Consumer(_) => assert Handing(s, i) == [];
        case Loop(_, ls) => LoopErrorsInOrder(c, s, i, ls);
        case Flush(_, fs) => FlushErrors(c, s, i, fs);
      }
    } else {
      OthersErrorsInOrder(c, s, l, i);
    }
  }

  // ------------------------------------------------------------ whole runs

  lemma TotalCons(f: Flow, c: Setup, s: State, trace: seq<Label>, i: nat)
    requires trace != [] && Enabled(c, s, trace[0]) && At(s, i)
    ensures Total(f, c, s, trace, i) ==
            StepFlow(f, c, s, trace[0], i) + Total(f, c, Next(c, s, trace[0]), trace[1..], i)
  {
  }

  lemma Telescope<T>(out1: seq<T>, out2: seq<T>, end: seq<T>, mid: seq<T>, in2: seq<T>, start: seq<T>, in1: seq<T>)
    requires out1 + mid == start + in1 && out2 + end == mid + in2
    ensures out1 + out2 + end == start + (in1 + in2)
  {
    assert out1 + out2 + end == out1 + (out2 + end) == out1 + mid + in2;
  }

  lemma {:induction false} TraceInOrder(c: Setup, a: State, trace: seq<Label>, b: State, i: nat)
    requires SingleOwner(a) && At(a, i) && Trace(c, a, trace, b)
    ensures At(b, i)
    ensures Total(Batched, c, a, trace, i) + Waiting(b, i) == Waiting(a, i) + Total(Received, c, a, trace, i)
    decreases |trace|
  {
    if trace == [] {
      assert Waiting(a, i) + [] == [] + Waiting(b, i);
    } else {
      var l, rest := trace[0], trace[1..];
      var s := Next(c, a, l);
      StepKeepsSingleOwner(c, a, l);
      StepInOrder(c, a, l, i);
      TraceInOrder(c, s, rest, b, i);
      TotalCons(Batched, c, a, trace, i);
      TotalCons(Received, c, a, trace, i);
      Telescope(BatchedBy(c, a, l, i), Total(Batched, c, s, rest, i), Waiting(b, i),
                Waiting(s, i), Total(Received, c, s, rest, i), Waiting(a, i), ReceivedBy(c, a, l, i));
    }
  }

  lemma {:induction false} TraceErrors(c: Setup, a: State, trace: seq<Label>, b: State, i: nat)
    requires SingleOwner(a) && At(a, i) && Trace(c, a, trace, b) && Republishes(c)
    ensures At(b, i)
    ensures Total(Posted, c, a, trace, i) + Handing(b, i) == Handing(a, i) + Total(Reported, c, a, trace, i)
    decreases |trace|
  {
    if trace == [] {
      assert Handing(a, i) + [] == [] + Handing(a, i);
    } else {
      var l, rest := trace[0], trace[1..];
      var s := Next(c, a, l);
      StepKeepsSingleOwner(c, a, l);
      StepErrors(c, a, l, i);
      TraceErrors(c, s, rest, b, i);
      TotalCons(Posted, c, a, trace, i);
      TotalCons(Reported, c, a, trace, i);
      Telescope(PostedBy(c, a, l, i), Total(Posted, c, s, rest, i), Handing(b, i),
                Handing(s, i), Total(Reported, c, s, rest, i), Handing(a, i), ReportedBy(c, a, l, i));
    }
  }

  lemma InitWaits(c: Setup, i: nat)
    requires i < c.n
    ensures At(Init(c), i) && Waiting(Init(c), i) == [] && Handing(Init(c), i) == []
  {
  }

  /** In every run: the documents that have left the buffer of indexer i, followed by those that
      wait in it and in its hand, are the documents it has received, in order. */
  lemma BatchesInOrder(c: Setup, trace: seq<Label>, s: State, i: nat)
    requires Trace(c, Init(c), trace, s) && i < c.n
    ensures At(s, i)
    ensures Total(Batched, c, Init(c), trace, i) + Waiting(s, i) == Total(Received, c, Init(c), trace, i)
  {
    InitSingleOwner(c);
    InitWaits(c, i);
    BatchesFrom(c, Init(c), trace, s, i);
  }

  lemma BatchesFrom(c: Setup, a: State, trace: seq<Label>, s: State, i: nat)
    requires SingleOwner(a) && At(a, i) && Waiting(a, i) == [] && Trace(c, a, trace, s)
    ensures At(s, i)
    ensures Total(Batched, c, a, trace, i) + Waiting(s, i) == Total(Received, c, a, trace, i)
  {
    TraceInOrder(c, a, trace, s, i);
    var all := Total(Received, c, a, trace, i);
    assert [] + all == all;
  }

  // -------------------------------------------------- what is republished

  /** No bulk call of indexer i fails as a whole, each response judges document by document, and
      the indexer is not stopped by an error. */
  ghost predicate JudgedRun(c: Setup, s: State, trace: seq<Label>, i: nat, bad: WfDoc -> bool)
    decreases |trace|
  {
    trace == [] || !Enabled(c, s, trace[0]) || !At(s, i) ||
    (JudgedStep(s, trace[0], i, bad) && JudgedRun(c, Next(c, s, trace[0]), trace[1..], i, bad))
  }

  ghost predicate JudgedStep(s: State, l: Label, i: nat, bad: WfDoc -> bool)
    requires At(s, i)
  {
    match l
    case Loop(j, TickFail) => j != i
    case Flush(j, BulkCall(resp, _)) =>
      var docs := Load(s.mem, s.lanes[i].ptr);
      j == i && docs != [] ==> Judged(resp, docs, bad)
    case _ => true
  }

  lemma StepReportsRejected(c: Setup, s: State, l: Label, i: nat, bad: WfDoc -> bool)
    requires Enabled(c, s, l) && At(s, i) && JudgedStep(s, l, i, bad)
    ensures ReportedBy(c, s, l, i) == Rejected(BatchedBy(c, s, l, i), bad)
  {
    if l.Flush? && l.i == i && l.fs.BulkCall? {
      var docs := Load(s.mem, s.lanes[i].ptr);
      RenderLength(docs);
      if docs != [] {
        JudgedReport(docs, l.fs.resp, bad);
      }
    }
  }

  lemma JudgedReport(docs: seq<WfDoc>, resp: Response, bad: WfDoc -> bool)
    requires Judged(resp, docs, bad)
    ensures Failed(docs, resp.items) == Rejected(docs, bad)
  {
    FailedIsFilter(docs, resp.items);
    MarksFilter(docs, [], bad);
    assert docs + [] == docs;
  }

  lemma {:induction false} TraceReportsRejected(c: Setup, a: State, trace: seq<Label>, b: State, i: nat,
                                                bad: WfDoc -> bool)
    requires At(a, i) && Trace(c, a, trace, b) && JudgedRun(c, a, trace, i, bad)
    ensures Total(Reported, c, a, trace, i) == Rejected(Total(Batched, c, a, trace, i), bad)
    decreases |trace|
  {
    if trace != [] {
      var l := trace[0];
      var s := Next(c, a, l);
      StepReportsRejected(c, a, l, i, bad);
      LaneStays(c, a, l, i);
      TraceReportsRejected(c, s, trace[1..], b, i, bad);
      RejectedAppend(BatchedBy(c, a, l, i), Total(Batched, c, s, trace[1..], i), bad);
    }
  }

  /** In every run: the documents indexer i has sent on its error channel, followed by those it is
      about to hand on, are those that responses to it have reported as failed, in order. */
  lemma PostsInOrder(c: Setup, trace: seq<Label>, s: State, i: nat)
    requires Trace(c, Init(c), trace, s) && i < c.n && Republishes(c)
    ensures At(s, i)
    ensures Total(Posted, c, Init(c), trace, i) + Handing(s, i) == Total(Reported, c, Init(c), trace, i)
  {
    InitSingleOwner(c);
    InitWaits(c, i);
    PostsFrom(c, Init(c), trace, s, i);
  }

  lemma PostsFrom(c: Setup, a: State, trace: seq<Label>, s: State, i: nat)
    requires SingleOwner(a) && At(a, i) && Handing(a, i) == [] && Trace(c, a, trace, s) && Republishes(c)
    ensures At(s, i)
    ensures Total(Posted, c, a, trace, i) + Handing(s, i) == Total(Reported, c, a, trace, i)
  {
    TraceErrors(c, a, trace, s, i);
    var all := Total(Reported, c, a, trace, i);
    assert [] + all == all;
  }

  lemma NothingLeft(s: State, i: nat, batched: seq<WfDoc>, posted: seq<WfDoc>)
    requires At(s, i) && s.lanes[i].pc.IDone?
    ensures batched + Waiting(s, i) == batched && posted + Handing(s, i) == posted
  {
  }

  /** Batching does not change meaning, over every interleaving of the whole pipeline: once
      indexer i has made its final flush, the documents it has sent on its error channel are
      exactly the rejected ones of all it has received, in order. */
  lemma RepublishesExactlyTheRejected(c: Setup, trace: seq<Label>, s: State, i: nat, bad: WfDoc -> bool)
    requires Trace(c, Init(c), trace, s) && i < c.n && Republishes(c) && JudgedRun(c, Init(c), trace, i, bad)
    requires At(s, i) && s.lanes[i].pc.IDone?
    ensures Total(Posted, c, Init(c), trace, i) == Rejected(Total(Received, c, Init(c), trace, i), bad)
  {
    InitWaits(c, i);
    BatchesInOrder(c, trace, s, i);
    PostsInOrder(c, trace, s, i);
    TraceReportsRejected(c, Init(c), trace, s, i, bad);
    NothingLeft(s, i, Total(Batched, c, Init(c), trace, i), Total(Posted, c, Init(c), trace, i));
  }
}
