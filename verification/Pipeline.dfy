/** The concurrent pipeline as a labelled transition system: the consumer, n indexers with their
    error channels, the forwarding goroutines and the closer of merge, and the producer, over
    channels of any capacity and two shared buffer pools.

    Channel steps follow the Go Programming Language Specification, sections "Send statements",
    "Receive operator", "Select statements" and "Close". A send on a full or unbuffered channel
    waits for a receiver; a step that would send on or close a closed channel is not excluded by
    any guard here (it would panic), it is proved never to happen. */
module Pipeline {
  import opened Documents
  import IndexerSpec

  type Config = IndexerSpec.Config
  type Response = IndexerSpec.Response

  /** A pooled buffer, by its address: an index into the memory. */
  type BufId = nat

  /** limits.interval plays no role here: the outcome of a time test is left open, except that it
      always holds before the first flush. */
  datatype Setup = Setup(n: nat, inCap: nat, errCap: nat, outCap: nat, limits: Config, producer: bool)

  /** A producer is configured and merge has channels to merge. */
  predicate Republishes(c: Setup) {
    c.producer && c.n > 0
  }

  datatype ConsumerPc = CStarting | CSelect | CPolling | CSending(msg: BufId) | CStopped

  /** Where bulk continues after a flush. */
  datatype Cont = ThenBytes(msg: BufId) | ThenAppend(msg: BufId) | ThenSelect | ThenReturn

  /** ITime, IBytes and IAppend are the stages of bulk(msg); IFlush, IPut, ISend and IGet those
      of flush: before the bulk call, before the deferred Put of its buffer, in sendErrors, and
      before the Get of the next buffer. */
  datatype IndexerPc =
    | ISelect | ITime(msg: BufId) | IBytes(msg: BufId) | IAppend(msg: BufId)
    | IFlush(k: Cont) | IPut(failed: Option<BufId>, k: Cont) | ISend(out: BufId, k: Cont) | IGet(k: Cont)
    | IDone | IFailed

  datatype ForwarderPc = FRange | FHold(msg: BufId) | FDone

  datatype ProducerPc = PStarting | PRange | PHold(msg: BufId) | PRetry(msg: BufId) | PDone | PFailed

  /** One indexer with its error channel and the goroutine that forwards from it. ptr and count
      are b.buffer and b.bulkedMsgCount; ptr is stale in ISend and IGet. flushed: b.lastFlush is
      not the zero time. sent is the history of the error channel. */
  datatype Lane = Lane(
    pc: IndexerPc, ptr: BufId, count: nat, flushed: bool,
    err: seq<BufId>, errClosed: bool, fwd: ForwarderPc, sent: seq<BufId>)

  /** b.buffer holds documents that no bulk call has settled yet. */
  predicate Unsettled(pc: IndexerPc) {
    pc.ISelect? || pc.ITime? || pc.IBytes? || pc.IAppend? || pc.IFlush?
  }

  /** Where consumed documents ended up. */
  datatype Ledger = Ledger(
    consumed: multiset<WfDoc>,
    accepted: multiset<WfDoc>,      // not reported as failed by a decoded response
    republished: multiset<WfDoc>,   // produced to the error topic
    lostBatch: multiset<WfDoc>,     // in a bulk call without a usable response
    dropped: multiset<WfDoc>,       // failed, but there is no producer
    lostProduce: multiset<WfDoc>,   // failed, and producing failed
    lostIndexer: multiset<WfDoc>)   // buffered in an indexer that returned an error

  datatype State = State(
    cpc: ConsumerPc, inq: seq<BufId>, inClosed: bool, cancelled: bool,
    lanes: seq<Lane>,
    out: seq<BufId>, outClosed: bool, closerDone: bool, outLog: seq<(nat, BufId)>,
    ppc: ProducerPc, taken: seq<BufId>,
    msgPool: multiset<BufId>, bulkPool: multiset<BufId>, garbage: multiset<BufId>,
    mem: seq<seq<WfDoc>>,
    ledger: Ledger)

  datatype ProduceResult = Produced | QueueFull | ProduceError

  // Steps, by the goroutine that takes them. get names the buffer a pool hands out: a pooled one
  // or the next fresh address. A Hand step passes a buffer over an unbuffered channel.

  datatype ConsumerStep =
    | ConsumerStart | ConsumerFail | ConsumerCheck | PollNothing
    | PollMessage(get: BufId, docs: seq<WfDoc>) | ConsumerSend | ConsumerHand(to: nat)

  /** The select loop and bulk. */
  datatype LoopStep =
    | Receive | SeeClosed | TickIdle | TickFlush | TickFail
    | TimeTest(fires: bool) | BytesTest | AppendMsg

  /** The flush callback. */
  datatype FlushStep =
    | BulkCall(resp: Response, get: BufId) | PutBulk | DropErrors | SendErrors | HandErrors
    | GetBulk(get: BufId)

  datatype ForwarderStep = Forward | ForwardEnd | ForwardSend | ForwardHand

  datatype ProducerStep =
    | ProducerStart | ProducerFail | ProducerReceive | ProducerEnd | Produce(result: ProduceResult) | Retry(ok: bool)

  datatype Label =
    | Cancel
    | Consumer(cs: ConsumerStep)
    | Loop(i: nat, ls: LoopStep)
    | Flush(i: nat, fs: FlushStep)
    | Merge(i: nat, ms: ForwarderStep)
    | CloseOut
    | Producer(ps: ProducerStep)

  function Init(c: Setup): State {
    var fwd := if Republishes(c) then FRange else FDone;
    State(
      CStarting, [], false, false,
      seq(c.n, i => Lane(IGet(ThenSelect), 0, 0, false, [], false, fwd, [])),
      [], false, !Republishes(c), [],
      if Republishes(c) then PStarting else PDone, [],
      multiset{}, multiset{}, multiset{},
      [],
      Ledger(multiset{}, multiset{}, multiset{}, multiset{}, multiset{}, multiset{}, multiset{}))
  }

  // ------------------------------------------------------------- memory

  function Load(mem: seq<seq<WfDoc>>, id: BufId): seq<WfDoc> {
    if id < |mem| then mem[id] else []
  }

  function Store(mem: seq<seq<WfDoc>>, id: BufId, docs: seq<WfDoc>): seq<seq<WfDoc>> {
    if id < |mem| then mem[id := docs] else mem
  }

  predicate CanGet(pool: multiset<BufId>, mem: seq<seq<WfDoc>>, id: BufId) {
    pool[id] > 0 || id == |mem|
  }

  /** Get of a fresh address allocates an empty buffer. */
  function Allocate(mem: seq<seq<WfDoc>>, id: BufId): seq<seq<WfDoc>> {
    if id == |mem| then mem + [[]] else mem
  }

  // ----------------------------------------------------------- consumer

  function StopConsumer(s: State): State {
    s.(cpc := CStopped, inClosed := true)
  }

  function DoPollMessage(s: State, get: BufId, docs: seq<WfDoc>): State {
    var mem := Allocate(s.mem, get);
    s.(cpc := CSending(get), msgPool := s.msgPool - multiset{get},
       mem := Store(mem, get, Load(mem, get) + docs),
       ledger := s.ledger.(consumed := s.ledger.consumed + multiset(docs)))
  }

  function DoConsumerSend(s: State): State
    requires s.cpc.CSending?
  {
    s.(inq := s.inq + [s.cpc.msg], cpc := CSelect)
  }

  // ------------------------------------------------------------ indexers

  function SetLane(s: State, i: nat, l: Lane): State
    requires i < |s.lanes|
  {
    s.(lanes := s.lanes[i := l])
  }

  function GoTo(s: State, i: nat, pc: IndexerPc): State
    requires i < |s.lanes|
  {
    SetLane(s, i, s.lanes[i].(pc := pc))
  }

  function DoReceive(s: State, i: nat): State
    requires i < |s.lanes| && s.inq != []
  {
    GoTo(s.(inq := s.inq[1..]), i, ITime(s.inq[0]))
  }

  function DoTickFail(c: Setup, s: State, i: nat): State
    requires i < |s.lanes|
  {
    var l := s.lanes[i];
    SetLane(s, i, l.(pc := IFailed, errClosed := l.errClosed || Republishes(c)))
      .(cancelled := true, garbage := s.garbage + multiset{l.ptr},
        ledger := s.ledger.(lostIndexer := s.ledger.lostIndexer + multiset(Load(s.mem, l.ptr))))
  }

  function DoTimeTest(s: State, i: nat, fires: bool): State
    requires i < |s.lanes| && s.lanes[i].pc.ITime?
  {
    var m := s.lanes[i].pc.msg;
    GoTo(s, i, if fires then IFlush(ThenBytes(m)) else IBytes(m))
  }

  function DoBytesTest(c: Setup, s: State, i: nat): State
    requires i < |s.lanes| && s.lanes[i].pc.IBytes?
  {
    var l := s.lanes[i];
    var m := l.pc.msg;
    var over := IndexerSpec.OverBytes(c.limits, |Render(Load(s.mem, l.ptr))|, |Render(Load(s.mem, m))|);
    GoTo(s, i, if over then IFlush(ThenAppend(m)) else IAppend(m))
  }

  /** WriteTo, Put of the message, and the count test. */
  function DoAppendMsg(c: Setup, s: State, i: nat): State
    requires i < |s.lanes| && s.lanes[i].pc.IAppend?
  {
    var l := s.lanes[i];
    var m := l.pc.msg;
    var written := Store(s.mem, l.ptr, Load(s.mem, l.ptr) + Load(s.mem, m));
    var pc := if c.limits.msgLimit == l.count + 1 then IFlush(ThenSelect) else ISelect;
    SetLane(s, i, l.(count := l.count + 1, pc := pc))
      .(mem := Store(written, m, []), msgPool := s.msgPool + multiset{m})
  }

  /** One single-action item per document at most, in request order. */
  predicate Answers(r: Response, docs: seq<WfDoc>) {
    r.Decoded? && r.hasErrors ==> SingleAction(r.items) && |r.items| <= |docs|
  }

  /** sendToES up to its deferred Put: the body is read and the failed documents are written to
      a buffer of the message pool. */
  function DoBulkCall(s: State, i: nat, resp: Response, get: BufId): State
    requires i < |s.lanes| && s.lanes[i].pc.IFlush? && Answers(resp, Load(s.mem, s.lanes[i].ptr))
  {
    var k := s.lanes[i].pc.k;
    var docs := Load(s.mem, s.lanes[i].ptr);
    var done := GoTo(s, i, IPut(None, k));
    if |Render(docs)| < MINIMUM_BUFFER_SIZE then done
    else if !resp.Decoded? then
      done.(ledger := s.ledger.(lostBatch := s.ledger.lostBatch + multiset(docs)))
    else if !resp.hasErrors then
      done.(ledger := s.ledger.(accepted := s.ledger.accepted + multiset(docs)))
    else
      var mem := Allocate(s.mem, get);
      GoTo(s, i, IPut(Some(get), k)).(
        msgPool := s.msgPool - multiset{get},
        mem := Store(mem, get, Load(mem, get) + Failed(docs, resp.items)),
        ledger := s.ledger.(accepted := s.ledger.accepted + multiset(Passed(docs, Verdicts(resp.items)))))
  }

  /** s' is s with indexer i on its way to the deferred Put; only the message pool, the memory
      and the ledger may differ besides. */
  predicate CallReturned(s: State, s': State, i: nat)
    requires i < |s.lanes| && s.lanes[i].pc.IFlush?
  {
    && |s'.lanes| == |s.lanes| && s'.lanes[i].pc.IPut? && s'.lanes[i].pc.k == s.lanes[i].pc.k
    && s' == GoTo(s, i, s'.lanes[i].pc).(msgPool := s'.msgPool, mem := s'.mem, ledger := s'.ledger)
    && s'.ledger.lostIndexer == s.ledger.lostIndexer
  }

  /** Any move to IPut with other pools, memory and ledger is such a return. */
  lemma ReturnShape(s: State, i: nat, failed: Option<BufId>, msgPool: multiset<BufId>, mem: seq<seq<WfDoc>>, g: Ledger)
    requires i < |s.lanes| && s.lanes[i].pc.IFlush? && g.lostIndexer == s.ledger.lostIndexer
    ensures CallReturned(s, GoTo(s, i, IPut(failed, s.lanes[i].pc.k)).(msgPool := msgPool, mem := mem, ledger := g), i)
  {
  }

  /** The response makes sendToES write a buffer of failed documents. */
  predicate Extracts(s: State, i: nat, resp: Response)
    requires i < |s.lanes|
  {
    |Render(Load(s.mem, s.lanes[i].ptr))| >= MINIMUM_BUFFER_SIZE && resp.Decoded? && resp.hasErrors
  }

  /** Whatever the response, a bulk call only moves its indexer on and changes the message pool,
      the memory and the ledger. */
  lemma BulkCallShape(s: State, i: nat, resp: Response, get: BufId)
    requires i < |s.lanes| && s.lanes[i].pc.IFlush? && Answers(resp, Load(s.mem, s.lanes[i].ptr))
    ensures CallReturned(s, DoBulkCall(s, i, resp, get), i)
    ensures DoBulkCall(s, i, resp, get).lanes[i].pc.failed == if Extracts(s, i, resp) then Some(get) else None
  {
    var s' := DoBulkCall(s, i, resp, get);
    ReturnShape(s, i, if Extracts(s, i, resp) then Some(get) else None, s'.msgPool, s'.mem, s'.ledger);
  }

  /** The deferred Put. lastFlush is set here: nothing looks at it before the flush has ended. */
  function DoPutBulk(s: State, i: nat): State
    requires i < |s.lanes| && s.lanes[i].pc.IPut?
  {
    var l := s.lanes[i];
    var pc := if l.pc.failed.Some? then ISend(l.pc.failed.value, l.pc.k) else IGet(l.pc.k);
    SetLane(s, i, l.(pc := pc, flushed := true))
      .(mem := Store(s.mem, l.ptr, []), bulkPool := s.bulkPool + multiset{l.ptr})
  }

  function DoDropErrors(s: State, i: nat): State
    requires i < |s.lanes| && s.lanes[i].pc.ISend?
  {
    var l := s.lanes[i];
    GoTo(s, i, IGet(l.pc.k)).(
      mem := Store(s.mem, l.pc.out, []), msgPool := s.msgPool + multiset{l.pc.out},
      ledger := s.ledger.(dropped := s.ledger.dropped + multiset(Load(s.mem, l.pc.out))))
  }

  function DoSendErrors(s: State, i: nat): State
    requires i < |s.lanes| && s.lanes[i].pc.ISend?
  {
    var l := s.lanes[i];
    SetLane(s, i, l.(pc := IGet(l.pc.k), err := l.err + [l.pc.out], sent := l.sent + [l.pc.out]))
  }

  /** The pc after flush has got its new buffer. */
  function Resume(k: Cont): IndexerPc {
    match k
    case ThenBytes(m) => IBytes(m)
    case ThenAppend(m) => IAppend(m)
    case ThenSelect => ISelect
    case ThenReturn => IDone
  }

  /** The end of flush; after the final flush Start returns, which closes the error channel and
      lets go of the buffer. */
  function DoGetBulk(c: Setup, s: State, i: nat, get: BufId): State
    requires i < |s.lanes| && s.lanes[i].pc.IGet?
  {
    var l := s.lanes[i];
    var k := l.pc.k;
    var closes := k.ThenReturn? && Republishes(c);
    SetLane(s, i, l.(pc := Resume(k), ptr := get, count := 0, errClosed := l.errClosed || closes))
      .(mem := Allocate(s.mem, get), bulkPool := s.bulkPool - multiset{get},
        garbage := if k.ThenReturn? then s.garbage + multiset{get} else s.garbage)
  }

  // -------------------------------------------------------------- merge

  function DoForward(s: State, i: nat): State
    requires i < |s.lanes| && s.lanes[i].err != []
  {
    var l := s.lanes[i];
    SetLane(s, i, l.(fwd := FHold(l.err[0]), err := l.err[1..]))
  }

  function DoForwardSend(s: State, i: nat): State
    requires i < |s.lanes| && s.lanes[i].fwd.FHold?
  {
    var l := s.lanes[i];
    SetLane(s, i, l.(fwd := FRange)).(out := s.out + [l.fwd.msg], outLog := s.outLog + [(i, l.fwd.msg)])
  }

  predicate AllForwarded(s: State) {
    forall i :: 0 <= i < |s.lanes| ==> s.lanes[i].fwd.FDone?
  }

  // ----------------------------------------------------------- producer

  function DoProducerReceive(s: State): State
    requires s.out != []
  {
    s.(ppc := PHold(s.out[0]), out := s.out[1..], taken := s.taken + [s.out[0]])
  }

  /** The deferred Put of the produced buffer. */
  function Release(s: State, m: BufId): State {
    s.(ppc := PRange, mem := Store(s.mem, m, []), msgPool := s.msgPool + multiset{m})
  }

  function Settle(s: State, m: BufId, ok: bool): State {
    var docs := multiset(Load(s.mem, m));
    Release(s, m).(ledger :=
      if ok then s.ledger.(republished := s.ledger.republished + docs)
      else s.ledger.(lostProduce := s.ledger.lostProduce + docs))
  }

  // --------------------------------------------------------------- steps

  predicate At(s: State, i: nat) {
    i < |s.lanes|
  }

  predicate Wanted(c: Setup, s: State, i: nat)
    requires At(s, i) && s.lanes[i].pc.ISend?
  {
    Republishes(c) && |Render(Load(s.mem, s.lanes[i].pc.out))| >= 1
  }

  predicate ConsumerCan(c: Setup, s: State, cs: ConsumerStep) {
    match cs
    case ConsumerStart => s.cpc.CStarting?
    case ConsumerFail => s.cpc.CStarting? || s.cpc.CPolling?
    case ConsumerCheck => s.cpc.CSelect?
    case PollNothing => s.cpc.CPolling?
    case PollMessage(get, docs) => s.cpc.CPolling? && CanGet(s.msgPool, s.mem, get)
    case ConsumerSend => s.cpc.CSending? && |s.inq| < c.inCap
    case ConsumerHand(i) => s.cpc.CSending? && c.inCap == 0 && At(s, i) && s.lanes[i].pc.ISelect?
  }

  function ConsumerNext(c: Setup, s: State, cs: ConsumerStep): State
    requires ConsumerCan(c, s, cs)
  {
    match cs
    case ConsumerStart => s.(cpc := CSelect)
    case ConsumerFail => StopConsumer(s).(cancelled := true)
    case ConsumerCheck => if s.cancelled then StopConsumer(s) else s.(cpc := CPolling)
    case PollNothing => s.(cpc := CSelect)
    case PollMessage(get, docs) => DoPollMessage(s, get, docs)
    case ConsumerSend => DoConsumerSend(s)
    case ConsumerHand(i) => DoReceive(DoConsumerSend(s), i)
  }

  /** Before the first flush the time test always holds. */
  predicate MayFire(l: Lane, fires: bool) {
    if fires then l.count > 0 else l.count == 0 || l.flushed
  }

  predicate LoopCan(s: State, i: nat, ls: LoopStep) {
    At(s, i) &&
    match ls
    case Receive => s.lanes[i].pc.ISelect? && s.inq != []
    case SeeClosed => s.lanes[i].pc.ISelect? && s.inClosed && s.inq == []
    case TickIdle => s.lanes[i].pc.ISelect? && MayFire(s.lanes[i], false)
    case TickFlush => s.lanes[i].pc.ISelect? && MayFire(s.lanes[i], true)
    case TickFail => s.lanes[i].pc.ISelect?
    case TimeTest(fires) => s.lanes[i].pc.ITime? && MayFire(s.lanes[i], fires)
    case BytesTest => s.lanes[i].pc.IBytes?
    case AppendMsg => s.lanes[i].pc.IAppend?
  }

  function LoopNext(c: Setup, s: State, i: nat, ls: LoopStep): State
    requires LoopCan(s, i, ls)
  {
    match ls
    case Receive => DoReceive(s, i)
    case SeeClosed => GoTo(s, i, IFlush(ThenReturn))
    case TickIdle => s
    case TickFlush => GoTo(s, i, IFlush(ThenSelect))
    case TickFail => DoTickFail(c, s, i)
    case TimeTest(fires) => DoTimeTest(s, i, fires)
    case BytesTest => DoBytesTest(c, s, i)
    case AppendMsg => DoAppendMsg(c, s, i)
  }

  predicate FlushCan(c: Setup, s: State, i: nat, fs: FlushStep) {
    At(s, i) &&
    match fs
    case BulkCall(resp, get) =>
      s.lanes[i].pc.IFlush? && CanGet(s.msgPool, s.mem, get) && Answers(resp, Load(s.mem, s.lanes[i].ptr))
    case PutBulk => s.lanes[i].pc.IPut?
    case DropErrors => s.lanes[i].pc.ISend? && !Wanted(c, s, i)
    case SendErrors => s.lanes[i].pc.ISend? && Wanted(c, s, i) && |s.lanes[i].err| < c.errCap
    case HandErrors => s.lanes[i].pc.ISend? && Wanted(c, s, i) && c.errCap == 0 && s.lanes[i].fwd.FRange?
    case GetBulk(get) => s.lanes[i].pc.IGet? && CanGet(s.bulkPool, s.mem, get)
  }

  function FlushNext(c: Setup, s: State, i: nat, fs: FlushStep): State
    requires FlushCan(c, s, i, fs)
  {
    match fs
    case BulkCall(resp, get) => DoBulkCall(s, i, resp, get)
    case PutBulk => DoPutBulk(s, i)
    case DropErrors => DoDropErrors(s, i)
    case SendErrors => DoSendErrors(s, i)
    case HandErrors => DoForward(DoSendErrors(s, i), i)
    case GetBulk(get) => DoGetBulk(c, s, i, get)
  }

  predicate MergeCan(c: Setup, s: State, i: nat, ms: ForwarderStep) {
    At(s, i) &&
    match ms
    case Forward => s.lanes[i].fwd.FRange? && s.lanes[i].err != []
    case ForwardEnd => s.lanes[i].fwd.FRange? && s.lanes[i].errClosed && s.lanes[i].err == []
    case ForwardSend => s.lanes[i].fwd.FHold? && |s.out| < c.outCap
    case ForwardHand => s.lanes[i].fwd.FHold? && c.outCap == 0 && s.ppc.PRange?
  }

  function MergeNext(c: Setup, s: State, i: nat, ms: ForwarderStep): State
    requires MergeCan(c, s, i, ms)
  {
    match ms
    case Forward => DoForward(s, i)
    case ForwardEnd => SetLane(s, i, s.lanes[i].(fwd := FDone))
    case ForwardSend => DoForwardSend(s, i)
    case ForwardHand => DoProducerReceive(DoForwardSend(s, i))
  }

  predicate ProducerCan(s: State, ps: ProducerStep) {
    match ps
    case ProducerStart => s.ppc.PStarting?
    case ProducerFail => s.ppc.PStarting?
    case ProducerReceive => s.ppc.PRange? && s.out != []
    case ProducerEnd => s.ppc.PRange? && s.outClosed && s.out == []
    case Produce(result) => s.ppc.PHold?
    case Retry(ok) => s.ppc.PRetry?
  }

  function ProducerNext(s: State, ps: ProducerStep): State
    requires ProducerCan(s, ps)
  {
    match ps
    case ProducerStart => s.(ppc := PRange)
    case ProducerFail => s.(ppc := PFailed, cancelled := true)
    case ProducerReceive => DoProducerReceive(s)
    case ProducerEnd => s.(ppc := PDone)
    case Produce(result) =>
      if result.QueueFull? then s.(ppc := PRetry(s.ppc.msg)) else Settle(s, s.ppc.msg, result.Produced?)
    case Retry(ok) => Settle(s, s.ppc.msg, ok)
  }

  predicate Enabled(c: Setup, s: State, l: Label) {
    match l
    case Cancel => !s.cancelled
    case Consumer(cs) => ConsumerCan(c, s, cs)
    case Loop(i, ls) => LoopCan(s, i, ls)
    case Flush(i, fs) => FlushCan(c, s, i, fs)
    case Merge(i, ms) => MergeCan(c, s, i, ms)
    case CloseOut => !s.closerDone && AllForwarded(s)
    case Producer(ps) => ProducerCan(s, ps)
  }

  function Next(c: Setup, s: State, l: Label): State
    requires Enabled(c, s, l)
  {
    match l
    case Cancel => s.(cancelled := true)
    case Consumer(cs) => ConsumerNext(c, s, cs)
    case Loop(i, ls) => LoopNext(c, s, i, ls)
    case Flush(i, fs) => FlushNext(c, s, i, fs)
    case Merge(i, ms) => MergeNext(c, s, i, ms)
    case CloseOut => s.(outClosed := true, closerDone := true)
    case Producer(ps) => ProducerNext(s, ps)
  }

  /** The states of all runs: finitely many steps from the start, interleaved in any order. */
  ghost predicate Reachable(c: Setup, s: State) {
    exists trace: seq<Label> :: Trace(c, Init(c), trace, s)
  }

  /** trace leads from a to b. */
  ghost predicate Trace(c: Setup, a: State, trace: seq<Label>, b: State)
    decreases |trace|
  {
    if trace == [] then a == b
    else Enabled(c, a, trace[0]) && Trace(c, Next(c, a, trace[0]), trace[1..], b)
  }

  lemma {:induction false} TraceSnoc(c: Setup, a: State, trace: seq<Label>, b: State, l: Label)
    requires Trace(c, a, trace, b) && Enabled(c, b, l)
    ensures Trace(c, a, trace + [l], Next(c, b, l))
    decreases |trace|
  {
    if trace == [] {
      assert Trace(c, Next(c, a, l), [], Next(c, b, l));
      assert ([] + [l])[1..] == [];
    } else {
      TraceSnoc(c, Next(c, a, trace[0]), trace[1..], b, l);
      assert (trace + [l])[1..] == trace[1..] + [l];
    }
  }

  /** One more step of a run. */
  lemma ReachStep(c: Setup, s: State, l: Label) returns (s': State)
    requires Reachable(c, s) && Enabled(c, s, l)
    ensures Reachable(c, s') && s' == Next(c, s, l)
  {
    var trace :| Trace(c, Init(c), trace, s);
    TraceSnoc(c, Init(c), trace, s, l);
    s' := Next(c, s, l);
  }
}
