/** The limits of the bulker, in the concurrent pipeline: what any indexer sends in any
    interleaving. Other goroutines cannot spoil it because they never touch its buffers. */
module BulkSizes {
  import opened Documents
  import opened Pipeline
  import opened Ownership
  import opened Exclusive
  import Discipline
  import IndexerSpec

  function Size(s: State, id: BufId): nat {
    |Render(Load(s.mem, id))|
  }

  /** The buffer is empty before the first message, within the byte limit from the second on,
      and a message about to be appended to others fits. */
  predicate BufferOk(c: Setup, s: State, i: nat)
    requires At(s, i)
  {
    var l := s.lanes[i];
    Unsettled(l.pc) ==>
      && (l.count == 0 ==> Load(s.mem, l.ptr) == [])
      && (l.count >= 2 ==> Size(s, l.ptr) <= c.limits.bytesLimit)
      && (l.pc.IAppend? && l.count >= 1 ==> Size(s, l.ptr) + Size(s, l.pc.msg) <= c.limits.bytesLimit)
  }

  predicate BuffersOk(c: Setup, s: State) {
    forall i :: 0 <= i < |s.lanes| ==> BufferOk(c, s, i)
  }

  /** The goroutine of indexer i, or the consumer handing it a message, takes the step. */
  predicate Moves(l: Label, i: nat) {
    (l.Loop? && l.i == i) || (l.Flush? && l.i == i) || (l.Consumer? && l.cs == ConsumerHand(i))
  }

  /** The part of lane i that its indexer alone changes. */
  predicate SameIndexer(s: State, s': State, i: nat) {
    && At(s, i) && |s'.lanes| == |s.lanes|
    && s'.lanes[i].pc == s.lanes[i].pc && s'.lanes[i].ptr == s.lanes[i].ptr
    && s'.lanes[i].count == s.lanes[i].count && s'.lanes[i].flushed == s.lanes[i].flushed
  }

  lemma ConsumerStays(c: Setup, s: State, cs: ConsumerStep, i: nat)
    requires ConsumerCan(c, s, cs) && At(s, i)
    ensures |ConsumerNext(c, s, cs).lanes| == |s.lanes|
    ensures cs != ConsumerHand(i) ==> SameIndexer(s, ConsumerNext(c, s, cs), i)
  {
    match cs {
      case PollMessage(get, docs) => assert DoPollMessage(s, get, docs).lanes == s.lanes;
      case ConsumerHand(j) =>
        var m := DoConsumerSend(s).inq[0];
        assert DoReceive(DoConsumerSend(s), j).lanes == s.lanes[j := s.lanes[j].(pc := ITime(m))];
      case _ => assert ConsumerNext(c, s, cs).lanes == s.lanes;
    }
  }

  lemma LoopStays(c: Setup, s: State, j: nat, ls: LoopStep, i: nat)
    requires LoopCan(s, j, ls) && At(s, i)
    ensures |LoopNext(c, s, j, ls).lanes| == |s.lanes|
    ensures i != j ==> SameIndexer(s, LoopNext(c, s, j, ls), i)
  {
    LoopChangesOne(c, s, j, ls);
  }

  lemma LoopChangesOne(c: Setup, s: State, j: nat, ls: LoopStep)
    requires LoopCan(s, j, ls)
    ensures |LoopNext(c, s, j, ls).lanes| == |s.lanes|
    ensures LoopNext(c, s, j, ls).lanes == s.lanes[j := LoopNext(c, s, j, ls).lanes[j]]
  {
    match ls {
      case TickFail => assert DoTickFail(c, s, j).lanes == s.lanes[j := DoTickFail(c, s, j).lanes[j]];
      case AppendMsg => assert DoAppendMsg(c, s, j).lanes == s.lanes[j := DoAppendMsg(c, s, j).lanes[j]];
      case _ =>
    }
  }

  lemma FlushStays(c: Setup, s: State, j: nat, fs: FlushStep, i: nat)
    requires FlushCan(c, s, j, fs) && At(s, i)
    ensures |FlushNext(c, s, j, fs).lanes| == |s.lanes|
    ensures i != j ==> SameIndexer(s, FlushNext(c, s, j, fs), i)
  {
    if fs.BulkCall? {
      BulkCallShape(s, j, fs.resp, fs.get);
    }
  }

  lemma MergeStays(c: Setup, s: State, j: nat, ms: ForwarderStep, i: nat)
    requires MergeCan(c, s, j, ms) && At(s, i)
    ensures SameIndexer(s, MergeNext(c, s, j, ms), i)
  {
  }

  lemma ProducerStays(s: State, ps: ProducerStep, i: nat)
    requires ProducerCan(s, ps) && At(s, i)
    ensures SameIndexer(s, ProducerNext(s, ps), i)
  {
  }

  lemma LaneStays(c: Setup, s: State, l: Label, i: nat)
    requires Enabled(c, s, l) && At(s, i)
    ensures |Next(c, s, l).lanes| == |s.lanes|
    ensures !Moves(l, i) ==> SameIndexer(s, Next(c, s, l), i)
  {
    match l {
      case Consumer(cs) => ConsumerStays(c, s, cs, i);
      case Loop(j, ls) => LoopStays(c, s, j, ls, i);
      case Flush(j, fs) => FlushStays(c, s, j, fs, i);
      case Merge(j, ms) => MergeStays(c, s, j, ms, i);
      case Producer(ps) => ProducerStays(s, ps, i);
      case _ =>
    }
  }

  /** Steps of others leave an indexer's buffer, message and count as they are. */
  lemma OthersKeep(c: Setup, s: State, l: Label, i: nat)
    requires Enabled(c, s, l) && SingleOwner(s) && At(s, i) && !Moves(l, i) && BufferOk(c, s, i)
    ensures At(Next(c, s, l), i) && BufferOk(c, Next(c, s, l), i)
  {
    LaneStays(c, s, l, i);
    var lane := s.lanes[i];
    if Unsettled(lane.pc) {
      ElsewhereKept(c, s, l, LaneBuffer(i), lane.ptr);
      if lane.pc.IAppend? {
        ElsewhereKept(c, s, l, LaneHand(i), lane.pc.msg);
      }
    }
  }

  lemma AppendKeeps(c: Setup, s: State, i: nat)
    requires LoopCan(s, i, AppendMsg) && SingleOwner(s) && BufferOk(c, s, i)
    ensures BufferOk(c, DoAppendMsg(c, s, i), i)
  {
    var l := s.lanes[i];
    PlacesApart(s, LaneBuffer(i), LaneHand(i), l.ptr);
    HeldIsAllocated(s, LaneBuffer(i), l.ptr);
    RenderAppend(Load(s.mem, l.ptr), Load(s.mem, l.pc.msg));
    assert Load(DoAppendMsg(c, s, i).mem, l.ptr) == Load(s.mem, l.ptr) + Load(s.mem, l.pc.msg);
  }

  lemma LoopKeeps(c: Setup, s: State, i: nat, ls: LoopStep)
    requires LoopCan(s, i, ls) && SingleOwner(s) && BufferOk(c, s, i)
    ensures BufferOk(c, LoopNext(c, s, i, ls), i)
  {
    if ls.AppendMsg? {
      AppendKeeps(c, s, i);
    }
  }

  lemma FlushKeeps(c: Setup, s: State, i: nat, fs: FlushStep)
    requires FlushCan(c, s, i, fs) && SingleOwner(s) && BufferOk(c, s, i)
    ensures At(FlushNext(c, s, i, fs), i) && BufferOk(c, FlushNext(c, s, i, fs), i)
  {
    match fs {
      case BulkCall(resp, get) => BulkCallShape(s, i, resp, get);
      case GetBulk(get) => GetKeeps(c, s, i, get);
      case _ =>
    }
  }

  lemma GetKeeps(c: Setup, s: State, i: nat, get: BufId)
    requires FlushCan(c, s, i, GetBulk(get)) && SingleOwner(s)
    ensures BufferOk(c, DoGetBulk(c, s, i, get), i)
  {
    assert Data(s, get) + Idle(s, get) == if get < |s.mem| then 1 else 0;
    assert Load(s.mem, get) == [];
  }

  /** Without indexers only the consumer and the producer can move. */
  lemma NoLanes(c: Setup, s: State, l: Label)
    requires Enabled(c, s, l) && s.lanes == []
    ensures Next(c, s, l).lanes == []
  {
    match l {
      case Consumer(cs) => assert ConsumerNext(c, s, cs).lanes == [];
      case Producer(ps) => assert ProducerNext(s, ps).lanes == [];
      case _ =>
    }
  }

  lemma StepKeepsBuffers(c: Setup, s: State, l: Label)
    requires Enabled(c, s, l) && SingleOwner(s) && BuffersOk(c, s)
    ensures BuffersOk(c, Next(c, s, l))
  {
    if s.lanes == [] {
      NoLanes(c, s, l);
    } else {
      LaneStays(c, s, l, 0);
    }
    forall i | 0 <= i < |Next(c, s, l).lanes| ensures BufferOk(c, Next(c, s, l), i) {
      assert BufferOk(c, s, i);
      if Moves(l, i) {
        match l {
          case Consumer(cs) =>
          case Loop(_, ls) => LoopKeeps(c, s, i, ls);
          case Flush(_, fs) => FlushKeeps(c, s, i, fs);
        }
      } else {
        OthersKeep(c, s, l, i);
      }
    }
  }

  lemma {:induction false} TraceBuffers(c: Setup, a: State, trace: seq<Label>, b: State)
    requires SingleOwner(a) && BuffersOk(c, a) && Trace(c, a, trace, b)
    ensures BuffersOk(c, b)
    decreases |trace|
  {
    if trace != [] {
      StepKeepsBuffers(c, a, trace[0]);
      StepKeepsSingleOwner(c, a, trace[0]);
      TraceBuffers(c, Next(c, a, trace[0]), trace[1..], b);
    }
  }

  /** Every bulk call, in every interleaving: at most msgLimit messages, and at most bytesLimit
      bytes if there is more than one; with the configured cap that is at most 90 MiB. */
  lemma BulkCallsWithinLimits(c: Setup, s: State, i: nat, maxBytes: int)
    requires Reachable(c, s) && At(s, i) && s.lanes[i].pc.IFlush?
    ensures c.limits.msgLimit >= 1 ==> s.lanes[i].count <= c.limits.msgLimit
    ensures s.lanes[i].count == 0 ==> Load(s.mem, s.lanes[i].ptr) == []
    ensures s.lanes[i].count > 1 ==> Size(s, s.lanes[i].ptr) <= c.limits.bytesLimit
    ensures s.lanes[i].count > 1 && c.limits.bytesLimit == IndexerSpec.CappedBytes(maxBytes) ==>
              Size(s, s.lanes[i].ptr) <= 94371840
  {
    var trace :| Trace(c, Init(c), trace, s);
    InitSingleOwner(c);
    TraceBuffers(c, Init(c), trace, s);
    assert BufferOk(c, s, i);
    Discipline.ReachableDisciplined(c, s);
    assert Discipline.LaneOk(c, s.lanes[i], Discipline.Drained(s));
  }
}
