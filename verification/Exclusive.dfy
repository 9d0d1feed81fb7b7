/** What single ownership gives each goroutine: the buffers it holds are its own, although the
    pools are shared and b.buffer goes stale during a flush. */
module Exclusive {
  import opened Documents
  import opened Pipeline
  import opened Ownership
  import IndexerSpec

  /** Everywhere a buffer can be. LaneHand: message and error buffers in an indexer's hand;
      LaneBuffer: its live b.buffer. */
  datatype Place =
    | InConsumer | InSlot | LaneHand(i: nat) | LaneBuffer(i: nat) | ErrSlot(i: nat) | ForwarderHand(i: nat)
    | OutSlot | InProducer | MsgPool | BulkPool | Nowhere

  function HeldAt(s: State, p: Place, id: BufId): nat {
    match p
    case InConsumer => ConsumerHolds(s.cpc, id)
    case InSlot => Occ(s.inq, id)
    case LaneHand(i) => if At(s, i) then PcHolds(s.lanes[i].pc, id) else 0
    case LaneBuffer(i) => if At(s, i) && HasBuffer(s.lanes[i].pc) then Is(s.lanes[i].ptr, id) else 0
    case ErrSlot(i) => if At(s, i) then Occ(s.lanes[i].err, id) else 0
    case ForwarderHand(i) => if At(s, i) then ForwarderHolds(s.lanes[i].fwd, id) else 0
    case OutSlot => Occ(s.out, id)
    case InProducer => ProducerHolds(s.ppc, id)
    case MsgPool => s.msgPool[id]
    case BulkPool => s.bulkPool[id]
    case Nowhere => s.garbage[id]
  }

  predicate HasBuffer(pc: IndexerPc) {
    Unsettled(pc) || pc.IPut?
  }

  function LaneOf(p: Place): Option<nat> {
    if p.LaneHand? || p.LaneBuffer? || p.ErrSlot? || p.ForwarderHand? then Some(p.i) else None
  }

  function LaneAll(l: Lane, id: BufId): nat {
    LaneData(l, id) + LaneSpent(l, id)
  }

  lemma {:induction false} TwoLanes(ls: seq<Lane>, i: nat, j: nat, id: BufId)
    requires i < j < |ls|
    ensures LaneAll(ls[i], id) + LaneAll(ls[j], id) <= LanesData(ls, id) + LanesSpent(ls, id)
  {
    if i == 0 {
      LaneHeld(ls[1..], j - 1, id);
    } else {
      TwoLanes(ls[1..], i - 1, j - 1, id);
    }
  }

  /** A buffer is in one place only: in every reachable state, for any two different places, and
      once in that place. */
  lemma OnePlace(c: Setup, s: State, p: Place, q: Place, id: BufId)
    requires Reachable(c, s) && p != q
    ensures HeldAt(s, p, id) + HeldAt(s, q, id) <= 1
  {
    ReachableSingleOwner(c, s);
    PlacesApart(s, p, q, id);
  }

  lemma OneLanePlaces(s: State, p: Place, q: Place, i: nat, id: BufId)
    requires At(s, i) && LaneOf(p) == Some(i)
    ensures HeldAt(s, p, id) <= LaneAll(s.lanes[i], id)
    ensures LaneOf(q) == Some(i) && p != q ==> HeldAt(s, p, id) + HeldAt(s, q, id) <= LaneAll(s.lanes[i], id)
  {
  }

  /** The places outside the lanes, together. */
  function StagePlaces(s: State, id: BufId): nat {
    ConsumerHolds(s.cpc, id) + Occ(s.inq, id) + Occ(s.out, id) + ProducerHolds(s.ppc, id)
    + s.msgPool[id] + s.bulkPool[id] + s.garbage[id]
  }

  lemma StagePlacesApart(s: State, p: Place, q: Place, id: BufId)
    requires LaneOf(p) == None
    ensures HeldAt(s, p, id) <= StagePlaces(s, id)
    ensures LaneOf(q) == None && p != q ==> HeldAt(s, p, id) + HeldAt(s, q, id) <= StagePlaces(s, id)
  {
  }

  lemma LanePlacesApart(s: State, p: Place, q: Place, id: BufId)
    requires p != q && LaneOf(p).Some?
    ensures HeldAt(s, p, id) + (if LaneOf(q).Some? then HeldAt(s, q, id) else 0) <=
            LanesData(s.lanes, id) + LanesSpent(s.lanes, id)
  {
    var i := LaneOf(p).value;
    if At(s, i) {
      LaneHeld(s.lanes, i, id);
      OneLanePlaces(s, p, q, i, id);
    }
    if LaneOf(q).Some? && At(s, LaneOf(q).value) {
      var j := LaneOf(q).value;
      LaneHeld(s.lanes, j, id);
      OneLanePlaces(s, q, p, j, id);
      if At(s, i) && i < j {
        TwoLanes(s.lanes, i, j, id);
      } else if At(s, i) && j < i {
        TwoLanes(s.lanes, j, i, id);
      }
    }
  }

  lemma PlacesApart(s: State, p: Place, q: Place, id: BufId)
    requires SingleOwner(s) && p != q
    ensures HeldAt(s, p, id) + HeldAt(s, q, id) <= 1
  {
    assert Data(s, id) + Idle(s, id) == if id < |s.mem| then 1 else 0;
    assert StagePlaces(s, id) + LanesData(s.lanes, id) + LanesSpent(s.lanes, id) <= 1;
    if LaneOf(p).Some? {
      LanePlacesApart(s, p, q, id);
    } else {
      StagePlacesApart(s, p, q, id);
    }
    if LaneOf(q).Some? {
      LanePlacesApart(s, q, p, id);
    } else {
      StagePlacesApart(s, q, p, id);
    }
  }

  /** Every allocated buffer is in some place. */
  lemma SomePlace(c: Setup, s: State, id: BufId) returns (p: Place)
    requires Reachable(c, s) && id < |s.mem|
    ensures HeldAt(s, p, id) == 1
  {
    ReachableSingleOwner(c, s);
    assert Data(s, id) + Idle(s, id) == 1;
    if LanesData(s.lanes, id) + LanesSpent(s.lanes, id) > 0 {
      var i := SomeLane(s.lanes, id);
      LaneHeld(s.lanes, i, id);
      p := SomeLanePlace(s, i, id);
    } else {
      p := SomeStagePlace(s, id);
    }
  }

  lemma SomeLanePlace(s: State, i: nat, id: BufId) returns (p: Place)
    requires At(s, i) && LaneAll(s.lanes[i], id) == 1
    ensures HeldAt(s, p, id) == 1
  {
    p := if PcHolds(s.lanes[i].pc, id) > 0 then LaneHand(i)
         else if Occ(s.lanes[i].err, id) > 0 then ErrSlot(i)
         else if ForwarderHolds(s.lanes[i].fwd, id) > 0 then ForwarderHand(i)
         else LaneBuffer(i);
  }

  lemma SomeStagePlace(s: State, id: BufId) returns (p: Place)
    requires StagePlaces(s, id) == 1
    ensures HeldAt(s, p, id) == 1
  {
    p := if ConsumerHolds(s.cpc, id) > 0 then InConsumer
         else if Occ(s.inq, id) > 0 then InSlot
         else if Occ(s.out, id) > 0 then OutSlot
         else if ProducerHolds(s.ppc, id) > 0 then InProducer
         else if s.msgPool[id] > 0 then MsgPool
         else if s.bulkPool[id] > 0 then BulkPool
         else Nowhere;
  }

  lemma {:induction false} SomeLane(ls: seq<Lane>, id: BufId) returns (i: nat)
    requires LanesData(ls, id) + LanesSpent(ls, id) > 0
    ensures i < |ls| && LaneAll(ls[i], id) > 0
  {
    if LaneAll(ls[0], id) > 0 {
      i := 0;
    } else {
      var j := SomeLane(ls[1..], id);
      i := j + 1;
    }
  }

  /** The places a step may touch: its goroutine's hand and buffer, or the pool it takes from. */
  predicate ActsAt(l: Label, p: Place) {
    match l
    case Consumer(cs) => p.InConsumer? || (cs.PollMessage? && p.MsgPool?)
    case Loop(i, _) => p == LaneHand(i) || p == LaneBuffer(i)
    case Flush(i, fs) =>
      || p == LaneHand(i) || p == LaneBuffer(i)
      || (fs.BulkCall? && p.MsgPool?) || (fs.GetBulk? && p.BulkPool?)
    case Producer(_) => p.InProducer?
    case _ => false
  }

  lemma TouchesOwnPlace(c: Setup, s: State, l: Label, id: BufId) returns (p: Place)
    requires Enabled(c, s, l) && MayTouch(c, s, l, id) && id < |s.mem|
    ensures ActsAt(l, p) && HeldAt(s, p, id) > 0
  {
    match l {
      case Consumer(cs) =>
        p := if ConsumerHolds(s.cpc, id) > 0 then InConsumer else MsgPool;
      case Loop(i, _) =>
        p := if PcHolds(s.lanes[i].pc, id) > 0 then LaneHand(i) else LaneBuffer(i);
      case Flush(i, fs) =>
        p := if PcHolds(s.lanes[i].pc, id) > 0 then LaneHand(i)
             else if HasBuffer(s.lanes[i].pc) && s.lanes[i].ptr == id then LaneBuffer(i)
             else if fs.BulkCall? then MsgPool else BulkPool;
      case Producer(_) => p := InProducer;
    }
  }

  /** A buffer that lies in a channel, in another goroutine's hand, or in a pool the step does
      not take from, is neither read nor written by the step. */
  lemma ElsewhereUntouched(c: Setup, s: State, l: Label, p: Place, id: BufId)
    requires Reachable(c, s) && Enabled(c, s, l) && HeldAt(s, p, id) > 0 && !ActsAt(l, p)
    ensures !MayTouch(c, s, l, id) && Load(Next(c, s, l).mem, id) == Load(s.mem, id)
  {
    ReachableSingleOwner(c, s);
    ElsewhereKept(c, s, l, p, id);
  }

  lemma ElsewhereKept(c: Setup, s: State, l: Label, p: Place, id: BufId)
    requires SingleOwner(s) && Enabled(c, s, l) && HeldAt(s, p, id) > 0 && !ActsAt(l, p)
    ensures !MayTouch(c, s, l, id) && Load(Next(c, s, l).mem, id) == Load(s.mem, id)
  {
    HeldIsAllocated(s, p, id);
    if MayTouch(c, s, l, id) {
      var q := TouchesOwnPlace(c, s, l, id);
      PlacesApart(s, p, q, id);
    }
    UntouchedKept(c, s, l, id);
  }

  lemma HeldIsAllocated(s: State, p: Place, id: BufId)
    requires SingleOwner(s) && HeldAt(s, p, id) > 0
    ensures id < |s.mem|
  {
    assert Data(s, id) + Idle(s, id) == if id < |s.mem| then 1 else 0;
    var i := LaneOf(p);
    if i.Some? && At(s, i.value) {
      LaneHeld(s.lanes, i.value, id);
    }
  }

  lemma UntouchedKept(c: Setup, s: State, l: Label, id: BufId)
    requires Enabled(c, s, l) && SingleOwner(s) && !MayTouch(c, s, l, id)
    ensures Load(Next(c, s, l).mem, id) == Load(s.mem, id)
  {
    StepWrites(c, s, l, id);
    assert Recycled(c, s, l) != Some(id);
    assert Grown(c, s, l).Some? ==> Grown(c, s, l).value.id != id;
  }

  /** The aliasing is real: with two indexers there are runs in which the stale b.buffer of one,
      between its Put and its next Get, names the live buffer of the other. */
  lemma StaleAliasReachable(c: Setup) returns (s: State)
    requires c.n >= 2
    ensures Reachable(c, s) && |s.lanes| >= 2
    ensures s.lanes[0].pc.IGet? && HasBuffer(s.lanes[1].pc) && s.lanes[0].ptr == s.lanes[1].ptr
  {
    assert Trace(c, Init(c), [], Init(c));
    s := ReachStep(c, Init(c), Flush(0, GetBulk(0)));
    s := ReachStep(c, s, Consumer(ConsumerFail));
    s := AliasFrom(c, s);
  }

  /** Indexer 0 makes its final flush, and indexer 1 gets the buffer it has just put back. */
  lemma AliasFrom(c: Setup, a: State) returns (s: State)
    requires Reachable(c, a) && |a.lanes| >= 2 && a.inClosed && a.inq == [] && a.mem == [[]]
    requires a.lanes[0].pc == ISelect && a.lanes[0].ptr == 0 && a.lanes[1].pc == IGet(ThenSelect)
    ensures Reachable(c, s) && |s.lanes| >= 2
    ensures s.lanes[0].pc.IGet? && HasBuffer(s.lanes[1].pc) && s.lanes[0].ptr == s.lanes[1].ptr
  {
    s := ReachStep(c, a, Loop(0, SeeClosed));
    EmptyCall(c, s);
    s := ReachStep(c, s, Flush(0, BulkCall(IndexerSpec.TransportError, 1)));
    s := AliasAfterCall(c, s);
  }

  lemma AliasAfterCall(c: Setup, a: State) returns (s: State)
    requires Reachable(c, a) && |a.lanes| >= 2 && a.mem == [[]]
    requires a.lanes[0].pc == IPut(None, ThenReturn) && a.lanes[0].ptr == 0 && a.lanes[1].pc == IGet(ThenSelect)
    ensures Reachable(c, s) && |s.lanes| >= 2
    ensures s.lanes[0].pc.IGet? && HasBuffer(s.lanes[1].pc) && s.lanes[0].ptr == s.lanes[1].ptr
  {
    s := ReachStep(c, a, Flush(0, PutBulk));
    s := ReachStep(c, s, Flush(1, GetBulk(0)));
  }

  lemma EmptyCall(c: Setup, s: State)
    requires At(s, 0) && s.lanes[0].pc == IFlush(ThenReturn) && s.lanes[0].ptr == 0 && s.mem == [[]]
    ensures var l := Flush(0, BulkCall(IndexerSpec.TransportError, 1));
            Enabled(c, s, l) && Next(c, s, l) == GoTo(s, 0, IPut(None, ThenReturn))
  {
    assert Render([]) == [];
  }
}
