/** Channel discipline over every interleaving: who has closed what, how full channels can be,
    and that the fan-in of merge neither loses, duplicates nor reorders. */
module Discipline {
  import opened Pipeline

  // -------------------------------------------------------- the invariant

  /** The consumer channel is closed and empty. */
  predicate Drained(s: State) {
    s.inClosed && s.inq == []
  }

  predicate Ended(pc: IndexerPc) {
    pc.IDone? || pc.IFailed?
  }

  /** The indexer is in its final flush, or past it. */
  predicate Returning(pc: IndexerPc) {
    pc.IDone? || ((pc.IFlush? || pc.IPut? || pc.ISend? || pc.IGet?) && pc.k.ThenReturn?)
  }

  function HandSize(pc: IndexerPc): nat {
    if pc.ITime? || pc.IBytes? || pc.IAppend? then 1
    else if (pc.IFlush? || pc.IPut? || pc.ISend? || pc.IGet?) && (pc.k.ThenBytes? || pc.k.ThenAppend?) then 1
    else 0
  }

  /** The messages of an indexer that no bulk call has taken yet. */
  function LaneBacklog(l: Lane): nat {
    HandSize(l.pc) + if Unsettled(l.pc) then l.count else 0
  }

  predicate LaneOk(c: Setup, l: Lane, drained: bool) {
    && (Returning(l.pc) ==> drained)
    && (l.errClosed <==> Republishes(c) && Ended(l.pc))
    && (Republishes(c) && l.fwd.FDone? ==> l.errClosed && l.err == [])
    && (!Republishes(c) ==> l.fwd.FDone? && l.err == [] && l.sent == [])
    && |l.err| <= c.errCap
    && (c.limits.msgLimit >= 1 ==>
          LaneBacklog(l) <= c.limits.msgLimit && (Unsettled(l.pc) && !l.pc.IFlush? ==> l.count < c.limits.msgLimit))
  }

  predicate StagesOk(c: Setup, s: State) {
    && |s.lanes| == c.n
    && (s.inClosed <==> s.cpc.CStopped?)
    && |s.inq| <= c.inCap && |s.out| <= c.outCap
    && (s.outClosed <==> Republishes(c) && s.closerDone)
    && (s.closerDone ==> AllForwarded(s))
    && (if Republishes(c) then s.ppc.PDone? ==> s.outClosed && s.out == []
        else s.ppc.PDone? && s.closerDone && s.out == [])
  }

  predicate LanesOk(c: Setup, s: State) {
    forall i :: 0 <= i < |s.lanes| ==> LaneOk(c, s.lanes[i], Drained(s))
  }

  /** The values of one lane in the tagged history of out. */
  function Project<T>(log: seq<(nat, T)>, i: nat): seq<T> {
    if log == [] then [] else
    Project(log[..|log| - 1], i) + if log[|log| - 1].0 == i then [log[|log| - 1].1] else []
  }

  function Values<T>(log: seq<(nat, T)>): seq<T> {
    if log == [] then [] else Values(log[..|log| - 1]) + [log[|log| - 1].1]
  }

  function InForwarder(pc: ForwarderPc): seq<BufId> {
    if pc.FHold? then [pc.msg] else []
  }

  /** What lane i's error channel has carried: forwarded to out, in its forwarder's hand, or
      still buffered, in this order. */
  predicate LaneLog(s: State, i: nat)
    requires At(s, i)
  {
    Project(s.outLog, i) + InForwarder(s.lanes[i].fwd) + s.lanes[i].err == s.lanes[i].sent
  }

  predicate LogOk(s: State) {
    && (forall e :: e in s.outLog ==> e.0 < |s.lanes|)
    && Values(s.outLog) == s.taken + s.out
    && (forall i :: 0 <= i < |s.lanes| ==> LaneLog(s, i))
  }

  predicate Disciplined(c: Setup, s: State) {
    StagesOk(c, s) && LanesOk(c, s) && LogOk(s)
  }

  // ------------------------------------------------------ it is inductive

  /** A step that leaves the lanes alone. */
  lemma StageKeeps(c: Setup, s: State, s': State)
    requires Disciplined(c, s) && StagesOk(c, s')
    requires s'.lanes == s.lanes && s'.outLog == s.outLog && s'.taken + s'.out == s.taken + s.out
    requires Drained(s) ==> Drained(s')
    ensures Disciplined(c, s')
  {
    forall i | 0 <= i < |s'.lanes| ensures LaneOk(c, s'.lanes[i], Drained(s')) && LaneLog(s', i) {
      assert LaneOk(c, s.lanes[i], Drained(s)) && LaneLog(s, i);
    }
  }

  lemma ConsumerHandKeeps(c: Setup, s: State, i: nat)
    requires Disciplined(c, s) && ConsumerCan(c, s, ConsumerHand(i))
    ensures Disciplined(c, ConsumerNext(c, s, ConsumerHand(i)))
  {
    var s' := ConsumerNext(c, s, ConsumerHand(i));
    StageKeeps(c, s, s.(cpc := CSelect));
    assert s.inq == [] && (s.inq + [s.cpc.msg])[1..] == [];
    assert LaneOk(c, s.lanes[i], Drained(s));
    IndexerKeeps(c, s.(cpc := CSelect), s', i, s'.lanes[i]);
  }

  lemma ConsumerKeeps(c: Setup, s: State, cs: ConsumerStep)
    requires Disciplined(c, s) && ConsumerCan(c, s, cs)
    ensures Disciplined(c, ConsumerNext(c, s, cs))
  {
    match cs {
      case ConsumerHand(i) =>
        ConsumerHandKeeps(c, s, i);
      case _ => StageKeeps(c, s, ConsumerNext(c, s, cs));
    }
  }

  /** A step of an indexer that leaves the channels alone, apart from closing its own. */
  lemma IndexerKeeps(c: Setup, s: State, s': State, i: nat, l': Lane)
    requires Disciplined(c, s) && At(s, i) && s'.lanes == s.lanes[i := l']
    requires s'.cpc == s.cpc && s'.inClosed == s.inClosed && s'.out == s.out && s'.outClosed == s.outClosed
    requires s'.closerDone == s.closerDone && s'.outLog == s.outLog && s'.ppc == s.ppc && s'.taken == s.taken
    requires s'.inq == s.inq || (s.inq != [] && s'.inq == s.inq[1..])
    requires l'.err == s.lanes[i].err && l'.fwd == s.lanes[i].fwd && l'.sent == s.lanes[i].sent
    requires LaneOk(c, l', Drained(s'))
    ensures Disciplined(c, s')
  {
    assert LaneOk(c, s.lanes[i], Drained(s));
    forall j | 0 <= j < |s'.lanes| ensures LaneOk(c, s'.lanes[j], Drained(s')) && LaneLog(s', j) {
      assert LaneOk(c, s.lanes[j], Drained(s)) && LaneLog(s, j);
    }
    forall j | 0 <= j < |s'.lanes| ensures s'.closerDone ==> s'.lanes[j].fwd.FDone? {
      assert s.closerDone ==> s.lanes[j].fwd.FDone?;
    }
  }

  /** The indexer's new pc and count are fine where the old ones were. */
  lemma PcOk(c: Setup, l: Lane, pc: IndexerPc, count: nat, drained: bool, drained': bool)
    requires LaneOk(c, l, drained) && !Ended(l.pc) && !Ended(pc)
    requires Returning(pc) ==> drained'
    requires c.limits.msgLimit >= 1 ==> HandSize(pc) + (if Unsettled(pc) then count else 0) <= c.limits.msgLimit
    requires c.limits.msgLimit >= 1 && Unsettled(pc) && !pc.IFlush? ==> count < c.limits.msgLimit
    ensures LaneOk(c, l.(pc := pc, count := count), drained')
  {
  }

  /** A move of the select loop that goes from pc to pc with the same count. */
  lemma GoToKeeps(c: Setup, s: State, i: nat, pc: IndexerPc)
    requires Disciplined(c, s) && At(s, i) && !Ended(s.lanes[i].pc) && !Ended(pc)
    requires Returning(pc) ==> Drained(s)
    requires Unsettled(s.lanes[i].pc) && Unsettled(pc) && HandSize(pc) == HandSize(s.lanes[i].pc)
    requires !s.lanes[i].pc.IFlush?
    ensures Disciplined(c, GoTo(s, i, pc))
  {
    var l := s.lanes[i];
    assert LaneOk(c, l, Drained(s));
    PcOk(c, l, pc, l.count, Drained(s), Drained(s));
    IndexerKeeps(c, s, GoTo(s, i, pc), i, l.(pc := pc));
  }

  lemma ReceiveKeeps(c: Setup, s: State, i: nat)
    requires Disciplined(c, s) && LoopCan(s, i, Receive)
    ensures Disciplined(c, DoReceive(s, i))
  {
    var l, pc := s.lanes[i], ITime(s.inq[0]);
    assert LaneOk(c, l, Drained(s));
    PcOk(c, l, pc, l.count, Drained(s), Drained(DoReceive(s, i)));
    IndexerKeeps(c, s, DoReceive(s, i), i, l.(pc := pc));
  }

  lemma AppendKeeps(c: Setup, s: State, i: nat)
    requires Disciplined(c, s) && LoopCan(s, i, AppendMsg)
    ensures Disciplined(c, DoAppendMsg(c, s, i))
  {
    var l, s' := s.lanes[i], DoAppendMsg(c, s, i);
    assert LaneOk(c, l, Drained(s));
    PcOk(c, l, s'.lanes[i].pc, l.count + 1, Drained(s), Drained(s'));
    IndexerKeeps(c, s, s', i, l.(pc := s'.lanes[i].pc, count := l.count + 1));
  }

  lemma TickFailKeeps(c: Setup, s: State, i: nat)
    requires Disciplined(c, s) && LoopCan(s, i, TickFail)
    ensures Disciplined(c, DoTickFail(c, s, i))
  {
    var s' := DoTickFail(c, s, i);
    assert LaneOk(c, s.lanes[i], Drained(s));
    IndexerKeeps(c, s, s', i, s'.lanes[i]);
  }

  lemma TestKeeps(c: Setup, s: State, i: nat, ls: LoopStep)
    requires Disciplined(c, s) && LoopCan(s, i, ls) && (ls.SeeClosed? || ls.TickFlush? || ls.TimeTest? || ls.BytesTest?)
    ensures Disciplined(c, LoopNext(c, s, i, ls))
  {
    GoToKeeps(c, s, i, LoopNext(c, s, i, ls).lanes[i].pc);
  }

  lemma LoopKeeps(c: Setup, s: State, i: nat, ls: LoopStep)
    requires Disciplined(c, s) && LoopCan(s, i, ls)
    ensures Disciplined(c, LoopNext(c, s, i, ls))
  {
    match ls {
      case Receive => ReceiveKeeps(c, s, i);
      case TickIdle =>
      case TickFail => TickFailKeeps(c, s, i);
      case AppendMsg => AppendKeeps(c, s, i);
      case _ => TestKeeps(c, s, i, ls);
    }
  }

  /** A flush step that changes only the indexer's pc, and that it has flushed. */
  lemma FlushPcKeeps(c: Setup, s: State, s': State, i: nat, pc: IndexerPc, flushed: bool)
    requires Disciplined(c, s) && At(s, i) && s'.lanes == s.lanes[i := s.lanes[i].(pc := pc, flushed := flushed)]
    requires s'.cpc == s.cpc && s'.inClosed == s.inClosed && s'.out == s.out && s'.outClosed == s.outClosed
    requires s'.closerDone == s.closerDone && s'.outLog == s.outLog && s'.ppc == s.ppc && s'.taken == s.taken
    requires s'.inq == s.inq
    requires s.lanes[i].pc.IFlush? || s.lanes[i].pc.IPut? || s.lanes[i].pc.ISend?
    requires (pc.IPut? || pc.ISend? || pc.IGet?) && pc.k == s.lanes[i].pc.k
    ensures Disciplined(c, s')
  {
    var l := s.lanes[i];
    assert LaneOk(c, l, Drained(s));
    PcOk(c, l, pc, l.count, Drained(s), Drained(s));
    IndexerKeeps(c, s, s', i, l.(pc := pc, flushed := flushed));
  }

  lemma BulkCallKeeps(c: Setup, s: State, i: nat, resp: Response, get: BufId)
    requires Disciplined(c, s) && FlushCan(c, s, i, BulkCall(resp, get))
    ensures Disciplined(c, DoBulkCall(s, i, resp, get))
  {
    var s' := DoBulkCall(s, i, resp, get);
    BulkCallShape(s, i, resp, get);
    FlushPcKeeps(c, s, s', i, s'.lanes[i].pc, s.lanes[i].flushed);
  }

  lemma GetBulkKeeps(c: Setup, s: State, i: nat, get: BufId)
    requires Disciplined(c, s) && FlushCan(c, s, i, GetBulk(get))
    ensures Disciplined(c, DoGetBulk(c, s, i, get))
  {
    var s' := DoGetBulk(c, s, i, get);
    assert LaneOk(c, s.lanes[i], Drained(s));
    IndexerKeeps(c, s, s', i, s'.lanes[i]);
  }

  lemma SendKeeps(c: Setup, s: State, i: nat, fs: FlushStep)
    requires Disciplined(c, s) && FlushCan(c, s, i, fs) && (fs.SendErrors? || fs.HandErrors?)
    ensures Disciplined(c, FlushNext(c, s, i, fs))
  {
    var l, s' := s.lanes[i], FlushNext(c, s, i, fs);
    assert LaneOk(c, l, Drained(s));
    assert s.closerDone ==> l.fwd.FDone?;
    if fs.HandErrors? {
      assert l.err == [] && (l.err + [l.pc.out])[1..] == [];
    }
    MovesAlong(c, s, s', i, s'.lanes[i], [l.pc.out]);
  }

  lemma FlushEndKeeps(c: Setup, s: State, i: nat, fs: FlushStep)
    requires Disciplined(c, s) && FlushCan(c, s, i, fs) && (fs.PutBulk? || fs.DropErrors?)
    ensures Disciplined(c, FlushNext(c, s, i, fs))
  {
    var s' := FlushNext(c, s, i, fs);
    FlushPcKeeps(c, s, s', i, s'.lanes[i].pc, s'.lanes[i].flushed);
  }

  lemma FlushKeeps(c: Setup, s: State, i: nat, fs: FlushStep)
    requires Disciplined(c, s) && FlushCan(c, s, i, fs)
    ensures Disciplined(c, FlushNext(c, s, i, fs))
  {
    match fs {
      case BulkCall(resp, get) => BulkCallKeeps(c, s, i, resp, get);
      case SendErrors => SendKeeps(c, s, i, fs);
      case HandErrors => SendKeeps(c, s, i, fs);
      case GetBulk(get) => GetBulkKeeps(c, s, i, get);
      case _ => FlushEndKeeps(c, s, i, fs);
    }
  }

  /** A step that changes only lane i: `more` enters its error channel, or nothing but the
      forwarder moves. */
  lemma MovesAlong(c: Setup, s: State, s': State, i: nat, l': Lane, more: seq<BufId>)
    requires Disciplined(c, s) && At(s, i) && s' == SetLane(s, i, l')
    requires LaneOk(c, l', Drained(s)) && (s.closerDone ==> l'.fwd.FDone?)
    requires l'.sent == s.lanes[i].sent + more
    requires InForwarder(l'.fwd) + l'.err == InForwarder(s.lanes[i].fwd) + s.lanes[i].err + more
    ensures Disciplined(c, s')
  {
    assert LaneLog(s, i);
    Reassociate(Project(s.outLog, i), InForwarder(s.lanes[i].fwd), s.lanes[i].err, InForwarder(l'.fwd), l'.err, more);
    forall j | 0 <= j < |s'.lanes| ensures LaneOk(c, s'.lanes[j], Drained(s')) && LaneLog(s', j) {
      assert LaneOk(c, s.lanes[j], Drained(s)) && LaneLog(s, j);
    }
    forall j | 0 <= j < |s'.lanes| ensures s'.closerDone ==> s'.lanes[j].fwd.FDone? {
      assert s.closerDone ==> s.lanes[j].fwd.FDone?;
    }
  }

  lemma Reassociate(p: seq<BufId>, h: seq<BufId>, e: seq<BufId>, h': seq<BufId>, e': seq<BufId>, more: seq<BufId>)
    requires h' + e' == h + e + more
    ensures p + h' + e' == p + h + e + more
  {
    assert p + h' + e' == p + (h' + e');
    assert p + h + e + more == p + (h + e + more);
  }

  lemma MergeKeeps(c: Setup, s: State, i: nat, ms: ForwarderStep)
    requires Disciplined(c, s) && MergeCan(c, s, i, ms)
    ensures Disciplined(c, MergeNext(c, s, i, ms))
  {
    assert LaneOk(c, s.lanes[i], Drained(s));
    var l, s' := s.lanes[i], MergeNext(c, s, i, ms);
    match ms {
      case Forward =>
        assert InForwarder(s'.lanes[i].fwd) + s'.lanes[i].err == InForwarder(l.fwd) + l.err + [];
        MovesAlong(c, s, s', i, s'.lanes[i], []);
      case ForwardEnd =>
        assert InForwarder(s'.lanes[i].fwd) + s'.lanes[i].err == InForwarder(l.fwd) + l.err + [];
        MovesAlong(c, s, s', i, s'.lanes[i], []);
      case _ => OutKeeps(c, s, s', i, ms);
    }
  }

  lemma ProjectSnoc<T>(log: seq<(nat, T)>, i: nat, m: T, j: nat)
    ensures Project(log + [(i, m)], j) == Project(log, j) + if i == j then [m] else []
    ensures Values(log + [(i, m)]) == Values(log) + [m]
  {
    assert (log + [(i, m)])[..|log|] == log;
  }

  /** The lanes after forwarder i has sent the buffer it held. */
  lemma SentKeepsLane(c: Setup, s: State, s': State, i: nat, j: nat)
    requires Disciplined(c, s) && At(s, i) && s.lanes[i].fwd.FHold? && At(s, j)
    requires s'.lanes == s.lanes[i := s.lanes[i].(fwd := FRange)] && s'.outLog == s.outLog + [(i, s.lanes[i].fwd.msg)]
    requires Republishes(c) && Drained(s') == Drained(s)
    ensures LaneOk(c, s'.lanes[j], Drained(s')) && LaneLog(s', j)
  {
    assert LaneOk(c, s.lanes[j], Drained(s)) && LaneLog(s, j);
    ProjectSnoc(s.outLog, i, s.lanes[i].fwd.msg, j);
    assert Project(s.outLog, j) + [] == Project(s.outLog, j);
  }

  lemma SentKeepsLog(c: Setup, s: State, s': State, i: nat)
    requires Disciplined(c, s) && At(s, i) && s.lanes[i].fwd.FHold? && |s'.lanes| == |s.lanes|
    requires s'.outLog == s.outLog + [(i, s.lanes[i].fwd.msg)]
    requires s'.taken + s'.out == s.taken + (s.out + [s.lanes[i].fwd.msg])
    ensures Values(s'.outLog) == s'.taken + s'.out && forall e :: e in s'.outLog ==> e.0 < |s'.lanes|
  {
    var m := s.lanes[i].fwd.msg;
    ProjectSnoc(s.outLog, i, m, i);
    assert s.taken + s.out + [m] == s.taken + (s.out + [m]);
  }

  lemma OutKeeps(c: Setup, s: State, s': State, i: nat, ms: ForwarderStep)
    requires Disciplined(c, s) && MergeCan(c, s, i, ms) && (ms.ForwardSend? || ms.ForwardHand?)
    requires s' == MergeNext(c, s, i, ms)
    ensures Disciplined(c, s')
  {
    OutChanges(c, s, i, ms);
    OutStages(c, s, s', i);
    forall j | 0 <= j < |s'.lanes| ensures LaneOk(c, s'.lanes[j], Drained(s')) && LaneLog(s', j) {
      SentKeepsLane(c, s, s', i, j);
    }
    SentKeepsLog(c, s, s', i);
  }

  /** What sending on out changes. */
  predicate SentOut(c: Setup, s: State, s': State, i: nat) {
    && At(s, i) && s.lanes[i].fwd.FHold? && Republishes(c) && !s.closerDone
    && s' == SetLane(s, i, s.lanes[i].(fwd := FRange)).(
         out := s'.out, outLog := s.outLog + [(i, s.lanes[i].fwd.msg)], taken := s'.taken, ppc := s'.ppc)
    && s'.taken + s'.out == s.taken + (s.out + [s.lanes[i].fwd.msg])
    && |s'.out| <= c.outCap && (s'.ppc == s.ppc || s'.ppc.PHold?)
  }

  lemma OutChanges(c: Setup, s: State, i: nat, ms: ForwarderStep)
    requires Disciplined(c, s) && MergeCan(c, s, i, ms) && (ms.ForwardSend? || ms.ForwardHand?)
    ensures SentOut(c, s, MergeNext(c, s, i, ms), i)
  {
    assert LaneOk(c, s.lanes[i], Drained(s));
    if ms.ForwardHand? {
      var q := s.out + [s.lanes[i].fwd.msg];
      assert s.out == [] && [q[0]] + q[1..] == q;
      assert s.taken + [q[0]] + q[1..] == s.taken + ([q[0]] + q[1..]);
    }
  }

  lemma OutStages(c: Setup, s: State, s': State, i: nat)
    requires Disciplined(c, s) && SentOut(c, s, s', i)
    ensures StagesOk(c, s') && s'.lanes == s.lanes[i := s.lanes[i].(fwd := FRange)] && Drained(s') == Drained(s)
  {
  }

  lemma SettleKeeps(c: Setup, s: State, m: BufId, ok: bool)
    requires Disciplined(c, s) && (s.ppc.PHold? || s.ppc.PRetry?)
    ensures Disciplined(c, Settle(s, m, ok))
  {
    StageKeeps(c, s, Settle(s, m, ok));
  }

  lemma ProducerKeeps(c: Setup, s: State, ps: ProducerStep)
    requires Disciplined(c, s) && ProducerCan(s, ps)
    ensures Disciplined(c, ProducerNext(s, ps))
  {
    match ps {
      case ProducerReceive =>
        assert s.taken + s.out == s.taken + [s.out[0]] + s.out[1..];
        StageKeeps(c, s, DoProducerReceive(s));
      case Produce(result) =>
        if result.QueueFull? {
          StageKeeps(c, s, s.(ppc := PRetry(s.ppc.msg)));
        } else {
          SettleKeeps(c, s, s.ppc.msg, result.Produced?);
        }
      case Retry(ok) => SettleKeeps(c, s, s.ppc.msg, ok);
      case _ => StageKeeps(c, s, ProducerNext(s, ps));
    }
  }

  lemma StepKeepsDiscipline(c: Setup, s: State, l: Label)
    requires Disciplined(c, s) && Enabled(c, s, l)
    ensures Disciplined(c, Next(c, s, l))
  {
    match l {
      case Cancel => StageKeeps(c, s, s.(cancelled := true));
      case Consumer(cs) => ConsumerKeeps(c, s, cs);
      case Loop(i, ls) => LoopKeeps(c, s, i, ls);
      case Flush(i, fs) => FlushKeeps(c, s, i, fs);
      case Merge(i, ms) => MergeKeeps(c, s, i, ms);
      case CloseOut => StageKeeps(c, s, Next(c, s, l));
      case Producer(ps) => ProducerKeeps(c, s, ps);
    }
  }

  lemma InitDisciplined(c: Setup)
    ensures Disciplined(c, Init(c))
  {
  }

  lemma {:induction false} TraceDisciplined(c: Setup, a: State, trace: seq<Label>, b: State)
    requires Disciplined(c, a) && Trace(c, a, trace, b)
    ensures Disciplined(c, b)
    decreases |trace|
  {
    if trace != [] {
      StepKeepsDiscipline(c, a, trace[0]);
      TraceDisciplined(c, Next(c, a, trace[0]), trace[1..], b);
    }
  }

  lemma ReachableDisciplined(c: Setup, s: State)
    requires Reachable(c, s)
    ensures Disciplined(c, s)
  {
    var trace :| Trace(c, Init(c), trace, s);
    InitDisciplined(c);
    TraceDisciplined(c, Init(c), trace, s);
  }
}
