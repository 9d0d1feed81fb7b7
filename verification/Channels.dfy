/** What the channel discipline gives in every reachable state: no send on or second close of a
    closed channel, an order-preserving fan-in, and bounds on what can pile up. */
module Channels {
  import opened Documents
  import opened Pipeline
  import opened Discipline

  datatype Channel = In | Err(i: nat) | Out

  predicate Exists(s: State, ch: Channel) {
    ch.Err? ==> ch.i < |s.lanes|
  }

  predicate IsClosed(s: State, ch: Channel)
    requires Exists(s, ch)
  {
    match ch
    case In => s.inClosed
    case Err(i) => s.lanes[i].errClosed
    case Out => s.outClosed
  }

  /** The values buffered in a channel, oldest first. */
  function Buffered(s: State, ch: Channel): seq<BufId>
    requires Exists(s, ch)
  {
    match ch
    case In => s.inq
    case Err(i) => s.lanes[i].err
    case Out => s.out
  }

  /** The channel a step sends on, if any. */
  function SendsOn(l: Label): Option<Channel> {
    match l
    case Consumer(cs) => if cs.ConsumerSend? || cs.ConsumerHand? then Some(In) else None
    case Flush(i, fs) => if fs.SendErrors? || fs.HandErrors? then Some(Err(i)) else None
    case Merge(i, ms) => if ms.ForwardSend? || ms.ForwardHand? then Some(Out) else None
    case _ => None
  }

  /** The channel a step closes, if any. */
  function Closes(c: Setup, s: State, l: Label): Option<Channel>
    requires Enabled(c, s, l)
  {
    match l
    case Consumer(cs) =>
      if cs.ConsumerFail? || (cs.ConsumerCheck? && s.cancelled) then Some(In) else None
    case Loop(i, ls) => if ls.TickFail? && Republishes(c) then Some(Err(i)) else None
    case Flush(i, fs) =>
      if fs.GetBulk? && s.lanes[i].pc.k.ThenReturn? && Republishes(c) then Some(Err(i)) else None
    case CloseOut => Some(Out)
    case _ => None
  }

  /** A send or a close on a closed channel would panic: neither is ever taken. */
  lemma NoPanicOnClosed(c: Setup, s: State, l: Label)
    requires Reachable(c, s) && Enabled(c, s, l)
    ensures SendsOn(l).Some? ==> Exists(s, SendsOn(l).value) && !IsClosed(s, SendsOn(l).value)
    ensures Closes(c, s, l).Some? ==> Exists(s, Closes(c, s, l).value) && !IsClosed(s, Closes(c, s, l).value)
  {
    ReachableDisciplined(c, s);
    match l {
      case Loop(i, _) => assert LaneOk(c, s.lanes[i], Drained(s));
      case Flush(i, _) => assert LaneOk(c, s.lanes[i], Drained(s));
      case Merge(i, ms) => assert s.closerDone ==> AllForwarded(s);
      case _ =>
    }
  }

  /** The channel a step receives from, if any; a Hand step also sends on it. */
  function ReceivesFrom(l: Label): Option<Channel> {
    match l
    case Consumer(cs) => if cs.ConsumerHand? then Some(In) else None
    case Loop(_, ls) => if ls.Receive? then Some(In) else None
    case Flush(i, fs) => if fs.HandErrors? then Some(Err(i)) else None
    case Merge(i, ms) => if ms.Forward? then Some(Err(i)) else if ms.ForwardHand? then Some(Out) else None
    case Producer(ps) => if ps.ProducerReceive? then Some(Out) else None
    case _ => None
  }

  /** The buffer a step sends. */
  function SentBuffer(c: Setup, s: State, l: Label): Option<BufId>
    requires Enabled(c, s, l)
  {
    match l
    case Consumer(cs) => if cs.ConsumerSend? || cs.ConsumerHand? then Some(s.cpc.msg) else None
    case Flush(i, fs) => if fs.SendErrors? || fs.HandErrors? then Some(s.lanes[i].pc.out) else None
    case Merge(i, ms) => if ms.ForwardSend? || ms.ForwardHand? then Some(s.lanes[i].fwd.msg) else None
    case _ => None
  }

  /** Receiver r holds message m. */
  predicate Got(s: State, l: Label, m: BufId) {
    match l
    case Consumer(ConsumerHand(i)) => At(s, i) && s.lanes[i].pc == ITime(m)
    case Loop(i, _) => At(s, i) && s.lanes[i].pc == ITime(m)
    case Flush(i, _) => At(s, i) && s.lanes[i].fwd == FHold(m)
    case Merge(i, Forward) => At(s, i) && s.lanes[i].fwd == FHold(m)
    case _ => s.ppc == PHold(m)
  }

  /** A channel, first in first out: a send adds the sender's buffer at the end; a receive takes
      the oldest one into the receiver's hand; a Hand step passes a buffer through an empty
      channel; every other step leaves the channel alone, and only the closes above close it. */
  lemma ChannelStep(c: Setup, s: State, l: Label, ch: Channel)
    requires Reachable(c, s) && Enabled(c, s, l) && Exists(s, ch)
    ensures var s', sends, receives := Next(c, s, l), SendsOn(l) == Some(ch), ReceivesFrom(l) == Some(ch);
            && Exists(s', ch)
            && (sends ==> SentBuffer(c, s, l).Some?)
            && (sends && !receives ==> Buffered(s', ch) == Buffered(s, ch) + [SentBuffer(c, s, l).value])
            && (receives && !sends ==>
                  Buffered(s, ch) == [Buffered(s, ch)[0]] + Buffered(s', ch) && Got(s', l, Buffered(s, ch)[0]))
            && (sends && receives ==>
                  Buffered(s, ch) == Buffered(s', ch) == [] && Got(s', l, SentBuffer(c, s, l).value))
            && (!sends && !receives ==> Buffered(s', ch) == Buffered(s, ch))
            && (IsClosed(s', ch) <==> IsClosed(s, ch) || Closes(c, s, l) == Some(ch))
  {
    ReachableDisciplined(c, s);
    var q := Buffered(s, ch);
    StepThrough(c, s, l, ch);
    if ReceivesFrom(l) == Some(ch) {
      ReceivesOldest(c, s, l, ch);
      if SendsOn(l) == Some(ch) {
        HandsThroughEmpty(c, s, l, ch);
      } else {
        assert q == [q[0]] + q[1..];
      }
    }
  }

  /** The content of a channel after a send and a receive, either of which may be absent. */
  function Through(q: seq<BufId>, sent: Option<BufId>, receives: bool): seq<BufId> {
    var more := if sent.Some? then q + [sent.value] else q;
    if receives && more != [] then more[1..] else more
  }

  function SentOn(c: Setup, s: State, l: Label, ch: Channel): Option<BufId>
    requires Enabled(c, s, l)
  {
    if SendsOn(l) == Some(ch) then SentBuffer(c, s, l) else None
  }

  predicate Passes(s: State, s': State, ch: Channel, sent: Option<BufId>, receives: bool, closes: bool) {
    && Exists(s, ch) && Exists(s', ch)
    && Buffered(s', ch) == Through(Buffered(s, ch), sent, receives)
    && (IsClosed(s', ch) <==> IsClosed(s, ch) || closes)
  }

  lemma StepThrough(c: Setup, s: State, l: Label, ch: Channel)
    requires Enabled(c, s, l) && Exists(s, ch)
    ensures Passes(s, Next(c, s, l), ch, SentOn(c, s, l, ch), ReceivesFrom(l) == Some(ch), Closes(c, s, l) == Some(ch))
    ensures SendsOn(l) == Some(ch) ==> SentBuffer(c, s, l).Some?
  {
    match l {
      case Consumer(cs) => ConsumerThrough(c, s, cs, ch);
      case Loop(i, ls) => LoopThrough(c, s, i, ls, ch);
      case Flush(i, fs) => FlushThrough(c, s, i, fs, ch);
      case Merge(i, ms) => MergeThrough(c, s, i, ms, ch);
      case Producer(ps) => ProducerThrough(c, s, ps, ch);
      case _ =>
    }
  }

  lemma ConsumerThrough(c: Setup, s: State, cs: ConsumerStep, ch: Channel)
    requires ConsumerCan(c, s, cs) && Exists(s, ch)
    ensures var l := Consumer(cs);
            Passes(s, ConsumerNext(c, s, cs), ch, SentOn(c, s, l, ch), ReceivesFrom(l) == Some(ch),
                   Closes(c, s, l) == Some(ch))
  {
  }

  lemma LoopThrough(c: Setup, s: State, i: nat, ls: LoopStep, ch: Channel)
    requires LoopCan(s, i, ls) && Exists(s, ch)
    ensures Passes(s, LoopNext(c, s, i, ls), ch, None, ls.Receive? && ch == In, Closes(c, s, Loop(i, ls)) == Some(ch))
  {
    match ls {
      case Receive => ReceiveThrough(s, i, ch);
      case TickFail => TickFailThrough(c, s, i, ch);
      case TickIdle =>
      case AppendMsg => AppendThrough(c, s, i, ch);
      case _ => GoToThrough(s, i, LoopNext(c, s, i, ls).lanes[i].pc, ch);
    }
  }

  lemma GoToThrough(s: State, i: nat, pc: IndexerPc, ch: Channel)
    requires At(s, i) && Exists(s, ch)
    ensures Passes(s, GoTo(s, i, pc), ch, None, false, false)
  {
    PcThrough(s, GoTo(s, i, pc), i, s.lanes[i].(pc := pc), ch);
  }

  lemma ReceiveThrough(s: State, i: nat, ch: Channel)
    requires At(s, i) && s.inq != [] && Exists(s, ch)
    ensures Passes(s, DoReceive(s, i), ch, None, ch == In, false)
  {
  }

  lemma TickFailThrough(c: Setup, s: State, i: nat, ch: Channel)
    requires At(s, i) && Exists(s, ch)
    ensures Passes(s, DoTickFail(c, s, i), ch, None, false, Republishes(c) && ch == Err(i))
  {
  }

  lemma AppendThrough(c: Setup, s: State, i: nat, ch: Channel)
    requires At(s, i) && s.lanes[i].pc.IAppend? && Exists(s, ch)
    ensures Passes(s, DoAppendMsg(c, s, i), ch, None, false, false)
  {
    PcThrough(s, DoAppendMsg(c, s, i), i, DoAppendMsg(c, s, i).lanes[i], ch);
  }

  lemma FlushThrough(c: Setup, s: State, i: nat, fs: FlushStep, ch: Channel)
    requires FlushCan(c, s, i, fs) && Exists(s, ch)
    ensures var l := Flush(i, fs);
            Passes(s, FlushNext(c, s, i, fs), ch, SentOn(c, s, l, ch), ReceivesFrom(l) == Some(ch),
                   Closes(c, s, l) == Some(ch))
  {
    match fs {
      case BulkCall(resp, get) => BulkCallThrough(c, s, i, resp, get, ch);
      case PutBulk => PutThrough(s, i, ch);
      case DropErrors => DropThrough(s, i, ch);
      case GetBulk(get) => GetThrough(c, s, i, get, ch);
      case SendErrors => SendThrough(s, i, ch);
      case HandErrors => HandThrough(s, i, ch);
    }
  }

  lemma PutThrough(s: State, i: nat, ch: Channel)
    requires At(s, i) && s.lanes[i].pc.IPut? && Exists(s, ch)
    ensures Passes(s, DoPutBulk(s, i), ch, None, false, false)
  {
    PcThrough(s, DoPutBulk(s, i), i, DoPutBulk(s, i).lanes[i], ch);
  }

  lemma DropThrough(s: State, i: nat, ch: Channel)
    requires At(s, i) && s.lanes[i].pc.ISend? && Exists(s, ch)
    ensures Passes(s, DoDropErrors(s, i), ch, None, false, false)
  {
    PcThrough(s, DoDropErrors(s, i), i, DoDropErrors(s, i).lanes[i], ch);
  }

  lemma HandThrough(s: State, i: nat, ch: Channel)
    requires At(s, i) && s.lanes[i].pc.ISend? && Exists(s, ch)
    ensures Passes(s, DoForward(DoSendErrors(s, i), i), ch,
                   if ch == Err(i) then Some(s.lanes[i].pc.out) else None, ch == Err(i), false)
  {
    SendThrough(s, i, ch);
    ForwardThrough(DoSendErrors(s, i), i, ch);
  }

  lemma BulkCallThrough(c: Setup, s: State, i: nat, resp: Response, get: BufId, ch: Channel)
    requires FlushCan(c, s, i, BulkCall(resp, get)) && Exists(s, ch)
    ensures Passes(s, DoBulkCall(s, i, resp, get), ch, None, false, false)
  {
    var s' := DoBulkCall(s, i, resp, get);
    BulkCallShape(s, i, resp, get);
    PcThrough(s, s', i, s'.lanes[i], ch);
  }

  lemma GetThrough(c: Setup, s: State, i: nat, get: BufId, ch: Channel)
    requires At(s, i) && s.lanes[i].pc.IGet? && Exists(s, ch)
    ensures Passes(s, DoGetBulk(c, s, i, get), ch, None, false,
                   s.lanes[i].pc.k.ThenReturn? && Republishes(c) && ch == Err(i))
  {
  }

  lemma SendThrough(s: State, i: nat, ch: Channel)
    requires At(s, i) && s.lanes[i].pc.ISend? && Exists(s, ch)
    ensures Passes(s, DoSendErrors(s, i), ch, if ch == Err(i) then Some(s.lanes[i].pc.out) else None, false, false)
  {
  }

  lemma ForwardThrough(s: State, i: nat, ch: Channel)
    requires At(s, i) && s.lanes[i].err != [] && Exists(s, ch)
    ensures Passes(s, DoForward(s, i), ch, None, ch == Err(i), false)
  {
  }

  /** A step that moves one indexer and leaves the channels alone. */
  lemma PcThrough(s: State, s': State, i: nat, l': Lane, ch: Channel)
    requires At(s, i) && Exists(s, ch) && s'.lanes == s.lanes[i := l']
    requires l'.err == s.lanes[i].err && l'.errClosed == s.lanes[i].errClosed
    requires s'.inq == s.inq && s'.inClosed == s.inClosed && s'.out == s.out && s'.outClosed == s.outClosed
    ensures Passes(s, s', ch, None, false, false)
  {
  }

  lemma MergeThrough(c: Setup, s: State, i: nat, ms: ForwarderStep, ch: Channel)
    requires MergeCan(c, s, i, ms) && Exists(s, ch)
    ensures var l := Merge(i, ms);
            Passes(s, MergeNext(c, s, i, ms), ch, SentOn(c, s, l, ch), ReceivesFrom(l) == Some(ch), false)
  {
    match ms {
      case Forward => ForwardThrough(s, i, ch);
      case _ =>
    }
  }

  lemma ProducerThrough(c: Setup, s: State, ps: ProducerStep, ch: Channel)
    requires ProducerCan(s, ps) && Exists(s, ch)
    ensures Passes(s, ProducerNext(s, ps), ch, None, ps.ProducerReceive? && ch == Out, false)
  {
    match ps {
      case Produce(result) =>
        if !result.QueueFull? {
          SettleThrough(s, s.ppc.msg, result.Produced?, ch);
        }
      case Retry(ok) => SettleThrough(s, s.ppc.msg, ok, ch);
      case _ =>
    }
  }

  lemma SettleThrough(s: State, m: BufId, ok: bool, ch: Channel)
    requires Exists(s, ch)
    ensures Passes(s, Settle(s, m, ok), ch, None, false, false)
  {
  }

  /** What is received is the oldest buffer. */
  lemma ReceivesOldest(c: Setup, s: State, l: Label, ch: Channel)
    requires Enabled(c, s, l) && Exists(s, ch) && ReceivesFrom(l) == Some(ch)
    ensures var sent := SentOn(c, s, l, ch);
            var q := if sent.Some? then Buffered(s, ch) + [sent.value] else Buffered(s, ch);
            q != [] && Got(Next(c, s, l), l, q[0])
  {
    match l {
      case Consumer(_) =>
      case Loop(_, _) =>
      case Flush(i, _) => assert DoForward(DoSendErrors(s, i), i).lanes[i].fwd == Next(c, s, l).lanes[i].fwd;
      case Merge(_, _) =>
      case Producer(_) =>
    }
  }

  lemma HandsThroughEmpty(c: Setup, s: State, l: Label, ch: Channel)
    requires Disciplined(c, s) && Enabled(c, s, l) && Exists(s, ch)
    requires SendsOn(l) == ReceivesFrom(l) == Some(ch)
    ensures Buffered(s, ch) == []
  {
    if l.Flush? {
      assert LaneOk(c, s.lanes[l.i], Drained(s));
    }
  }

  // --------------------------------------------------------------- fan-in

  /** out is some interleaving of the lists ins, each kept in order. */
  ghost predicate Interleaves<T>(out: seq<T>, ins: seq<seq<T>>)
    decreases |out|
  {
    if out == [] then forall i :: 0 <= i < |ins| ==> ins[i] == []
    else exists i :: 0 <= i < |ins| && EndsWith(ins[i], out[|out| - 1]) &&
                     Interleaves(out[..|out| - 1], ins[i := ins[i][..|ins[i]| - 1]])
  }

  ghost predicate EndsWith<T>(q: seq<T>, m: T) {
    q != [] && q[|q| - 1] == m
  }

  function Projections<T>(log: seq<(nat, T)>, n: nat): (r: seq<seq<T>>)
    ensures |r| == n && forall i :: 0 <= i < n ==> r[i] == Project(log, i)
  {
    seq(n, i requires 0 <= i < n => Project(log, i))
  }

  lemma {:induction false} TaggedInterleaves<T>(log: seq<(nat, T)>, n: nat)
    requires forall e :: e in log ==> e.0 < n
    ensures Interleaves(Values(log), Projections(log, n))
  {
    if log != [] {
      var front := log[..|log| - 1];
      var (i, m) := log[|log| - 1];
      TaggedInterleaves(front, n);
      ProjectSnoc(front, i, m, i);
      assert log == front + [(i, m)];
      var ins := Projections(log, n);
      var q := Project(front, i);
      assert ins[i] == q + [m] && EndsWith(ins[i], m) && ins[i][..|ins[i]| - 1] == q;
      forall j | 0 <= j < n ensures ins[i := q][j] == Project(front, j) {
        ProjectSnoc(front, i, m, j);
      }
      assert ins[i := q] == Projections(front, n);
      assert Values(log)[..|Values(log)| - 1] == Values(front);
      assert Interleaves(Values(log)[..|Values(log)| - 1], ins[i := ins[i][..|ins[i]| - 1]]);
    }
  }

  /** Fan-in: everything ever sent on out (taken by the producer or still buffered) interleaves
      prefixes of what was sent on the error channels, and the rest of each history is exactly
      what its forwarder holds and its channel still buffers. */
  lemma FanInCorrect(c: Setup, s: State)
    requires Reachable(c, s)
    ensures var prefixes := Projections(s.outLog, |s.lanes|);
            && Interleaves(s.taken + s.out, prefixes)
            && forall i :: 0 <= i < |s.lanes| ==>
                 s.lanes[i].sent == prefixes[i] + InForwarder(s.lanes[i].fwd) + s.lanes[i].err
  {
    ReachableDisciplined(c, s);
    TaggedInterleaves(s.outLog, |s.lanes|);
    forall i | 0 <= i < |s.lanes|
      ensures s.lanes[i].sent == Projections(s.outLog, |s.lanes|)[i] + InForwarder(s.lanes[i].fwd) + s.lanes[i].err
    {
      assert LaneLog(s, i);
    }
  }

  /** The error channel of lane i is closed, and all that was sent on it has been sent on out. */
  predicate LaneForwarded(s: State, i: nat)
    requires At(s, i)
  {
    var l := s.lanes[i];
    l.errClosed && l.err == [] && l.fwd.FDone? && l.sent == Project(s.outLog, i)
  }

  /** out is closed only after every error channel is closed and every value sent on them has
      been sent on out. */
  lemma OutClosedLast(c: Setup, s: State)
    requires Reachable(c, s) && s.outClosed
    ensures forall i :: 0 <= i < |s.lanes| ==> LaneForwarded(s, i)
  {
    ReachableDisciplined(c, s);
    forall i | 0 <= i < |s.lanes|
      ensures LaneForwarded(s, i)
    {
      assert LaneOk(c, s.lanes[i], Drained(s)) && LaneLog(s, i);
    }
  }

  /** When the producer's loop has ended, every indexer has ended: by its final flush on the
      drained consumer channel, or by an error; and the producer has taken every error buffer. */
  lemma ProducerEndsLast(c: Setup, s: State)
    requires Reachable(c, s) && Republishes(c) && s.ppc.PDone?
    ensures s.outClosed && s.out == [] && Interleaves(s.taken, Projections(s.outLog, |s.lanes|))
    ensures forall i :: 0 <= i < |s.lanes| ==>
              && (s.lanes[i].pc.IFailed? || (s.lanes[i].pc.IDone? && s.inClosed && s.inq == []))
              && s.lanes[i].err == [] && s.lanes[i].sent == Project(s.outLog, i)
  {
    ReachableDisciplined(c, s);
    OutClosedLast(c, s);
    FanInCorrect(c, s);
    assert s.taken + [] == s.taken;
    forall i | 0 <= i < |s.lanes|
      ensures s.lanes[i].pc.IFailed? || (s.lanes[i].pc.IDone? && s.inClosed && s.inq == [])
    {
      assert LaneOk(c, s.lanes[i], Drained(s));
    }
  }

  // --------------------------------------------------------- backpressure

  function LanesBacklog(ls: seq<Lane>): nat {
    if ls == [] then 0 else LaneBacklog(ls[0]) + LanesBacklog(ls[1..])
  }

  /** Messages consumed that no bulk call has taken yet. */
  function Backlog(s: State): nat {
    (if s.cpc.CSending? then 1 else 0) + |s.inq| + LanesBacklog(s.lanes)
  }

  /** Error buffers of one lane that have not reached out. */
  function LaneErrors(l: Lane): nat {
    (if l.pc.ISend? || (l.pc.IPut? && l.pc.failed.Some?) then 1 else 0) + |l.err| + |InForwarder(l.fwd)|
  }

  function LanesErrors(ls: seq<Lane>): nat {
    if ls == [] then 0 else LaneErrors(ls[0]) + LanesErrors(ls[1..])
  }

  /** Error buffers that have not been produced. */
  function Errors(s: State): nat {
    LanesErrors(s.lanes) + |s.out| + if s.ppc.PHold? || s.ppc.PRetry? then 1 else 0
  }

  lemma {:induction false} LanesBacklogBound(ls: seq<Lane>, b: nat)
    requires forall i :: 0 <= i < |ls| ==> LaneBacklog(ls[i]) <= b
    ensures LanesBacklog(ls) <= |ls| * b
  {
    if ls != [] {
      LanesBacklogBound(ls[1..], b);
      assert |ls| * b == b + (|ls| - 1) * b;
    }
  }

  lemma {:induction false} LanesErrorsBound(ls: seq<Lane>, cap: nat)
    requires forall i :: 0 <= i < |ls| ==> |ls[i].err| <= cap
    ensures LanesErrors(ls) <= |ls| * (cap + 2)
  {
    if ls != [] {
      LanesErrorsBound(ls[1..], cap);
      assert |ls| * (cap + 2) == (cap + 2) + (|ls| - 1) * (cap + 2);
    }
  }

  /** Backpressure: the consumer never runs ahead of the bulk calls by more than one message in
      its hand, a full channel, and a full buffer per indexer. */
  lemma BacklogBounded(c: Setup, s: State)
    requires Reachable(c, s) && c.limits.msgLimit >= 1
    ensures Backlog(s) <= 1 + c.inCap + c.n * c.limits.msgLimit
  {
    ReachableDisciplined(c, s);
    forall i | 0 <= i < |s.lanes| ensures LaneBacklog(s.lanes[i]) <= c.limits.msgLimit {
      assert LaneOk(c, s.lanes[i], Drained(s));
    }
    LanesBacklogBound(s.lanes, c.limits.msgLimit);
  }

  /** And the indexers never run ahead of the producer by more than full channels and one buffer
      in each hand. */
  lemma ErrorsBounded(c: Setup, s: State)
    requires Reachable(c, s)
    ensures Errors(s) <= c.n * (c.errCap + 2) + c.outCap + 1
  {
    ReachableDisciplined(c, s);
    forall i | 0 <= i < |s.lanes| ensures |s.lanes[i].err| <= c.errCap {
      assert LaneOk(c, s.lanes[i], Drained(s));
    }
    LanesErrorsBound(s.lanes, c.errCap);
  }
}
