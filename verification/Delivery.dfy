/** From the indexers to the producer: what it takes, buffer by buffer, over every interleaving. */
module Delivery {
  import opened Documents
  import opened Pipeline
  import opened Ownership
  import opened Exclusive
  import opened BulkSizes
  import opened Rejections
  import opened Streams
  import opened Verdicts
  import opened Discipline
  import opened Channels
  import Shutdown
  import Batching

  function Loads(mem: seq<seq<WfDoc>>, q: seq<BufId>): (r: seq<seq<WfDoc>>)
    ensures |r| == |q| && forall j :: 0 <= j < |q| ==> r[j] == Load(mem, q[j])
  {
    seq(|q|, j requires 0 <= j < |q| => Load(mem, q[j]))
  }

  /** What lies between indexer i and out: in the forwarder's hand, then in the error channel. */
  function InTransit(s: State, i: nat): seq<BufId>
    requires At(s, i)
  {
    InForwarder(s.lanes[i].fwd) + s.lanes[i].err
  }

  // Flows of one step: buffers sent on out, tagged with their lane; taken by the producer; and
  // sent on the error channel of lane i.

  function Forwards(c: Setup, s: State, l: Label): seq<(nat, seq<WfDoc>)>
    requires Enabled(c, s, l)
  {
    match l
    case Merge(i, ForwardSend) => [(i, Load(s.mem, s.lanes[i].fwd.msg))]
    case Merge(i, ForwardHand) => [(i, Load(s.mem, s.lanes[i].fwd.msg))]
    case _ => []
  }

  function Takes(c: Setup, s: State, l: Label): seq<seq<WfDoc>>
    requires Enabled(c, s, l)
  {
    match l
    case Merge(i, ForwardHand) => [Load(s.mem, DoForwardSend(s, i).out[0])]
    case Producer(ProducerReceive) => [Load(s.mem, s.out[0])]
    case _ => []
  }

  function PostedBuffer(c: Setup, s: State, l: Label, i: nat): seq<seq<WfDoc>>
    requires Enabled(c, s, l) && At(s, i)
  {
    if l == Flush(i, SendErrors) || l == Flush(i, HandErrors) then [Load(s.mem, s.lanes[i].pc.out)] else []
  }

  // And of a whole run, in order.

  ghost function ForwardLog(c: Setup, s: State, trace: seq<Label>): seq<(nat, seq<WfDoc>)>
    decreases |trace|
  {
    if trace == [] || !Enabled(c, s, trace[0]) then []
    else Forwards(c, s, trace[0]) + ForwardLog(c, Next(c, s, trace[0]), trace[1..])
  }

  ghost function TakenBuffers(c: Setup, s: State, trace: seq<Label>): seq<seq<WfDoc>>
    decreases |trace|
  {
    if trace == [] || !Enabled(c, s, trace[0]) then []
    else Takes(c, s, trace[0]) + TakenBuffers(c, Next(c, s, trace[0]), trace[1..])
  }

  ghost function PostedBuffers(c: Setup, s: State, trace: seq<Label>, i: nat): seq<seq<WfDoc>>
    decreases |trace|
  {
    if trace == [] || !Enabled(c, s, trace[0]) || !At(s, i) then []
    else PostedBuffer(c, s, trace[0], i) + PostedBuffers(c, Next(c, s, trace[0]), trace[1..], i)
  }

  // ---------------------------------------------------------------- one step

  lemma OneKeptInTransit(c: Setup, s: State, l: Label, p: Place, id: BufId)
    requires Enabled(c, s, l) && SingleOwner(s) && (p.OutSlot? || p.ErrSlot? || p.ForwarderHand?)
    requires HeldAt(s, p, id) > 0
    ensures Load(Next(c, s, l).mem, id) == Load(s.mem, id)
  {
    ElsewhereKept(c, s, l, p, id);
  }

  lemma SameLoads(mem: seq<seq<WfDoc>>, mem': seq<seq<WfDoc>>, q: seq<BufId>)
    requires forall id :: id in q ==> Load(mem', id) == Load(mem, id)
    ensures Loads(mem', q) == Loads(mem, q)
  {
  }

  /** No step changes what lies in a channel behind the indexers. */
  lemma KeptInTransit(c: Setup, s: State, l: Label, p: Place, q: seq<BufId>)
    requires Enabled(c, s, l) && SingleOwner(s) && (p.OutSlot? || p.ErrSlot? || p.ForwarderHand?)
    requires forall id :: id in q ==> HeldAt(s, p, id) > 0
    ensures Loads(Next(c, s, l).mem, q) == Loads(s.mem, q)
  {
    var mem' := Next(c, s, l).mem;
    forall id | id in q ensures Load(mem', id) == Load(s.mem, id) {
      OneKeptInTransit(c, s, l, p, id);
    }
    SameLoads(s.mem, mem', q);
  }

  lemma LoadsAppend(mem: seq<seq<WfDoc>>, a: seq<BufId>, b: seq<BufId>)
    ensures Loads(mem, a + b) == Loads(mem, a) + Loads(mem, b)
  {
  }

  lemma HeadLoads(mem: seq<seq<WfDoc>>, q: seq<BufId>)
    requires q != []
    ensures [Load(mem, q[0])] + Loads(mem, q[1..]) == Loads(mem, q)
  {
  }

  lemma SendLoads(mem: seq<seq<WfDoc>>, q: seq<BufId>, i: nat, m: BufId)
    ensures Loads(mem, q + [m]) == Loads(mem, q) + Values([(i, Load(mem, m))])
    ensures Project([(i, Load(mem, m))], i) == [Load(mem, m)]
    ensures forall j :: j != i ==> Project([(i, Load(mem, m))], j) == []
  {
    var log := [(i, Load(mem, m))];
    assert log[..0] == [];
  }

  /** The effect of a step on out. */
  predicate OutMoves(s: State, out': seq<BufId>, takes: seq<seq<WfDoc>>, forwards: seq<(nat, seq<WfDoc>)>) {
    takes + Loads(s.mem, out') == Loads(s.mem, s.out) + Values(forwards)
  }

  lemma QuietMovesOut(s: State)
    ensures OutMoves(s, s.out, [], [])
  {
  }

  lemma ForwardMovesOut(s: State, i: nat)
    requires At(s, i) && s.lanes[i].fwd.FHold?
    ensures var m, q := s.lanes[i].fwd.msg, DoForwardSend(s, i).out;
            && q != [] && OutMoves(s, q, [], [(i, Load(s.mem, m))])
            && OutMoves(s, q[1..], [Load(s.mem, q[0])], [(i, Load(s.mem, m))])
  {
    var m := s.lanes[i].fwd.msg;
    SendLoads(s.mem, s.out, i, m);
    HeadLoads(s.mem, s.out + [m]);
  }

  lemma ProducerMovesOut(c: Setup, s: State, ps: ProducerStep)
    requires ProducerCan(s, ps)
    ensures OutMoves(s, ProducerNext(s, ps).out, Takes(c, s, Producer(ps)), [])
  {
    if ps.ProducerReceive? {
      HeadLoads(s.mem, s.out);
    } else {
      ProducerLeavesOut(s, ps);
      QuietMovesOut(s);
    }
  }

  lemma ProducerLeavesOut(s: State, ps: ProducerStep)
    requires ProducerCan(s, ps) && !ps.ProducerReceive?
    ensures ProducerNext(s, ps).out == s.out
  {
  }

  lemma OthersLeaveOut(c: Setup, s: State, l: Label)
    requires Enabled(c, s, l) && !l.Merge? && !l.Producer?
    ensures Next(c, s, l).out == s.out
  {
    match l {
      case Consumer(cs) => ConsumerLeavesOut(c, s, cs);
      case Loop(i, ls) => LoopLeavesOut(c, s, i, ls);
      case Flush(i, fs) => FlushLeavesOut(c, s, i, fs);
      case _ =>
    }
  }

  lemma ConsumerLeavesOut(c: Setup, s: State, cs: ConsumerStep)
    requires ConsumerCan(c, s, cs)
    ensures ConsumerNext(c, s, cs).out == s.out
  {
  }

  lemma LoopLeavesOut(c: Setup, s: State, i: nat, ls: LoopStep)
    requires LoopCan(s, i, ls)
    ensures LoopNext(c, s, i, ls).out == s.out
  {
  }

  lemma FlushLeavesOut(c: Setup, s: State, i: nat, fs: FlushStep)
    requires FlushCan(c, s, i, fs)
    ensures FlushNext(c, s, i, fs).out == s.out
  {
    if fs.BulkCall? {
      BulkCallShape(s, i, fs.resp, fs.get);
    }
  }

  lemma MergeMovesOut(c: Setup, s: State, i: nat, ms: ForwarderStep)
    requires MergeCan(c, s, i, ms)
    ensures MergeNext(c, s, i, ms).mem == s.mem
    ensures OutMoves(s, MergeNext(c, s, i, ms).out, Takes(c, s, Merge(i, ms)), Forwards(c, s, Merge(i, ms)))
  {
    if ms.ForwardSend? || ms.ForwardHand? {
      ForwardMovesOut(s, i);
    } else {
      QuietMovesOut(s);
    }
  }

  lemma StepMovesOut(c: Setup, s: State, l: Label)
    requires Enabled(c, s, l) && SingleOwner(s)
    ensures var s' := Next(c, s, l);
            Takes(c, s, l) + Loads(s'.mem, s'.out) == Loads(s.mem, s.out) + Values(Forwards(c, s, l))
  {
    match l {
      case Merge(i, ms) => MergeMovesOut(c, s, i, ms);
      case Producer(ps) =>
        ProducerMovesOut(c, s, ps);
        OutKept(c, s, l);
      case _ =>
        OthersLeaveOut(c, s, l);
        QuietMovesOut(s);
        OutKept(c, s, l);
    }
  }

  lemma OutKept(c: Setup, s: State, l: Label)
    requires Enabled(c, s, l) && SingleOwner(s) && !l.Merge?
    ensures Loads(Next(c, s, l).mem, Next(c, s, l).out) == Loads(s.mem, Next(c, s, l).out)
  {
    OutShrinks(c, s, l);
    KeptInTransit(c, s, l, OutSlot, Next(c, s, l).out);
  }

  lemma OutShrinks(c: Setup, s: State, l: Label)
    requires Enabled(c, s, l) && !l.Merge?
    ensures forall id :: id in Next(c, s, l).out ==> id in s.out
  {
    if l.Producer? {
      if !l.ps.ProducerReceive? {
        ProducerLeavesOut(s, l.ps);
      }
    } else {
      OthersLeaveOut(c, s, l);
    }
  }

  /** A step of lane i, or of another, on what lies between indexer i and out. */
  ghost predicate LaneMoves(c: Setup, s: State, l: Label, i: nat)
    requires Enabled(c, s, l) && At(s, i)
  {
    var s' := Next(c, s, l);
    && At(s', i)
    && Project(Forwards(c, s, l), i) + Loads(s.mem, InTransit(s', i)) ==
       Loads(s.mem, InTransit(s, i)) + PostedBuffer(c, s, l, i)
  }

  lemma SendMovesLane(s: State, i: nat)
    requires At(s, i) && s.lanes[i].pc.ISend?
    ensures InTransit(DoSendErrors(s, i), i) == InTransit(s, i) + [s.lanes[i].pc.out]
  {
  }

  lemma ForwardMovesLane(s: State, i: nat)
    requires At(s, i) && s.lanes[i].err != [] && s.lanes[i].fwd.FRange?
    ensures InTransit(DoForward(s, i), i) == InTransit(s, i)
  {
  }

  lemma ForwardedLane(s: State, s': State, i: nat, j: nat)
    requires At(s, i) && At(s, j) && s.lanes[i].fwd.FHold? && s'.lanes == DoForwardSend(s, i).lanes
    ensures At(s', j)
    ensures Project([(i, Load(s.mem, s.lanes[i].fwd.msg))], j) + Loads(s.mem, InTransit(s', j)) ==
            Loads(s.mem, InTransit(s, j))
  {
    var m := s.lanes[i].fwd.msg;
    SendLoads(s.mem, [], i, m);
    if i == j {
      assert InTransit(s, i) == [m] + s.lanes[i].err;
      HeadLoads(s.mem, [m] + s.lanes[i].err);
      assert InTransit(s', i) == s.lanes[i].err;
    } else {
      assert InTransit(s', j) == InTransit(s, j);
    }
  }

  lemma QuietMovesLane(c: Setup, s: State, l: Label, i: nat)
    requires Enabled(c, s, l) && At(s, i) && At(Next(c, s, l), i) && InTransit(Next(c, s, l), i) == InTransit(s, i)
    requires Forwards(c, s, l) == [] && PostedBuffer(c, s, l, i) == []
    ensures LaneMoves(c, s, l, i)
  {
    var q := Loads(s.mem, InTransit(s, i));
    assert [] + q == q + [];
  }

  lemma MergeMovesLane(c: Setup, s: State, i: nat, ms: ForwarderStep, j: nat)
    requires MergeCan(c, s, i, ms) && At(s, j)
    ensures LaneMoves(c, s, Merge(i, ms), j)
  {
    if ms.Forward? || ms.ForwardEnd? {
      if ms.Forward? {
        ForwardMovesLane(s, i);
      }
      assert InTransit(Next(c, s, Merge(i, ms)), j) == InTransit(s, j);
      QuietMovesLane(c, s, Merge(i, ms), j);
    } else {
      ForwardedLane(s, MergeNext(c, s, i, ms), i, j);
    }
  }

  lemma PostMovesLane(c: Setup, s: State, i: nat, fs: FlushStep)
    requires FlushCan(c, s, i, fs) && (fs.SendErrors? || fs.HandErrors?)
    ensures LaneMoves(c, s, Flush(i, fs), i)
  {
    SendMovesLane(s, i);
    if fs.HandErrors? {
      ForwardMovesLane(DoSendErrors(s, i), i);
    }
    LoadsAppend(s.mem, InTransit(s, i), [s.lanes[i].pc.out]);
  }

  /** The error channel of lane i and its forwarder are as before. */
  predicate SameErrors(s: State, s': State, i: nat) {
    At(s, i) && At(s', i) && s'.lanes[i].err == s.lanes[i].err && s'.lanes[i].fwd == s.lanes[i].fwd
  }

  lemma ConsumerSameErrors(c: Setup, s: State, cs: ConsumerStep, i: nat)
    requires ConsumerCan(c, s, cs) && At(s, i)
    ensures SameErrors(s, ConsumerNext(c, s, cs), i)
  {
  }

  lemma LoopSameErrors(c: Setup, s: State, j: nat, ls: LoopStep, i: nat)
    requires LoopCan(s, j, ls) && At(s, i)
    ensures SameErrors(s, LoopNext(c, s, j, ls), i)
  {
  }

  lemma FlushSameErrors(c: Setup, s: State, j: nat, fs: FlushStep, i: nat)
    requires FlushCan(c, s, j, fs) && At(s, i)
    requires i == j ==> !fs.SendErrors? && !fs.HandErrors?
    ensures SameErrors(s, FlushNext(c, s, j, fs), i)
  {
    if fs.BulkCall? {
      BulkCallShape(s, j, fs.resp, fs.get);
    }
  }

  lemma ProducerSameErrors(s: State, ps: ProducerStep, i: nat)
    requires ProducerCan(s, ps) && At(s, i)
    ensures SameErrors(s, ProducerNext(s, ps), i)
  {
  }

  lemma SameMovesLane(c: Setup, s: State, l: Label, i: nat)
    requires Enabled(c, s, l) && SameErrors(s, Next(c, s, l), i) && !l.Merge?
    requires l != Flush(i, SendErrors) && l != Flush(i, HandErrors)
    ensures LaneMoves(c, s, l, i)
  {
    QuietMovesLane(c, s, l, i);
  }

  lemma StepMovesLane(c: Setup, s: State, l: Label, i: nat)
    requires Enabled(c, s, l) && At(s, i)
    ensures LaneMoves(c, s, l, i)
  {
    match l {
      case Consumer(cs) => ConsumerSameErrors(c, s, cs, i);
      case Loop(j, ls) => LoopSameErrors(c, s, j, ls, i);
      case Flush(j, fs) =>
        if i == j && (fs.SendErrors? || fs.HandErrors?) {
          PostMovesLane(c, s, i, fs);
        } else {
          FlushSameErrors(c, s, j, fs, i);
        }
      case Merge(j, ms) => MergeMovesLane(c, s, j, ms, i);
      case Producer(ps) => ProducerSameErrors(s, ps, i);
      case _ =>
    }
    if !l.Merge? && l != Flush(i, SendErrors) && l != Flush(i, HandErrors) {
      SameMovesLane(c, s, l, i);
    }
  }

  /** What lies behind the indexer of lane i afterwards has not changed in the step. */
  lemma LaneKeptInTransit(c: Setup, s: State, l: Label, i: nat)
    requires Enabled(c, s, l) && SingleOwner(s) && At(s, i) && At(Next(c, s, l), i)
    ensures Loads(Next(c, s, l).mem, InTransit(Next(c, s, l), i)) == Loads(s.mem, InTransit(Next(c, s, l), i))
  {
    if l == Flush(i, SendErrors) || l == Flush(i, HandErrors) || l.Merge? {
      assert Next(c, s, l).mem == s.mem;
    } else {
      StepSameErrors(c, s, l, i);
      InTransitKept(c, s, l, i);
    }
  }

  lemma InTransitKept(c: Setup, s: State, l: Label, i: nat)
    requires Enabled(c, s, l) && SingleOwner(s) && At(s, i)
    ensures Loads(Next(c, s, l).mem, InTransit(s, i)) == Loads(s.mem, InTransit(s, i))
  {
    var held, err, mem' := InForwarder(s.lanes[i].fwd), s.lanes[i].err, Next(c, s, l).mem;
    KeptInTransit(c, s, l, ForwarderHand(i), held);
    KeptInTransit(c, s, l, ErrSlot(i), err);
    LoadsAppend(s.mem, held, err);
    LoadsAppend(mem', held, err);
  }

  lemma StepSameErrors(c: Setup, s: State, l: Label, i: nat)
    requires Enabled(c, s, l) && At(s, i)
    requires !l.Merge? && l != Flush(i, SendErrors) && l != Flush(i, HandErrors)
    ensures SameErrors(s, Next(c, s, l), i)
  {
    match l {
      case Consumer(cs) => ConsumerSameErrors(c, s, cs, i);
      case Loop(j, ls) => LoopSameErrors(c, s, j, ls, i);
      case Flush(j, fs) => FlushSameErrors(c, s, j, fs, i);
      case Producer(ps) => ProducerSameErrors(s, ps, i);
      case _ =>
    }
  }

  // --------------------------------------------------------------- whole runs

  lemma {:induction false} ValuesAppend<T>(a: seq<(nat, T)>, b: seq<(nat, T)>, i: nat)
    ensures Values(a + b) == Values(a) + Values(b) && Project(a + b, i) == Project(a, i) + Project(b, i)
    decreases |b|
  {
    if b == [] {
      assert a + b == a;
    } else {
      var front, last := b[..|b| - 1], b[|b| - 1];
      var (j, m) := last;
      assert b == front + [(j, m)] && a + b == a + front + [(j, m)];
      ValuesAppend(a, front, i);
      ProjectSnoc(front, j, m, i);
      ProjectSnoc(a + front, j, m, i);
      Assoc(Values(a), Values(front), [m]);
      Assoc(Project(a, i), Project(front, i), if j == i then [m] else []);
    }
  }

  lemma {:induction false} TraceMovesOut(c: Setup, a: State, trace: seq<Label>, b: State)
    requires Trace(c, a, trace, b) && SingleOwner(a)
    ensures TakenBuffers(c, a, trace) + Loads(b.mem, b.out) == Loads(a.mem, a.out) + Values(ForwardLog(c, a, trace))
    decreases |trace|
  {
    if trace == [] {
      assert [] + Loads(b.mem, b.out) == Loads(a.mem, a.out) + [];
    } else {
      var l, rest := trace[0], trace[1..];
      var s := Next(c, a, l);
      StepKeepsSingleOwner(c, a, l);
      StepMovesOut(c, a, l);
      TraceMovesOut(c, s, rest, b);
      ValuesAppend(Forwards(c, a, l), ForwardLog(c, s, rest), 0);
      Telescope(Takes(c, a, l), TakenBuffers(c, s, rest), Loads(b.mem, b.out),
                Loads(s.mem, s.out), Values(ForwardLog(c, s, rest)), Loads(a.mem, a.out), Values(Forwards(c, a, l)));
    }
  }

  lemma {:induction false} TraceMovesLane(c: Setup, a: State, trace: seq<Label>, b: State, i: nat)
    requires Trace(c, a, trace, b) && SingleOwner(a) && At(a, i)
    ensures At(b, i)
    ensures Project(ForwardLog(c, a, trace), i) + Loads(b.mem, InTransit(b, i)) ==
            Loads(a.mem, InTransit(a, i)) + PostedBuffers(c, a, trace, i)
    decreases |trace|
  {
    if trace == [] {
      assert [] + Loads(a.mem, InTransit(a, i)) == Loads(a.mem, InTransit(a, i)) + [];
    } else {
      var l, rest := trace[0], trace[1..];
      var s := Next(c, a, l);
      StepKeepsSingleOwner(c, a, l);
      StepMovesLane(c, a, l, i);
      LaneKeptInTransit(c, a, l, i);
      TraceMovesLane(c, s, rest, b, i);
      ValuesAppend(Forwards(c, a, l), ForwardLog(c, s, rest), i);
      Telescope(Project(Forwards(c, a, l), i), Project(ForwardLog(c, s, rest), i), Loads(b.mem, InTransit(b, i)),
                Loads(s.mem, InTransit(s, i)), PostedBuffers(c, s, rest, i), Loads(a.mem, InTransit(a, i)),
                PostedBuffer(c, a, l, i));
    }
  }

  /** The posted buffers are the posted documents. */
  lemma {:induction false} PostedDocuments(c: Setup, a: State, trace: seq<Label>, b: State, i: nat)
    requires Trace(c, a, trace, b) && At(a, i)
    ensures Batching.Flatten(PostedBuffers(c, a, trace, i)) == Total(Posted, c, a, trace, i)
    decreases |trace|
  {
    if trace != [] {
      var l, rest := trace[0], trace[1..];
      LaneStays(c, a, l, i);
      PostedDocuments(c, Next(c, a, l), rest, b, i);
      PostedOnce(c, a, l, i);
      Batching.FlattenAppend(PostedBuffer(c, a, l, i), PostedBuffers(c, Next(c, a, l), rest, i));
    }
  }

  lemma FlattenOne<T>(x: seq<T>)
    ensures Batching.Flatten([x]) == x
  {
    Batching.FlattenSnoc([], x);
    assert [] + [x] == [x];
    assert Batching.Flatten<T>([]) + x == x;
  }

  lemma PostedOnce(c: Setup, s: State, l: Label, i: nat)
    requires Enabled(c, s, l) && At(s, i)
    ensures Batching.Flatten(PostedBuffer(c, s, l, i)) == PostedBy(c, s, l, i)
  {
    if PostedBuffer(c, s, l, i) != [] {
      FlattenOne(PostedBy(c, s, l, i));
    }
  }

  lemma {:induction false} LogTags(c: Setup, a: State, trace: seq<Label>, b: State)
    requires Trace(c, a, trace, b)
    ensures forall e :: e in ForwardLog(c, a, trace) ==> e.0 < |a.lanes|
    decreases |trace|
  {
    if trace != [] {
      Shutdown.StepLasting(c, a, trace[0]);
      LogTags(c, Next(c, a, trace[0]), trace[1..], b);
    }
  }

  /** A run from a state with empty channels to one. */
  lemma Drains(c: Setup, a: State, trace: seq<Label>, b: State, i: nat)
    requires Trace(c, a, trace, b) && SingleOwner(a) && a.out == [] && b.out == []
    requires At(a, i) && InTransit(a, i) == [] && At(b, i) && InTransit(b, i) == []
    ensures TakenBuffers(c, a, trace) == Values(ForwardLog(c, a, trace))
    ensures Project(ForwardLog(c, a, trace), i) == PostedBuffers(c, a, trace, i)
  {
    TraceMovesOut(c, a, trace, b);
    TraceMovesLane(c, a, trace, b, i);
    var taken, log, posted := TakenBuffers(c, a, trace), ForwardLog(c, a, trace), PostedBuffers(c, a, trace, i);
    var none: seq<seq<WfDoc>> := [];
    assert taken + none == taken && none + Values(log) == Values(log);
    assert Project(log, i) + none == Project(log, i) && none + posted == posted;
  }

  /** End to end, in order: when all has finished, the buffers the producer has taken interleave
      those the indexers have sent, each list in its order, and those of an indexer hold exactly
      the bad ones of the documents it has received, in order. */
  lemma ProducerTakesTheRejected(c: Setup, trace: seq<Label>, s: State, bad: WfDoc -> bool)
    returns (posts: seq<seq<seq<WfDoc>>>)
    requires Trace(c, Init(c), trace, s) && Republishes(c) && AllJudged(c, Init(c), trace, bad)
    requires Shutdown.Finished(s)
    ensures |posts| == c.n && Interleaves(TakenBuffers(c, Init(c), trace), posts)
    ensures forall i: nat :: i < c.n ==>
              && posts[i] == PostedBuffers(c, Init(c), trace, i)
              && Batching.Flatten(posts[i]) == Rejected(Total(Received, c, Init(c), trace, i), bad)
  {
    var log := ForwardLog(c, Init(c), trace);
    posts := Projections(log, c.n);
    LogTags(c, Init(c), trace, s);
    TaggedInterleaves(log, c.n);
    forall i: nat | i < c.n
      ensures posts[i] == PostedBuffers(c, Init(c), trace, i)
      ensures Batching.Flatten(posts[i]) == Rejected(Total(Received, c, Init(c), trace, i), bad)
    {
      LaneDelivers(c, trace, s, i, bad);
    }
    assert Values(log) == TakenBuffers(c, Init(c), trace) by { LaneDelivers(c, trace, s, 0, bad); }
  }

  lemma FinishedIsDone(c: Setup, trace: seq<Label>, s: State, i: nat, bad: WfDoc -> bool)
    requires Trace(c, Init(c), trace, s) && Republishes(c) && AllJudged(c, Init(c), trace, bad)
    requires Shutdown.Finished(s) && i < c.n
    ensures At(s, i) && s.lanes[i].pc.IDone? && s.out == [] && InTransit(s, i) == []
  {
    InitFair(c, bad);
    InitSingleOwner(c);
    TraceIsFair(c, Init(c), trace, s, bad);
    ReachableDisciplined(c, s);
    assert LaneOk(c, s.lanes[i], Drained(s));
  }

  lemma InitIsEmpty(c: Setup, i: nat)
    requires i < c.n
    ensures At(Init(c), i) && InTransit(Init(c), i) == [] && Init(c).out == []
  {
  }

  lemma LaneDelivers(c: Setup, trace: seq<Label>, s: State, i: nat, bad: WfDoc -> bool)
    requires Trace(c, Init(c), trace, s) && Republishes(c) && AllJudged(c, Init(c), trace, bad)
    requires Shutdown.Finished(s) && i < c.n
    ensures var log := ForwardLog(c, Init(c), trace);
            && Values(log) == TakenBuffers(c, Init(c), trace)
            && Project(log, i) == PostedBuffers(c, Init(c), trace, i)
            && Batching.Flatten(Project(log, i)) == Rejected(Total(Received, c, Init(c), trace, i), bad)
  {
    InitSingleOwner(c);
    InitIsEmpty(c, i);
    FinishedIsDone(c, trace, s, i, bad);
    Drains(c, Init(c), trace, s, i);
    PostedDocuments(c, Init(c), trace, s, i);
    RepublishesExactlyTheRejected(c, trace, s, i, bad);
  }
}
