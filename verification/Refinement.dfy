/** Every indexer of the concurrent pipeline, in every interleaving, is an indexer of IndexerSpec:
    what the other goroutines do between its steps makes no difference to it. */
module Refinement {
  import opened Lines
  import opened Documents
  import opened Pipeline
  import opened Ownership
  import opened Exclusive
  import opened BulkSizes
  import opened Streams
  import Stepwise
  import Discipline
  import Reasons
  import IndexerSpec

  function AfterOf(k: Cont): Stepwise.After {
    match k
    case ThenBytes(_) => Stepwise.ThenTest
    case ThenAppend(_) => Stepwise.ThenAppend
    case ThenSelect => Stepwise.ThenSelect
    case ThenReturn => Stepwise.ThenReturn
  }

  function PhaseOf(pc: IndexerPc): Stepwise.Phase {
    match pc
    case ISelect => Stepwise.Selecting
    case ITime(_) => Stepwise.Timing
    case IBytes(_) => Stepwise.Testing
    case IAppend(_) => Stepwise.Appending
    case IFlush(k) => Stepwise.Flushing(AfterOf(k))
    case IPut(_, k) => Stepwise.Flushed(AfterOf(k))
    case ISend(_, k) => Stepwise.Flushed(AfterOf(k))
    case IGet(k) => Stepwise.Flushed(AfterOf(k))
    case IDone => Stepwise.Returned
    case IFailed => Stepwise.Broken
  }

  /** Indexer i without addresses: the bytes it holds. */
  function ViewOf(s: State, i: nat): Stepwise.View
    requires At(s, i)
  {
    var l := s.lanes[i];
    Stepwise.View(
      PhaseOf(l.pc), l.count, l.flushed || l.pc.IPut?,
      Render(Content(s, LiveBuffer(l))), Render(Content(s, InHand(l.pc))),
      ErrorBytes(s, i))
  }

  /** What a step of the pipeline is for indexer i. */
  function ActOf(c: Setup, s: State, l: Label, i: nat): Stepwise.Act
    requires Enabled(c, s, l) && At(s, i)
  {
    match l
    case Consumer(ConsumerHand(j)) =>
      if j == i then Stepwise.Take(Render(Load(s.mem, DoConsumerSend(s).inq[0]))) else Stepwise.Stay
    case Loop(j, ls) => if j == i then LoopAct(s, i, ls) else Stepwise.Stay
    case Flush(j, fs) => if j == i then FlushAct(c, s, i, fs) else Stepwise.Stay
    case _ => Stepwise.Stay
  }

  function LoopAct(s: State, i: nat, ls: LoopStep): Stepwise.Act
    requires LoopCan(s, i, ls)
  {
    match ls
    case Receive => Stepwise.Take(Render(Load(s.mem, s.inq[0])))
    case SeeClosed => Stepwise.SeeClosed
    case TickIdle => Stepwise.TickIdle
    case TickFlush => Stepwise.TickFlush
    case TickFail => Stepwise.Fail
    case TimeTest(fires) => Stepwise.TimeTest(fires)
    case BytesTest => Stepwise.BytesTest
    case AppendMsg => Stepwise.AppendMsg
  }

  function FlushAct(c: Setup, s: State, i: nat, fs: FlushStep): Stepwise.Act
    requires FlushCan(c, s, i, fs)
  {
    match fs
    case BulkCall(resp, _) => Stepwise.Call(Render(Load(s.mem, s.lanes[i].ptr)), s.lanes[i].count, resp)
    case PutBulk => Stepwise.Stay
    case DropErrors => Stepwise.Drop
    case SendErrors => Stepwise.Post(Render(Load(s.mem, s.lanes[i].pc.out)))
    case HandErrors => Stepwise.Post(Render(Load(s.mem, s.lanes[i].pc.out)))
    case GetBulk(_) => Stepwise.Get
  }

  /** The steps of indexer i in a run, in order. */
  ghost function Acts(c: Setup, s: State, trace: seq<Label>, i: nat): seq<Stepwise.Act>
    decreases |trace|
  {
    if trace == [] || !Enabled(c, s, trace[0]) || !At(s, i) then []
    else [ActOf(c, s, trace[0], i)] + Acts(c, Next(c, s, trace[0]), trace[1..], i)
  }

  predicate Fits(c: Setup, env: IndexerSpec.Env) {
    env.cfg == c.limits && env.republish == Republishes(c)
  }

  /** Act a takes indexer i from its view in s to its view in s'. */
  ghost predicate Acted(env: IndexerSpec.Env, s: State, s': State, i: nat, a: Stepwise.Act) {
    && At(s, i) && At(s', i)
    && Stepwise.Can(env, ViewOf(s, i), a) && Stepwise.Do(env, ViewOf(s, i), a) == ViewOf(s', i)
  }

  lemma EmptyBody()
    ensures Render([]) == []
  {
  }

  lemma ReceiveActs(env: IndexerSpec.Env, s: State, i: nat)
    requires At(s, i) && s.lanes[i].pc.ISelect? && s.inq != []
    ensures Acted(env, s, DoReceive(s, i), i, Stepwise.Take(Render(Load(s.mem, s.inq[0]))))
  {
  }

  /** A move within the stages of bulk. */
  lemma TestActs(env: IndexerSpec.Env, s: State, i: nat, pc: IndexerPc)
    requires At(s, i) && Unsettled(s.lanes[i].pc) && Unsettled(pc) && InHand(pc) == InHand(s.lanes[i].pc)
    ensures ViewOf(GoTo(s, i, pc), i) == ViewOf(s, i).(phase := PhaseOf(pc))
  {
  }

  lemma FailActs(c: Setup, env: IndexerSpec.Env, s: State, i: nat)
    requires At(s, i) && s.lanes[i].pc.ISelect?
    ensures Acted(env, s, DoTickFail(c, s, i), i, Stepwise.Fail)
  {
  }

  lemma AppendedLane(c: Setup, s: State, i: nat)
    requires LoopCan(s, i, AppendMsg)
    ensures var l := s.lanes[i];
            var pc := if c.limits.msgLimit == l.count + 1 then IFlush(ThenSelect) else ISelect;
            At(DoAppendMsg(c, s, i), i) && DoAppendMsg(c, s, i).lanes[i] == l.(count := l.count + 1, pc := pc)
  {
  }

  /** s' is s with the message of indexer i written to its buffer. */
  predicate Appended(c: Setup, s: State, s': State, i: nat) {
    && At(s, i) && At(s', i) && s.lanes[i].pc.IAppend?
    && (var l := s.lanes[i];
        var pc := if c.limits.msgLimit == l.count + 1 then IFlush(ThenSelect) else ISelect;
        && s'.lanes[i] == l.(count := l.count + 1, pc := pc)
        && Render(Load(s'.mem, l.ptr)) == Render(Load(s.mem, l.ptr)) + Render(Load(s.mem, l.pc.msg)))
  }

  lemma AppendedView(c: Setup, s: State, s': State, i: nat)
    requires Appended(c, s, s', i)
    ensures ViewOf(s, i).phase.Appending?
    ensures var v := ViewOf(s, i);
            ViewOf(s', i) == Written(v, if c.limits.msgLimit == v.count + 1 then Stepwise.Flushing(Stepwise.ThenSelect)
                                        else Stepwise.Selecting)
  {
    EmptyBody();
    assert InHand(s'.lanes[i].pc) == None && LiveBuffer(s'.lanes[i]) == Some(s.lanes[i].ptr);
  }

  function Written(v: Stepwise.View, phase: Stepwise.Phase): Stepwise.View {
    v.(phase := phase, count := v.count + 1, buffer := v.buffer + v.hand, hand := [])
  }

  lemma WrittenActs(env: IndexerSpec.Env, v: Stepwise.View)
    requires v.phase.Appending?
    ensures Stepwise.Can(env, v, Stepwise.AppendMsg)
    ensures Stepwise.Do(env, v, Stepwise.AppendMsg) ==
            Written(v, if env.cfg.msgLimit == v.count + 1 then Stepwise.Flushing(Stepwise.ThenSelect)
                       else Stepwise.Selecting)
  {
  }

  lemma DoesAppend(c: Setup, s: State, i: nat)
    requires LoopCan(s, i, AppendMsg) && SingleOwner(s)
    ensures Appended(c, s, DoAppendMsg(c, s, i), i)
  {
    AppendedContent(c, s, i);
    AppendedLane(c, s, i);
    RenderAppend(Load(s.mem, s.lanes[i].ptr), Load(s.mem, s.lanes[i].pc.msg));
  }

  lemma AppendActs(c: Setup, env: IndexerSpec.Env, s: State, i: nat)
    requires LoopCan(s, i, AppendMsg) && SingleOwner(s) && Fits(c, env)
    ensures Acted(env, s, DoAppendMsg(c, s, i), i, Stepwise.AppendMsg)
  {
    DoesAppend(c, s, i);
    AppendedView(c, s, DoAppendMsg(c, s, i), i);
    WrittenActs(env, ViewOf(s, i));
  }

  lemma BytesTestActs(c: Setup, env: IndexerSpec.Env, s: State, i: nat)
    requires LoopCan(s, i, BytesTest) && Fits(c, env)
    ensures Acted(env, s, DoBytesTest(c, s, i), i, Stepwise.BytesTest)
  {
    TestActs(env, s, i, DoBytesTest(c, s, i).lanes[i].pc);
  }

  lemma LoopActs(c: Setup, env: IndexerSpec.Env, s: State, i: nat, ls: LoopStep)
    requires LoopCan(s, i, ls) && SingleOwner(s) && Fits(c, env)
    ensures Acted(env, s, LoopNext(c, s, i, ls), i, LoopAct(s, i, ls))
  {
    match ls {
      case Receive => ReceiveActs(env, s, i);
      case TickFail => FailActs(c, env, s, i);
      case AppendMsg => AppendActs(c, env, s, i);
      case TickIdle =>
      case _ => TestsAct(c, env, s, i, ls);
    }
  }

  lemma TestsAct(c: Setup, env: IndexerSpec.Env, s: State, i: nat, ls: LoopStep)
    requires LoopCan(s, i, ls) && Fits(c, env) && (ls.SeeClosed? || ls.TickFlush? || ls.TimeTest? || ls.BytesTest?)
    ensures Acted(env, s, LoopNext(c, s, i, ls), i, LoopAct(s, i, ls))
  {
    match ls {
      case SeeClosed => TestActs(env, s, i, IFlush(ThenReturn));
      case TickFlush => TestActs(env, s, i, IFlush(ThenSelect));
      case TimeTest(fires) => TestActs(env, s, i, DoTimeTest(s, i, fires).lanes[i].pc);
      case BytesTest => BytesTestActs(c, env, s, i);
    }
  }

  /** The buffer of failed documents of a bulk call is the one sendToES makes. */
  lemma CallExtracts(s: State, i: nat, resp: Response, get: BufId)
    requires At(s, i) && s.lanes[i].pc.IFlush? && Answers(resp, Load(s.mem, s.lanes[i].ptr))
    requires SingleOwner(s) && CanGet(s.msgPool, s.mem, get)
    ensures var s' := DoBulkCall(s, i, resp, get);
            && At(s', i)
            && ErrorBytes(s', i) == Stepwise.ExtractedBy(resp, Render(Load(s.mem, s.lanes[i].ptr)))
  {
    CallErrors(s, i, resp, get);
    CallTakes(s, i, resp, get);
    if resp.Decoded? && resp.hasErrors {
      ParseFilters(Load(s.mem, s.lanes[i].ptr), resp.items);
    }
  }

  lemma CallActs(c: Setup, env: IndexerSpec.Env, s: State, i: nat, resp: Response, get: BufId)
    requires FlushCan(c, s, i, BulkCall(resp, get)) && SingleOwner(s)
    ensures Acted(env, s, DoBulkCall(s, i, resp, get), i, FlushAct(c, s, i, BulkCall(resp, get)))
  {
    FlushKeepsHand(c, s, i, BulkCall(resp, get));
    BulkCallShape(s, i, resp, get);
    CallExtracts(s, i, resp, get);
    EmptyBody();
  }

  lemma PutActs(c: Setup, env: IndexerSpec.Env, s: State, i: nat)
    requires FlushCan(c, s, i, PutBulk) && SingleOwner(s)
    ensures Acted(env, s, DoPutBulk(s, i), i, Stepwise.Stay)
  {
    FlushKeepsHand(c, s, i, PutBulk);
    PutErrors(s, i);
  }

  lemma GoesToGet(c: Setup, s: State, i: nat, fs: FlushStep)
    requires FlushCan(c, s, i, fs) && (fs.DropErrors? || fs.SendErrors? || fs.HandErrors?)
    ensures var l, s' := s.lanes[i], FlushNext(c, s, i, fs);
            && At(s', i) && s'.lanes[i].pc == IGet(l.pc.k)
            && s'.lanes[i].count == l.count && s'.lanes[i].flushed == l.flushed
  {
  }

  /** After sending or dropping the error buffer. */
  lemma ErrorView(s: State, s': State, i: nat)
    requires KeepsHand(s, s', i) && s.lanes[i].pc.ISend? && s'.lanes[i].pc.IGet?
    requires s'.lanes[i].pc.k == s.lanes[i].pc.k
    requires s'.lanes[i].count == s.lanes[i].count && s'.lanes[i].flushed == s.lanes[i].flushed
    ensures ViewOf(s, i).errors == Some(Render(Load(s.mem, s.lanes[i].pc.out)))
    ensures ViewOf(s', i) == ViewOf(s, i).(errors := None)
  {
  }

  lemma DropActs(c: Setup, env: IndexerSpec.Env, s: State, i: nat)
    requires FlushCan(c, s, i, DropErrors) && SingleOwner(s) && Fits(c, env)
    ensures Acted(env, s, DoDropErrors(s, i), i, Stepwise.Drop)
  {
    FlushKeepsHand(c, s, i, DropErrors);
    GoesToGet(c, s, i, DropErrors);
    ErrorView(s, DoDropErrors(s, i), i);
  }

  lemma PostActs(c: Setup, env: IndexerSpec.Env, s: State, s': State, i: nat)
    requires At(s, i) && s.lanes[i].pc.ISend? && Wanted(c, s, i) && Fits(c, env)
    requires KeepsHand(s, s', i) && s'.lanes[i].pc == IGet(s.lanes[i].pc.k)
    requires s'.lanes[i].count == s.lanes[i].count && s'.lanes[i].flushed == s.lanes[i].flushed
    ensures Acted(env, s, s', i, Stepwise.Post(Render(Load(s.mem, s.lanes[i].pc.out))))
  {
    ErrorView(s, s', i);
  }

  lemma SendActs(c: Setup, env: IndexerSpec.Env, s: State, i: nat, fs: FlushStep)
    requires FlushCan(c, s, i, fs) && SingleOwner(s) && Fits(c, env) && (fs.SendErrors? || fs.HandErrors?)
    ensures Acted(env, s, FlushNext(c, s, i, fs), i, FlushAct(c, s, i, fs))
  {
    FlushKeepsHand(c, s, i, fs);
    GoesToGet(c, s, i, fs);
    PostActs(c, env, s, FlushNext(c, s, i, fs), i);
  }

  lemma GotView(s: State, s': State, i: nat)
    requires KeepsHand(s, s', i) && s.lanes[i].pc.IGet? && s'.lanes[i].pc == Resume(s.lanes[i].pc.k)
    requires s'.lanes[i].count == 0 && s'.lanes[i].flushed == s.lanes[i].flushed
    requires Content(s', LiveBuffer(s'.lanes[i])) == []
    ensures ViewOf(s, i).errors == None
    ensures ViewOf(s', i) ==
            ViewOf(s, i).(phase := Stepwise.Resumed(AfterOf(s.lanes[i].pc.k)), count := 0)
  {
    EmptyBody();
  }

  lemma GetActs(c: Setup, env: IndexerSpec.Env, s: State, i: nat, get: BufId)
    requires FlushCan(c, s, i, GetBulk(get)) && SingleOwner(s)
    ensures Acted(env, s, DoGetBulk(c, s, i, get), i, Stepwise.Get)
  {
    FlushKeepsHand(c, s, i, GetBulk(get));
    GetFindsEmpty(c, s, i, get);
    GotView(s, DoGetBulk(c, s, i, get), i);
  }

  lemma FlushActs(c: Setup, env: IndexerSpec.Env, s: State, i: nat, fs: FlushStep)
    requires FlushCan(c, s, i, fs) && SingleOwner(s) && Fits(c, env)
    ensures Acted(env, s, FlushNext(c, s, i, fs), i, FlushAct(c, s, i, fs))
  {
    match fs {
      case BulkCall(resp, get) => CallActs(c, env, s, i, resp, get);
      case PutBulk => PutActs(c, env, s, i);
      case GetBulk(get) => GetActs(c, env, s, i, get);
      case DropErrors => DropActs(c, env, s, i);
      case _ => SendActs(c, env, s, i, fs);
    }
  }

  lemma OthersStay(c: Setup, env: IndexerSpec.Env, s: State, l: Label, i: nat)
    requires Enabled(c, s, l) && SingleOwner(s) && At(s, i) && !Moves(l, i)
    ensures Acted(env, s, Next(c, s, l), i, Stepwise.Stay)
  {
    LaneStays(c, s, l, i);
    OthersKeepContent(c, s, l, i, LaneBuffer(i), LiveBuffer(s.lanes[i]));
    OthersKeepContent(c, s, l, i, LaneHand(i), InHand(s.lanes[i].pc));
    OthersKeepContent(c, s, l, i, LaneHand(i), ErrorsInHand(s.lanes[i].pc));
  }

  lemma HandActs(c: Setup, env: IndexerSpec.Env, s: State, i: nat)
    requires ConsumerCan(c, s, ConsumerHand(i))
    ensures Acted(env, s, ConsumerNext(c, s, ConsumerHand(i)), i, ActOf(c, s, Consumer(ConsumerHand(i)), i))
  {
    ReceiveActs(env, DoConsumerSend(s), i);
  }

  lemma StepActs(c: Setup, env: IndexerSpec.Env, s: State, l: Label, i: nat)
    requires Enabled(c, s, l) && SingleOwner(s) && At(s, i) && Fits(c, env)
    ensures Acted(env, s, Next(c, s, l), i, ActOf(c, s, l, i))
  {
    if Moves(l, i) {
      match l {
        case Consumer(_) => HandActs(c, env, s, i);
        case Loop(_, ls) => LoopActs(c, env, s, i, ls);
        case Flush(_, fs) => FlushActs(c, env, s, i, fs);
      }
    } else {
      OthersStay(c, env, s, l, i);
    }
  }

  lemma PlaySnoc(env: IndexerSpec.Env, acts: seq<Stepwise.Act>, a: Stepwise.Act)
    requires Stepwise.Playable(env, acts) && Stepwise.Can(env, Stepwise.Play(env, acts), a)
    ensures Stepwise.Playable(env, acts + [a])
    ensures Stepwise.Play(env, acts + [a]) == Stepwise.Do(env, Stepwise.Play(env, acts), a)
  {
    assert (acts + [a])[..|acts|] == acts;
  }

  /** acts bring indexer i to where it is in s. */
  ghost predicate Reached(env: IndexerSpec.Env, acts: seq<Stepwise.Act>, s: State, i: nat) {
    At(s, i) && Stepwise.Playable(env, acts) && Stepwise.Play(env, acts) == ViewOf(s, i)
  }

  /** One more step, in front of the rest of a run. */
  lemma StepReached(c: Setup, env: IndexerSpec.Env, s: State, l: Label, i: nat, acts: seq<Stepwise.Act>)
    requires Enabled(c, s, l) && SingleOwner(s) && Fits(c, env) && Reached(env, acts, s, i)
    ensures Reached(env, acts + [ActOf(c, s, l, i)], Next(c, s, l), i)
  {
    StepActs(c, env, s, l, i);
    PlaySnoc(env, acts, ActOf(c, s, l, i));
  }

  lemma {:induction false} TraceActs(c: Setup, env: IndexerSpec.Env, a: State, trace: seq<Label>, b: State, i: nat,
                                     acts: seq<Stepwise.Act>)
    requires Trace(c, a, trace, b) && SingleOwner(a) && Fits(c, env) && Reached(env, acts, a, i)
    ensures Reached(env, acts + Acts(c, a, trace, i), b, i)
    decreases |trace|
  {
    if trace == [] {
      assert acts + [] == acts;
    } else {
      var l, rest := trace[0], trace[1..];
      StepKeepsSingleOwner(c, a, l);
      StepReached(c, env, a, l, i, acts);
      TraceActs(c, env, Next(c, a, l), rest, b, i, acts + [ActOf(c, a, l, i)]);
      ActsCons(c, a, trace, i, acts);
    }
  }

  lemma ActsCons(c: Setup, a: State, trace: seq<Label>, i: nat, acts: seq<Stepwise.Act>)
    requires trace != [] && Enabled(c, a, trace[0]) && At(a, i)
    ensures acts + Acts(c, a, trace, i) ==
            acts + [ActOf(c, a, trace[0], i)] + Acts(c, Next(c, a, trace[0]), trace[1..], i)
  {
    var rest := Acts(c, Next(c, a, trace[0]), trace[1..], i);
    Assoc(acts, [ActOf(c, a, trace[0], i)], rest);
  }

  /** An environment that gives indexer i the responses it got in the run. */
  function EnvFor(c: Setup, acts: seq<Stepwise.Act>): IndexerSpec.Env {
    var rs := Stepwise.Responses(acts);
    var answer := (n: nat, body: seq<byte>) => if n < |rs| then rs[n] else IndexerSpec.TransportError;
    IndexerSpec.Env(c.limits, answer, Republishes(c))
  }

  lemma StartsThere(c: Setup, i: nat)
    requires i < c.n
    ensures At(Init(c), i) && ViewOf(Init(c), i) == Stepwise.Start()
  {
    EmptyBody();
  }

  /** The indexer is between two events of its select loop, or has returned. */
  predicate AtRest(pc: IndexerPc) {
    pc.ISelect? || pc.IDone? || pc.IFailed?
  }

  /** On this schedule the sequential indexer does what indexer i has done in its steps acts, and
      is where indexer i is in s. */
  ghost predicate IsRun(env: IndexerSpec.Env, events: seq<IndexerSpec.Event>, acts: seq<Stepwise.Act>, s: State, i: nat)
    requires At(s, i)
  {
    var (spec, o) := IndexerSpec.Run(env, 0, events);
    && Stepwise.Whole(env, events) && Stepwise.Sorted(events) && Stepwise.Bodies(events) == Stepwise.TakenMessages(acts)
    && Stepwise.FlushBodies(spec.flushes) == Stepwise.FlushedBodies(acts)
    && IndexerSpec.Reports(spec.flushes) == Stepwise.FlushReports(acts)
    && spec.sink.sent == Stepwise.SentBuffers(acts)
    && o == Stepwise.OutcomeOf(PhaseOf(s.lanes[i].pc))
    && (s.lanes[i].pc.ISelect? ==>
          && IndexerSpec.Body(spec.pending) == Render(Load(s.mem, s.lanes[i].ptr))
          && |spec.pending| == s.lanes[i].count)
  }

  lemma ReachedIsRun(c: Setup, acts: seq<Stepwise.Act>, s: State, i: nat) returns (events: seq<IndexerSpec.Event>)
    requires Reached(EnvFor(c, acts), acts, s, i) && c.limits.interval >= 0 && AtRest(s.lanes[i].pc)
    ensures IsRun(EnvFor(c, acts), events, acts, s, i)
  {
    events := Stepwise.StepsAreARun(EnvFor(c, acts), acts);
  }

  lemma RunFrom(c: Setup, a: State, trace: seq<Label>, s: State, i: nat) returns (events: seq<IndexerSpec.Event>)
    requires Trace(c, a, trace, s) && SingleOwner(a) && At(a, i) && ViewOf(a, i) == Stepwise.Start()
    requires c.limits.interval >= 0 && At(s, i) && AtRest(s.lanes[i].pc)
    ensures IsRun(EnvFor(c, Acts(c, a, trace, i)), events, Acts(c, a, trace, i), s, i)
  {
    var acts := Acts(c, a, trace, i);
    TraceActs(c, EnvFor(c, acts), a, trace, s, i, []);
    assert [] + acts == acts;
    events := ReachedIsRun(c, acts, s, i);
  }

  /** In every run of the pipeline, each indexer has done what the sequential indexer does on some
      schedule in the order of time: it has taken the messages of the schedule, flushed its
      bodies, sent its error buffers, and holds or has ended the same way. */
  lemma LaneIsAnIndexer(c: Setup, trace: seq<Label>, s: State, i: nat) returns (events: seq<IndexerSpec.Event>)
    requires Trace(c, Init(c), trace, s) && i < c.n && c.limits.interval >= 0
    requires At(s, i) && AtRest(s.lanes[i].pc)
    ensures IsRun(EnvFor(c, Acts(c, Init(c), trace, i)), events, Acts(c, Init(c), trace, i), s, i)
    ensures s.lanes[i].errClosed <==>
            IndexerSpec.Run(EnvFor(c, Acts(c, Init(c), trace, i)), 0, events).0.sink.closed
  {
    InitSingleOwner(c);
    StartsThere(c, i);
    events := RunFrom(c, Init(c), trace, s, i);
    ClosedAlike(c, trace, s, i, EnvFor(c, Acts(c, Init(c), trace, i)), events);
  }

  /** The error channel is closed when that of the sequential indexer is. */
  lemma ClosedAlike(c: Setup, trace: seq<Label>, s: State, i: nat, env: IndexerSpec.Env,
                    events: seq<IndexerSpec.Event>)
    requires Trace(c, Init(c), trace, s) && At(s, i) && AtRest(s.lanes[i].pc) && Fits(c, env)
    requires IndexerSpec.Run(env, 0, events).1 == Stepwise.OutcomeOf(PhaseOf(s.lanes[i].pc))
    ensures s.lanes[i].errClosed <==> IndexerSpec.Run(env, 0, events).0.sink.closed
  {
    Discipline.ReachableDisciplined(c, s);
    assert Discipline.LaneOk(c, s.lanes[i], Discipline.Drained(s));
    Reasons.ClosedExactly(env, 0, events);
  }
}
