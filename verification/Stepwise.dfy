/** One indexer taken apart into the steps between which other goroutines can run, on bytes; and
    the proof that, step by step, it does what IndexerSpec does event by event. */
module Stepwise {
  import opened Lines
  import opened Documents
  import opened IndexerSpec

  /** Where bulk continues after a flush. */
  datatype After = ThenTest | ThenAppend | ThenSelect | ThenReturn

  /** Flushed(k): the bulk call of a flush has been made, the new buffer has not been taken. */
  datatype Phase =
    | Selecting | Timing | Testing | Appending | Flushing(k: After) | Flushed(k: After) | Returned | Broken

  /** errors is the buffer of failed documents in hand; flushed: lastFlush is not the zero time. */
  datatype View = View(
    phase: Phase, count: nat, flushed: bool, buffer: seq<byte>, hand: seq<byte>, errors: Option<seq<byte>>)

  datatype Act =
    | Stay | Take(body: seq<byte>) | TimeTest(fires: bool) | BytesTest | AppendMsg
    | Call(body: seq<byte>, msgs: nat, resp: Response) | Drop | Post(out: seq<byte>) | Get
    | TickIdle | TickFlush | Fail | SeeClosed

  /** What newBulker starts from: the first Get is still to come. */
  function Start(): View {
    View(Flushed(ThenSelect), 0, false, [], [], None)
  }

  /** The buffer sendToES makes of one response. */
  function ExtractedBy(resp: Response, body: seq<byte>): Option<seq<byte>> {
    if |body| >= MINIMUM_BUFFER_SIZE && resp.Decoded? && resp.hasErrors then ErrorBody(SplitAfter(body), resp.items)
    else None
  }

  predicate WantedBytes(env: Env, out: seq<byte>) {
    env.republish && |out| >= 1
  }

  predicate Can(env: Env, v: View, a: Act) {
    match a
    case Stay => true
    case Take(_) => v.phase.Selecting?
    case TimeTest(fires) => v.phase.Timing? && if fires then v.count > 0 else v.count == 0 || v.flushed
    case BytesTest => v.phase.Testing?
    case AppendMsg => v.phase.Appending?
    case Call(body, msgs, _) => v.phase.Flushing? && body == v.buffer && msgs == v.count
    case Drop => v.phase.Flushed? && v.errors.Some? && !WantedBytes(env, v.errors.value)
    case Post(out) => v.phase.Flushed? && v.errors == Some(out) && WantedBytes(env, out)
    case Get => v.phase.Flushed? && v.errors.None?
    case TickIdle => v.phase.Selecting? && (v.count == 0 || v.flushed)
    case TickFlush => v.phase.Selecting? && v.count > 0
    case Fail => v.phase.Selecting?
    case SeeClosed => v.phase.Selecting?
  }

  function Resumed(k: After): Phase {
    match k
    case ThenTest => Testing
    case ThenAppend => Appending
    case ThenSelect => Selecting
    case ThenReturn => Returned
  }

  function Do(env: Env, v: View, a: Act): View
    requires Can(env, v, a)
  {
    match a
    case Stay => v
    case Take(body) => v.(phase := Timing, hand := body)
    case TimeTest(fires) => v.(phase := if fires then Flushing(ThenTest) else Testing)
    case BytesTest =>
      v.(phase := if OverBytes(env.cfg, |v.buffer|, |v.hand|) then Flushing(ThenAppend) else Appending)
    case AppendMsg =>
      v.(phase := if env.cfg.msgLimit == v.count + 1 then Flushing(ThenSelect) else Selecting,
         count := v.count + 1, buffer := v.buffer + v.hand, hand := [])
    case Call(body, _, resp) =>
      v.(phase := Flushed(v.phase.k), flushed := true, buffer := [], errors := ExtractedBy(resp, body))
    case Drop => v.(errors := None)
    case Post(_) => v.(errors := None)
    case Get => v.(phase := Resumed(v.phase.k), count := 0)
    case TickIdle => v
    case TickFlush => v.(phase := Flushing(ThenSelect))
    case Fail => v.(phase := Broken, buffer := [])
    case SeeClosed => v.(phase := Flushing(ThenReturn))
  }

  /** The steps are possible one after the other. */
  predicate Playable(env: Env, acts: seq<Act>)
    decreases |acts|, 0
  {
    acts == [] || (Playable(env, acts[..|acts| - 1]) && Can(env, Play(env, acts[..|acts| - 1]), acts[|acts| - 1]))
  }

  function Play(env: Env, acts: seq<Act>): View
    requires Playable(env, acts)
    decreases |acts|, 1
  {
    if acts == [] then Start() else Do(env, Play(env, acts[..|acts| - 1]), acts[|acts| - 1])
  }

  // ------------------------------------------------------- what is observed

  /** The messages taken. */
  function TakenMessages(acts: seq<Act>): seq<seq<byte>> {
    if acts == [] then [] else
    var a := acts[|acts| - 1];
    TakenMessages(acts[..|acts| - 1]) + if a.Take? then [a.body] else []
  }

  /** The bodies flushed. */
  function FlushedBodies(acts: seq<Act>): seq<seq<byte>> {
    if acts == [] then [] else
    var a := acts[|acts| - 1];
    FlushedBodies(acts[..|acts| - 1]) + if a.Call? then [a.body] else []
  }

  /** The reason of a flush that follows these steps: that of the last test or event that could
      have started it. */
  function LastReason(acts: seq<Act>): Reason {
    if acts == [] then Shutdown else
    var front := acts[..|acts| - 1];
    match acts[|acts| - 1]
    case TimeTest(fires) => if fires then TimeLimit else LastReason(front)
    case TickFlush => TimeLimit
    case BytesTest => BytesLimit
    case AppendMsg => MsgLimit
    case SeeClosed => Shutdown
    case _ => LastReason(front)
  }

  /** The flush metrics: reason, bytes and messages of each flush. */
  function FlushReports(acts: seq<Act>): seq<Report> {
    if acts == [] then [] else
    var front, a := acts[..|acts| - 1], acts[|acts| - 1];
    FlushReports(front) + if a.Call? then [Report(LastReason(front), |a.body|, a.msgs)] else []
  }

  /** The error buffers sent. */
  function SentBuffers(acts: seq<Act>): seq<seq<byte>> {
    if acts == [] then [] else
    var a := acts[|acts| - 1];
    SentBuffers(acts[..|acts| - 1]) + if a.Post? then [a.out] else []
  }

  /** The responses to the bulk calls really made. */
  function Responses(acts: seq<Act>): seq<Response> {
    if acts == [] then [] else
    var a := acts[|acts| - 1];
    Responses(acts[..|acts| - 1]) + if a.Call? && |a.body| >= MINIMUM_BUFFER_SIZE then [a.resp] else []
  }

  /** env gives the responses that the steps got. */
  ghost predicate Serves(env: Env, acts: seq<Act>) {
    forall n: nat, body: seq<byte> :: n < |Responses(acts)| ==> env.answer(n, body) == Responses(acts)[n]
  }

  function Bodies(events: seq<Event>): seq<seq<byte>> {
    if events == [] then [] else
    var e := events[|events| - 1];
    Bodies(events[..|events| - 1]) + if e.Msg? then [e.body] else []
  }

  function FlushBodies(flushes: seq<Flush>): (r: seq<seq<byte>>)
    ensures |r| == |flushes|
  {
    seq(|flushes|, i requires 0 <= i < |flushes| => Body(flushes[i].batch))
  }

  /** Events in the order of time. */
  predicate Sorted(events: seq<Event>) {
    forall i, j :: 0 <= i <= j < |events| ==> events[i].now <= events[j].now
  }

  // ---------------------------------------------------------- simulation

  /** events have been handled; event is being handled, up to state cur; reason is that of the
      flush under way. */
  datatype Sim = Sim(events: seq<Event>, event: Option<Event>, reason: Reason, cur: State)

  /** The time of the last flush; every event so far is no later. */
  function Time(s: State): int {
    if s.lastFlush.Never? then 0 else s.lastFlush.ns
  }

  /** A time at which the time test comes out as wanted. */
  function TestTime(env: Env, s: State, fires: bool): int {
    Time(s) + if fires && s.lastFlush.At? then env.cfg.interval + 1 else 0
  }

  /** What is left of handling an event after the flush before k. */
  function Complete(env: Env, k: After, s: State, e: Event): State {
    match k
    case ThenTest =>
      if e.Msg? then CountCheck(env, Append(BytesCheck(env, s, e.body, e.now), e.body, e.now), e.now) else s
    case ThenAppend => if e.Msg? then CountCheck(env, Append(s, e.body, e.now), e.now) else s
    case ThenSelect => s
    case ThenReturn => CloseErrors(env, s)
  }

  /** From state s, completing after k gives what the whole event gives. */
  predicate OnTheWay(env: Env, events: seq<Event>, e: Event, k: After, s: State) {
    var (base, o) := Run(env, 0, events);
    && o == Running
    && Step(env, base, e) == (Complete(env, k, s, e), if k.ThenReturn? then Stopped else Running)
    && (k.ThenTest? || k.ThenAppend? ==> e.Msg?)
  }

  /** The loop has handled every event, and was still running before the last one. */
  predicate Whole(env: Env, events: seq<Event>) {
    events == [] || Run(env, 0, events[..|events| - 1]).1 == Running
  }

  predicate Handled(env: Env, m: Sim, o: Outcome) {
    m.event.None? && Run(env, 0, m.events) == (m.cur, o) && Whole(env, m.events)
  }

  predicate Handling(env: Env, m: Sim, k: After) {
    m.event.Some? && OnTheWay(env, m.events, m.event.value, k, m.cur)
  }

  predicate AboutToFlush(env: Env, m: Sim, k: After) {
    m.event.Some? && OnTheWay(env, m.events, m.event.value, k, DoFlush(env, m.cur, m.reason, m.event.value.now))
  }

  predicate Progress(env: Env, p: Phase, m: Sim) {
    match p
    case Selecting => Handled(env, m, Running)
    case Timing => Handled(env, m, Running)
    case Testing => Handling(env, m, ThenTest)
    case Appending => Handling(env, m, ThenAppend)
    case Flushing(k) => AboutToFlush(env, m, k)
    case Flushed(k) => Handling(env, m, k) || (k.ThenSelect? && Handled(env, m, Running))
    case Returned => Handled(env, m, Stopped)
    case Broken => Handled(env, m, Errored)
  }

  /** The buffer holds the pending messages. */
  predicate KeepsPending(p: Phase) {
    p.Selecting? || p.Timing? || p.Testing? || p.Appending? || p.Flushing?
  }

  predicate MessageInHand(p: Phase) {
    p.Testing? || p.Appending? || ((p.Flushing? || p.Flushed?) && (p.k.ThenTest? || p.k.ThenAppend?))
  }

  predicate Agrees(v: View, m: Sim) {
    && (KeepsPending(v.phase) ==> v.count == |m.cur.pending| && v.buffer == Body(m.cur.pending))
    && (v.phase.Flushed? ==> v.buffer == [])
    && (v.phase.Flushed? || v.phase.Returned? ==> m.cur.pending == [])
    && (v.flushed <==> m.cur.lastFlush.At?)
    && (v.errors.Some? ==> v.phase.Flushed?)
    && (MessageInHand(v.phase) ==> m.event.Some? && m.event.value.Msg? && m.event.value.body == v.hand)
  }

  function Unsent(env: Env, errors: Option<seq<byte>>): seq<seq<byte>> {
    if errors.Some? && WantedBytes(env, errors.value) then [errors.value] else []
  }

  function Current(v: View, m: Sim): seq<seq<byte>> {
    if v.phase.Timing? then [v.hand]
    else if m.event.Some? && m.event.value.Msg? then [m.event.value.body]
    else []
  }

  predicate Observed(env: Env, acts: seq<Act>, v: View, m: Sim) {
    && m.cur.sink.calls == |Responses(acts)|
    && m.cur.sink.sent == SentBuffers(acts) + Unsent(env, v.errors)
    && Bodies(m.events) + Current(v, m) == TakenMessages(acts)
    && FlushBodies(m.cur.flushes) == FlushedBodies(acts)
    && Reports(m.cur.flushes) == FlushReports(acts)
    && (v.phase.Flushing? ==> m.reason == LastReason(acts))
  }

  predicate InTime(p: Phase, m: Sim) {
    && Sorted(m.events) && (forall e :: e in m.events ==> e.now <= Time(m.cur))
    && (m.event.Some? ==> if p.Flushing? then Time(m.cur) <= m.event.value.now else Time(m.cur) == m.event.value.now)
  }

  predicate Simulates(env: Env, acts: seq<Act>, v: View, m: Sim) {
    Progress(env, v.phase, m) && Agrees(v, m) && Observed(env, acts, v, m) && InTime(v.phase, m)
  }

  lemma ObserveSnoc(acts: seq<Act>, a: Act)
    ensures TakenMessages(acts + [a]) == TakenMessages(acts) + if a.Take? then [a.body] else []
    ensures FlushedBodies(acts + [a]) == FlushedBodies(acts) + if a.Call? then [a.body] else []
    ensures SentBuffers(acts + [a]) == SentBuffers(acts) + if a.Post? then [a.out] else []
    ensures Responses(acts + [a]) ==
            Responses(acts) + if a.Call? && |a.body| >= MINIMUM_BUFFER_SIZE then [a.resp] else []
    ensures FlushReports(acts + [a]) ==
            FlushReports(acts) + if a.Call? then [Report(LastReason(acts), |a.body|, a.msgs)] else []
  {
    assert (acts + [a])[..|acts|] == acts;
  }

  lemma ReasonSnoc(acts: seq<Act>, a: Act)
    ensures LastReason(acts + [a]) ==
            match a
            case TimeTest(fires) => if fires then TimeLimit else LastReason(acts)
            case TickFlush => TimeLimit
            case BytesTest => BytesLimit
            case AppendMsg => MsgLimit
            case SeeClosed => Shutdown
            case _ => LastReason(acts)
  {
    assert (acts + [a])[..|acts|] == acts;
  }

  lemma BodiesSnoc(events: seq<Event>, e: Event)
    ensures Bodies(events + [e]) == Bodies(events) + if e.Msg? then [e.body] else []
  {
    assert (events + [e])[..|events|] == events;
  }

  /** The event has been handled. */
  function Finish(m: Sim, cur: State): Sim
    requires m.event.Some?
  {
    Sim(m.events + [m.event.value], None, m.reason, cur)
  }

  function OutcomeOf(p: Phase): Outcome {
    match p
    case Returned => Stopped
    case Broken => Errored
    case _ => Running
  }

  /** The indexer is between two events, or has returned, with cur behind it. */
  predicate Rests(v: View, cur: State, o: Outcome) {
    && (v.phase.Selecting? || v.phase.Returned? || v.phase.Broken?) && o == OutcomeOf(v.phase)
    && (v.phase.Selecting? ==> v.count == |cur.pending| && v.buffer == Body(cur.pending))
    && (v.phase.Returned? ==> cur.pending == [])
    && (v.flushed <==> cur.lastFlush.At?) && v.errors.None?
  }

  /** What has been observed once e has been handled, cur being the state after it. */
  predicate ObservedAfter(acts: seq<Act>, events: seq<Event>, e: Event, cur: State) {
    && cur.sink.calls == |Responses(acts)| && cur.sink.sent == SentBuffers(acts)
    && Bodies(events) + (if e.Msg? then [e.body] else []) == TakenMessages(acts)
    && FlushBodies(cur.flushes) == FlushedBodies(acts) && Reports(cur.flushes) == FlushReports(acts)
  }

  lemma HandledAfter(env: Env, events: seq<Event>, e: Event)
    requires Run(env, 0, events).1 == Running
    ensures Run(env, 0, events + [e]) == Step(env, Run(env, 0, events).0, e) && Whole(env, events + [e])
  {
    assert (events + [e])[..|events|] == events;
  }

  lemma InTimeAfter(m: Sim, cur: State, p: Phase)
    requires m.event.Some? && Sorted(m.events) && (forall e :: e in m.events ==> e.now <= m.event.value.now)
    requires Time(cur) == m.event.value.now
    ensures InTime(p, Finish(m, cur))
  {
  }

  lemma ObservedWhole(env: Env, acts: seq<Act>, v: View, m: Sim, cur: State, o: Outcome)
    requires m.event.Some? && Rests(v, cur, o) && ObservedAfter(acts, m.events, m.event.value, cur)
    ensures Observed(env, acts, v, Finish(m, cur)) && Agrees(v, Finish(m, cur))
  {
    BodiesSnoc(m.events, m.event.value);
    assert SentBuffers(acts) + [] == SentBuffers(acts);
    assert Bodies(m.events + [m.event.value]) + [] == Bodies(m.events + [m.event.value]);
  }

  /** The last step of an event. */
  lemma Finishes(env: Env, acts: seq<Act>, v: View, m: Sim, cur: State, o: Outcome)
    requires m.event.Some? && Run(env, 0, m.events).1 == Running
    requires Step(env, Run(env, 0, m.events).0, m.event.value) == (cur, o)
    requires Sorted(m.events) && (forall e :: e in m.events ==> e.now <= m.event.value.now)
    requires Time(cur) == m.event.value.now
    requires Rests(v, cur, o) && ObservedAfter(acts, m.events, m.event.value, cur)
    ensures Simulates(env, acts, v, Finish(m, cur))
  {
    HandledAfter(env, m.events, m.event.value);
    InTimeAfter(m, cur, v.phase);
    ObservedWhole(env, acts, v, m, cur, o);
  }

  lemma TakeSimulates(env: Env, acts: seq<Act>, v: View, a: Act, m: Sim)
    requires Simulates(env, acts, v, m) && a.Take? && Can(env, v, a)
    ensures Simulates(env, acts + [a], Do(env, v, a), m)
  {
    ObserveSnoc(acts, a);
    assert Bodies(m.events) + [] == Bodies(m.events);
  }

  lemma TimeTestSimulates(env: Env, acts: seq<Act>, v: View, a: Act, m: Sim) returns (m': Sim)
    requires Simulates(env, acts, v, m) && a.TimeTest? && Can(env, v, a) && env.cfg.interval >= 0
    ensures Simulates(env, acts + [a], Do(env, v, a), m')
  {
    ReasonSnoc(acts, a);
    ObserveSnoc(acts, a);
    var e := Msg(TestTime(env, m.cur, a.fires), v.hand);
    m' := m.(event := Some(e), reason := TimeLimit);
    assert TimeCheck(env, m.cur, e.now) == if a.fires then DoFlush(env, m.cur, TimeLimit, e.now) else m.cur;
  }

  lemma BytesTestSimulates(env: Env, acts: seq<Act>, v: View, a: Act, m: Sim) returns (m': Sim)
    requires Simulates(env, acts, v, m) && a.BytesTest? && Can(env, v, a)
    ensures Simulates(env, acts + [a], Do(env, v, a), m')
  {
    ReasonSnoc(acts, a);
    ObserveSnoc(acts, a);
    m' := m.(reason := BytesLimit);
  }

  lemma AppendSimulates(env: Env, acts: seq<Act>, v: View, a: Act, m: Sim) returns (m': Sim)
    requires Simulates(env, acts, v, m) && a.AppendMsg? && Can(env, v, a)
    ensures Simulates(env, acts + [a], Do(env, v, a), m')
  {
    var cur := Append(m.cur, v.hand, m.event.value.now);
    BodySnoc(m.cur.pending, Entry(v.hand, m.event.value.now));
    if env.cfg.msgLimit == v.count + 1 {
      AppendFlushes(env, acts, v, a, m, cur);
      m' := m.(reason := MsgLimit, cur := cur);
    } else {
      AppendRests(env, acts, v, a, m, cur);
      m' := Finish(m, cur);
    }
  }

  lemma AppendFlushes(env: Env, acts: seq<Act>, v: View, a: Act, m: Sim, cur: State)
    requires Simulates(env, acts, v, m) && a.AppendMsg? && Can(env, v, a) && env.cfg.msgLimit == v.count + 1
    requires cur == Append(m.cur, v.hand, m.event.value.now) && Body(cur.pending) == Body(m.cur.pending) + v.hand
    ensures Simulates(env, acts + [a], Do(env, v, a), m.(reason := MsgLimit, cur := cur))
  {
    ReasonSnoc(acts, a);
    Unobserved(env, acts, v, a, m);
    var e := m.event.value;
    assert Complete(env, ThenAppend, m.cur, e) == DoFlush(env, cur, MsgLimit, e.now);
  }

  lemma AppendRests(env: Env, acts: seq<Act>, v: View, a: Act, m: Sim, cur: State)
    requires Simulates(env, acts, v, m) && a.AppendMsg? && Can(env, v, a) && env.cfg.msgLimit != v.count + 1
    requires cur == Append(m.cur, v.hand, m.event.value.now) && Body(cur.pending) == Body(m.cur.pending) + v.hand
    ensures Simulates(env, acts + [a], Do(env, v, a), Finish(m, cur))
  {
    ObserveSnoc(acts, a);
    assert SentBuffers(acts) + [] == SentBuffers(acts);
    Finishes(env, acts + [a], Do(env, v, a), m, cur, Running);
  }

  lemma FlushBodiesSnoc(flushes: seq<Flush>, f: Flush)
    ensures FlushBodies(flushes + [f]) == FlushBodies(flushes) + [Body(f.batch)]
    ensures Reports(flushes + [f]) == Reports(flushes) + [Report(f.reason, |Body(f.batch)|, |f.batch|)]
  {
  }

  lemma CallSimulates(env: Env, acts: seq<Act>, v: View, a: Act, m: Sim) returns (m': Sim)
    requires Simulates(env, acts, v, m) && a.Call? && Can(env, v, a)
    requires |a.body| >= MINIMUM_BUFFER_SIZE ==> a.resp == env.answer(m.cur.sink.calls, a.body)
    ensures Simulates(env, acts + [a], Do(env, v, a), m')
  {
    m' := m.(cur := DoFlush(env, m.cur, m.reason, m.event.value.now));
    CallLogged(env, acts, v, a, m);
    CallSent(env, acts, v, a, m);
    ObserveSnoc(acts, a);
  }

  lemma CallSent(env: Env, acts: seq<Act>, v: View, a: Act, m: Sim)
    requires Simulates(env, acts, v, m) && a.Call? && Can(env, v, a)
    requires |a.body| >= MINIMUM_BUFFER_SIZE ==> a.resp == env.answer(m.cur.sink.calls, a.body)
    ensures var sink := FlushBuffer(env, m.cur.sink, Body(m.cur.pending), m.event.value.now);
            && sink.calls == |Responses(acts + [a])|
            && sink.sent == SentBuffers(acts + [a]) + Unsent(env, ExtractedBy(a.resp, a.body))
  {
    ObserveSnoc(acts, a);
    CallSends(env, m.cur.sink, a.body, a.resp, m.event.value.now);
    assert SentBuffers(acts) + [] == SentBuffers(acts);
  }

  lemma CallLogged(env: Env, acts: seq<Act>, v: View, a: Act, m: Sim)
    requires Simulates(env, acts, v, m) && a.Call? && Can(env, v, a)
    ensures var flushes := m.cur.flushes + [Flush(m.reason, m.cur.pending, m.event.value.now)];
            && FlushBodies(flushes) == FlushedBodies(acts + [a])
            && Reports(flushes) == FlushReports(acts + [a])
  {
    ObserveSnoc(acts, a);
    FlushBodiesSnoc(m.cur.flushes, Flush(m.reason, m.cur.pending, m.event.value.now));
  }

  lemma CallSends(env: Env, k: Sink, body: seq<byte>, resp: Response, now: int)
    requires |body| >= MINIMUM_BUFFER_SIZE ==> resp == env.answer(k.calls, body)
    ensures FlushBuffer(env, k, body, now).sent == k.sent + Unsent(env, ExtractedBy(resp, body))
  {
  }

  /** Sending or dropping the error buffer in hand. */
  lemma PostSimulates(env: Env, acts: seq<Act>, v: View, a: Act, m: Sim)
    requires Simulates(env, acts, v, m) && (a.Post? || a.Drop?) && Can(env, v, a)
    ensures Simulates(env, acts + [a], Do(env, v, a), m)
  {
    ObserveSnoc(acts, a);
    assert SentBuffers(acts) + [] == SentBuffers(acts);
    assert a.Post? ==> SentBuffers(acts) + [a.out] + [] == SentBuffers(acts) + [a.out];
  }

  lemma GetSimulates(env: Env, acts: seq<Act>, v: View, a: Act, m: Sim) returns (m': Sim)
    requires Simulates(env, acts, v, m) && a.Get? && Can(env, v, a)
    ensures Simulates(env, acts + [a], Do(env, v, a), m')
  {
    Unobserved(env, acts, v, a, m);
    if m.event.None? || v.phase.k.ThenTest? || v.phase.k.ThenAppend? {
      GetResumes(env, acts + [a], v, a, m);
      m' := m;
    } else {
      m' := GetFinishes(env, acts + [a], v, a, m);
    }
  }

  lemma GetResumes(env: Env, acts: seq<Act>, v: View, a: Act, m: Sim)
    requires Simulates(env, acts, v, m) && a.Get? && Can(env, v, a)
    requires m.event.None? || v.phase.k.ThenTest? || v.phase.k.ThenAppend?
    ensures Simulates(env, acts, Do(env, v, a), m)
  {
  }

  lemma GetFinishes(env: Env, acts: seq<Act>, v: View, a: Act, m: Sim) returns (m': Sim)
    requires Simulates(env, acts, v, m) && a.Get? && Can(env, v, a)
    requires m.event.Some? && (v.phase.k.ThenSelect? || v.phase.k.ThenReturn?)
    ensures Simulates(env, acts, Do(env, v, a), m')
  {
    var k := v.phase.k;
    var cur := Complete(env, k, m.cur, m.event.value);
    assert SentBuffers(acts) + [] == SentBuffers(acts);
    Finishes(env, acts, Do(env, v, a), m, cur, if k.ThenReturn? then Stopped else Running);
    m' := Finish(m, cur);
  }

  /** An event that is handled at once, without a flush: an idle tick, or one that fails. */
  lemma AtOnce(env: Env, acts: seq<Act>, v: View, v': View, m: Sim, e: Event, cur: State, o: Outcome) returns (m': Sim)
    requires Simulates(env, acts, v, m) && v.phase.Selecting? && e.Tick? && Step(env, m.cur, e) == (cur, o)
    requires Rests(v', cur, o) && e.now == Time(m.cur) == Time(cur)
    requires cur.sink.calls == m.cur.sink.calls && cur.sink.sent == m.cur.sink.sent && cur.flushes == m.cur.flushes
    ensures Simulates(env, acts, v', m')
  {
    assert SentBuffers(acts) + [] == SentBuffers(acts);
    var begun := m.(event := Some(e));
    Finishes(env, acts, v', begun, cur, o);
    m' := Finish(begun, cur);
  }

  /** A step that is not observed. */
  lemma Unobserved(env: Env, acts: seq<Act>, v: View, a: Act, m: Sim)
    requires Simulates(env, acts, v, m) && !a.Take? && !a.Call? && !a.Post? && !v.phase.Flushing?
    ensures Simulates(env, acts + [a], v, m)
  {
    ObserveSnoc(acts, a);
  }

  lemma IdleSimulates(env: Env, acts: seq<Act>, v: View, a: Act, m: Sim) returns (m': Sim)
    requires Simulates(env, acts, v, m) && a.TickIdle? && Can(env, v, a) && env.cfg.interval >= 0
    ensures Simulates(env, acts + [a], Do(env, v, a), m')
  {
    Unobserved(env, acts, v, a, m);
    var e := Tick(Time(m.cur), true);
    assert TimeCheck(env, m.cur, e.now) == m.cur;
    m' := AtOnce(env, acts + [a], v, v, m, e, Step(env, m.cur, e).0, Running);
  }

  lemma FailSimulates(env: Env, acts: seq<Act>, v: View, a: Act, m: Sim) returns (m': Sim)
    requires Simulates(env, acts, v, m) && a.Fail? && Can(env, v, a)
    ensures Simulates(env, acts + [a], Do(env, v, a), m')
  {
    Unobserved(env, acts, v, a, m);
    var e := Tick(Time(m.cur), false);
    m' := AtOnce(env, acts + [a], v, Do(env, v, a), m, e, CloseErrors(env, m.cur), Errored);
  }

  lemma TickSimulates(env: Env, acts: seq<Act>, v: View, a: Act, m: Sim) returns (m': Sim)
    requires Simulates(env, acts, v, m) && a.TickFlush? && Can(env, v, a) && env.cfg.interval >= 0
    ensures Simulates(env, acts + [a], Do(env, v, a), m')
  {
    ReasonSnoc(acts, a);
    ObserveSnoc(acts, a);
    var e := Tick(TestTime(env, m.cur, true), true);
    m' := m.(event := Some(e), reason := TimeLimit);
    assert TimeCheck(env, m.cur, e.now) == DoFlush(env, m.cur, TimeLimit, e.now);
    assert Step(env, m.cur, e).0 == DoFlush(env, m.cur, TimeLimit, e.now);
  }

  lemma CloseSimulates(env: Env, acts: seq<Act>, v: View, a: Act, m: Sim) returns (m': Sim)
    requires Simulates(env, acts, v, m) && a.SeeClosed? && Can(env, v, a)
    ensures Simulates(env, acts + [a], Do(env, v, a), m')
  {
    ReasonSnoc(acts, a);
    ObserveSnoc(acts, a);
    m' := m.(event := Some(Closed(Time(m.cur))), reason := Shutdown);
  }

  lemma StepSimulates(env: Env, acts: seq<Act>, v: View, a: Act, m: Sim) returns (m': Sim)
    requires Simulates(env, acts, v, m) && Can(env, v, a) && env.cfg.interval >= 0
    requires a.Call? && |a.body| >= MINIMUM_BUFFER_SIZE ==> a.resp == env.answer(m.cur.sink.calls, a.body)
    ensures Simulates(env, acts + [a], Do(env, v, a), m')
  {
    m' := m;
    match a {
      case Stay =>
        ObserveSnoc(acts, a);
        ReasonSnoc(acts, a);
      case Take(_) => TakeSimulates(env, acts, v, a, m);
      case TimeTest(_) => m' := TimeTestSimulates(env, acts, v, a, m);
      case BytesTest => m' := BytesTestSimulates(env, acts, v, a, m);
      case AppendMsg => m' := AppendSimulates(env, acts, v, a, m);
      case Call(_, _, _) => m' := CallSimulates(env, acts, v, a, m);
      case Drop => PostSimulates(env, acts, v, a, m);
      case Post(_) => PostSimulates(env, acts, v, a, m);
      case Get => m' := GetSimulates(env, acts, v, a, m);
      case TickIdle => m' := IdleSimulates(env, acts, v, a, m);
      case Fail => m' := FailSimulates(env, acts, v, a, m);
      case TickFlush => m' := TickSimulates(env, acts, v, a, m);
      case SeeClosed => m' := CloseSimulates(env, acts, v, a, m);
    }
  }

  lemma {:induction false} PlaySimulates(env: Env, acts: seq<Act>) returns (m: Sim)
    requires Playable(env, acts) && Serves(env, acts) && env.cfg.interval >= 0
    ensures Simulates(env, acts, Play(env, acts), m)
    decreases |acts|
  {
    if acts == [] {
      m := Sim([], None, Shutdown, Initial(env, 0));
    } else {
      var front, a := acts[..|acts| - 1], acts[|acts| - 1];
      assert acts == front + [a];
      ObserveSnoc(front, a);
      assert forall n: nat :: n < |Responses(front)| ==> Responses(acts)[n] == Responses(front)[n];
      m := PlaySimulates(env, front);
      m := StepSimulates(env, front, Play(env, front), a, m);
    }
  }

  /** The steps of an indexer, whatever happens between them, make up a run of the select loop:
      for some schedule in the order of time, with the same messages, the loop has flushed the
      same bodies for the same reasons, sent the same error buffers, ended the same way, and,
      between two events, holds the same messages. */
  lemma StepsAreARun(env: Env, acts: seq<Act>) returns (events: seq<Event>)
    requires Playable(env, acts) && Serves(env, acts) && env.cfg.interval >= 0
    requires var p := Play(env, acts).phase; p.Selecting? || p.Returned? || p.Broken?
    ensures var v, (s, o) := Play(env, acts), Run(env, 0, events);
            && Whole(env, events) && Sorted(events) && Bodies(events) == TakenMessages(acts)
            && FlushBodies(s.flushes) == FlushedBodies(acts) && Reports(s.flushes) == FlushReports(acts)
            && s.sink.sent == SentBuffers(acts)
            && o == OutcomeOf(v.phase)
            && (v.phase.Selecting? ==> Body(s.pending) == v.buffer && |s.pending| == v.count)
  {
    var m := PlaySimulates(env, acts);
    events := m.events;
    assert SentBuffers(acts) + [] == SentBuffers(acts) && Bodies(events) + [] == Bodies(events);
  }
}
