/** The converse of Stepwise: whatever the select loop does on a schedule, its separate steps can
    do. */
module Unfolding {
  import opened Lines
  import opened Documents
  import opened IndexerSpec
  import opened Stepwise

  /** The response to the next bulk call; a body under five bytes makes none. */
  function NextResponse(env: Env, calls: nat, body: seq<byte>): Response {
    if |body| < MINIMUM_BUFFER_SIZE then TransportError else env.answer(calls, body)
  }

  /** Each bulk call got the response that env gives to it. */
  predicate Answered(env: Env, acts: seq<Act>) {
    forall j :: 0 <= j < |acts| && acts[j].Call? ==>
      acts[j].resp == NextResponse(env, |Responses(acts[..j])|, acts[j].body)
  }

  predicate NoStay(acts: seq<Act>) {
    Stay !in acts
  }

  /** acts lead to phase p with message hand, and have done what state s says. */
  ghost predicate Does(env: Env, acts: seq<Act>, s: State, p: Phase, hand: seq<byte>) {
    && Playable(env, acts) && Answered(env, acts) && NoStay(acts)
    && Play(env, acts) == View(p, Play(env, acts).count, s.lastFlush.At?, Play(env, acts).buffer, hand, None)
    && (KeepsPending(p) ==> Play(env, acts).count == |s.pending| && Play(env, acts).buffer == Body(s.pending))
    && (p.Flushed? ==> Play(env, acts).buffer == [] && s.pending == [])
    && Logged(acts, s)
  }

  predicate Logged(acts: seq<Act>, s: State) {
    && s.sink.calls == |Responses(acts)| && s.sink.sent == SentBuffers(acts)
    && FlushBodies(s.flushes) == FlushedBodies(acts) && Reports(s.flushes) == FlushReports(acts)
  }

  lemma AddAct(env: Env, acts: seq<Act>, a: Act)
    requires Playable(env, acts) && Can(env, Play(env, acts), a)
    ensures Playable(env, acts + [a]) && Play(env, acts + [a]) == Do(env, Play(env, acts), a)
  {
    assert (acts + [a])[..|acts|] == acts;
  }

  /** A step that is no bulk call adds nothing to answer. */
  lemma AddQuiet(env: Env, acts: seq<Act>, a: Act)
    requires Answered(env, acts) && NoStay(acts) && !a.Call? && !a.Stay?
    ensures Answered(env, acts + [a]) && NoStay(acts + [a])
    ensures Responses(acts + [a]) == Responses(acts) && FlushedBodies(acts + [a]) == FlushedBodies(acts)
    ensures FlushReports(acts + [a]) == FlushReports(acts)
    ensures TakenMessages(acts + [a]) == TakenMessages(acts) + if a.Take? then [a.body] else []
    ensures SentBuffers(acts + [a]) == SentBuffers(acts) + if a.Post? then [a.out] else []
  {
    ObserveSnoc(acts, a);
    AnsweredSnoc(env, acts, a);
  }

  /** A step that moves on within an event. */
  lemma MovesOn(env: Env, acts: seq<Act>, s: State, p: Phase, hand: seq<byte>, a: Act, p': Phase)
    requires Does(env, acts, s, p, hand) && Can(env, Play(env, acts), a)
    requires a.TimeTest? || a.BytesTest? || a.TickIdle? || a.TickFlush? || a.SeeClosed? || a.Fail?
    requires Do(env, Play(env, acts), a).phase == p' && (KeepsPending(p') ==> KeepsPending(p)) && !p'.Flushed?
    ensures Does(env, acts + [a], s, p', hand)
    ensures TakenMessages(acts + [a]) == TakenMessages(acts)
  {
    AddAct(env, acts, a);
    AddQuiet(env, acts, a);
  }

  // ------------------------------------------------------------------ flush

  lemma AddCall(env: Env, acts: seq<Act>, s: State, body: seq<byte>, count: nat)
    requires Answered(env, acts) && NoStay(acts) && s.sink.calls == |Responses(acts)|
    ensures var more := acts + [Call(body, count, NextResponse(env, s.sink.calls, body))];
            && Answered(env, more) && NoStay(more)
            && |Responses(more)| == if |body| < MINIMUM_BUFFER_SIZE then s.sink.calls else s.sink.calls + 1
  {
    var a := Call(body, count, NextResponse(env, s.sink.calls, body));
    ObserveSnoc(acts, a);
    AnsweredSnoc(env, acts, a);
  }

  lemma AnsweredSnoc(env: Env, acts: seq<Act>, a: Act)
    requires Answered(env, acts)
    requires a.Call? ==> a.resp == NextResponse(env, |Responses(acts)|, a.body)
    ensures Answered(env, acts + [a])
  {
    var more := acts + [a];
    forall j | 0 <= j < |more| && more[j].Call?
      ensures more[j].resp == NextResponse(env, |Responses(more[..j])|, more[j].body)
    {
      if j < |acts| {
        assert more[..j] == acts[..j];
      } else {
        assert more[..j] == acts;
      }
    }
  }

  /** The bulk call of a flush: afterwards the buffer of failed documents is in hand. */
  lemma CallDoes(env: Env, acts: seq<Act>, s: State, k: After, hand: seq<byte>, now: int)
    returns (more: seq<Act>, s': State)
    requires Does(env, acts, s, Flushing(k), hand)
    ensures s' == DoFlush(env, s, LastReason(acts), now)
    ensures Playable(env, more) && Answered(env, more) && NoStay(more)
    ensures var v := Play(env, more);
            && v == View(Flushed(k), v.count, true, [], hand, v.errors)
            && s'.sink.calls == |Responses(more)| && s'.sink.sent == SentBuffers(more) + Unsent(env, v.errors)
    ensures FlushBodies(s'.flushes) == FlushedBodies(more) && Reports(s'.flushes) == FlushReports(more)
    ensures TakenMessages(more) == TakenMessages(acts)
  {
    var v := Play(env, acts);
    var a := Call(v.buffer, v.count, NextResponse(env, s.sink.calls, v.buffer));
    more, s' := acts + [a], DoFlush(env, s, LastReason(acts), now);
    AddAct(env, acts, a);
    AddCall(env, acts, s, v.buffer, v.count);
    ObserveSnoc(acts, a);
    FlushBodiesSnoc(s.flushes, Flush(LastReason(acts), s.pending, now));
    CallSends(env, s.sink, v.buffer, a.resp, now);
  }

  /** Handing on the failed documents, or dropping an empty buffer. */
  lemma HandsOn(env: Env, acts: seq<Act>, s: State, k: After, hand: seq<byte>) returns (more: seq<Act>)
    requires Playable(env, acts) && Answered(env, acts) && NoStay(acts)
    requires var v := Play(env, acts);
             && v == View(Flushed(k), v.count, true, [], hand, v.errors)
             && s.sink.calls == |Responses(acts)| && s.sink.sent == SentBuffers(acts) + Unsent(env, v.errors)
    requires FlushBodies(s.flushes) == FlushedBodies(acts) && Reports(s.flushes) == FlushReports(acts)
    requires s.lastFlush.At? && s.pending == []
    ensures Does(env, more, s, Flushed(k), hand) && TakenMessages(more) == TakenMessages(acts)
  {
    var errors := Play(env, acts).errors;
    if errors.None? {
      more := acts;
    } else {
      var a := if WantedBytes(env, errors.value) then Post(errors.value) else Drop;
      more := acts + [a];
      AddAct(env, acts, a);
      AddQuiet(env, acts, a);
    }
  }

  lemma GetDoes(env: Env, acts: seq<Act>, s: State, k: After, hand: seq<byte>)
    requires Does(env, acts, s, Flushed(k), hand)
    ensures Does(env, acts + [Get], s, Resumed(k), hand)
    ensures TakenMessages(acts + [Get]) == TakenMessages(acts)
  {
    AddAct(env, acts, Get);
    AddQuiet(env, acts, Get);
    assert Body([]) == [];
  }

  lemma FlushDoes(env: Env, acts: seq<Act>, s: State, k: After, hand: seq<byte>, reason: Reason, now: int)
    returns (more: seq<Act>)
    requires Does(env, acts, s, Flushing(k), hand) && LastReason(acts) == reason
    ensures Does(env, more, DoFlush(env, s, reason, now), Resumed(k), hand)
    ensures TakenMessages(more) == TakenMessages(acts)
  {
    var called, s' := CallDoes(env, acts, s, k, hand, now);
    var handed := HandsOn(env, called, s', k, hand);
    GetDoes(env, handed, s', k, hand);
    more := handed + [Get];
  }

  // ----------------------------------------------------------------- events

  lemma TakeDoes(env: Env, acts: seq<Act>, s: State, m: seq<byte>)
    requires Does(env, acts, s, Selecting, [])
    ensures Does(env, acts + [Take(m)], s, Timing, m)
    ensures TakenMessages(acts + [Take(m)]) == TakenMessages(acts) + [m]
  {
    AddAct(env, acts, Take(m));
    AddQuiet(env, acts, Take(m));
  }

  lemma TimeTestDoes(env: Env, acts: seq<Act>, s: State, m: seq<byte>, now: int) returns (more: seq<Act>)
    requires Does(env, acts, s, Timing, m)
    ensures Does(env, more, TimeCheck(env, s, now), Testing, m) && TakenMessages(more) == TakenMessages(acts)
  {
    var a := TimeTest(TimeUp(env.cfg, s.lastFlush, now) && 0 < |s.pending|);
    more := acts + [a];
    ReasonSnoc(acts, a);
    if a.fires {
      MovesOn(env, acts, s, Timing, m, a, Flushing(ThenTest));
      more := FlushDoes(env, more, s, ThenTest, m, TimeLimit, now);
    } else {
      MovesOn(env, acts, s, Timing, m, a, Testing);
    }
  }

  lemma BytesTestDoes(env: Env, acts: seq<Act>, s: State, m: seq<byte>, now: int) returns (more: seq<Act>)
    requires Does(env, acts, s, Testing, m)
    ensures Does(env, more, BytesCheck(env, s, m, now), Appending, m) && TakenMessages(more) == TakenMessages(acts)
  {
    more := acts + [BytesTest];
    ReasonSnoc(acts, BytesTest);
    if OverBytes(env.cfg, |Body(s.pending)|, |m|) {
      MovesOn(env, acts, s, Testing, m, BytesTest, Flushing(ThenAppend));
      more := FlushDoes(env, more, s, ThenAppend, m, BytesLimit, now);
    } else {
      MovesOn(env, acts, s, Testing, m, BytesTest, Appending);
    }
  }

  lemma AppendStep(env: Env, acts: seq<Act>, s: State, m: seq<byte>, now: int)
    requires Does(env, acts, s, Appending, m)
    ensures var p := if env.cfg.msgLimit == |s.pending| + 1 then Flushing(ThenSelect) else Selecting;
            Does(env, acts + [AppendMsg], Append(s, m, now), p, [])
    ensures TakenMessages(acts + [AppendMsg]) == TakenMessages(acts)
  {
    AddAct(env, acts, AppendMsg);
    AddQuiet(env, acts, AppendMsg);
    BodySnoc(s.pending, Entry(m, now));
  }

  lemma AppendDoes(env: Env, acts: seq<Act>, s: State, m: seq<byte>, now: int) returns (more: seq<Act>)
    requires Does(env, acts, s, Appending, m)
    ensures Does(env, more, CountCheck(env, Append(s, m, now), now), Selecting, [])
    ensures TakenMessages(more) == TakenMessages(acts)
  {
    more := acts + [AppendMsg];
    AppendStep(env, acts, s, m, now);
    ReasonSnoc(acts, AppendMsg);
    if env.cfg.msgLimit == |s.pending| + 1 {
      more := FlushDoes(env, more, Append(s, m, now), ThenSelect, [], MsgLimit, now);
    }
  }

  lemma MessageDoes(env: Env, acts: seq<Act>, s: State, m: seq<byte>, now: int) returns (more: seq<Act>)
    requires Does(env, acts, s, Selecting, [])
    ensures Does(env, more, Bulk(env, s, Some(m), now), Selecting, [])
    ensures TakenMessages(more) == TakenMessages(acts) + [m]
  {
    TakeDoes(env, acts, s, m);
    more := TimeTestDoes(env, acts + [Take(m)], s, m, now);
    var t := TimeCheck(env, s, now);
    more := BytesTestDoes(env, more, t, m, now);
    more := AppendDoes(env, more, BytesCheck(env, t, m, now), m, now);
  }

  /** Does looks at neither the ticker nor the closing of the error channel. */
  lemma OtherSink(env: Env, acts: seq<Act>, s: State, s': State, p: Phase, hand: seq<byte>)
    requires Does(env, acts, s, p, hand)
    requires s' == s.(sink := s.sink.(closed := s'.sink.closed, deadline := s'.sink.deadline))
    ensures Does(env, acts, s', p, hand)
  {
  }

  lemma TickStarts(env: Env, acts: seq<Act>, s: State)
    requires Does(env, acts, s, Selecting, []) && s.pending != []
    ensures Does(env, acts + [TickFlush], s, Flushing(ThenSelect), []) && LastReason(acts + [TickFlush]) == TimeLimit
    ensures TakenMessages(acts + [TickFlush]) == TakenMessages(acts)
  {
    ReasonSnoc(acts, TickFlush);
    MovesOn(env, acts, s, Selecting, [], TickFlush, Flushing(ThenSelect));
  }

  lemma TickDoes(env: Env, acts: seq<Act>, s: State, now: int) returns (more: seq<Act>)
    requires Does(env, acts, s, Selecting, [])
    ensures Does(env, more, TimeCheck(env, s, now), Selecting, []) && TakenMessages(more) == TakenMessages(acts)
  {
    if TimeUp(env.cfg, s.lastFlush, now) && 0 < |s.pending| {
      TickStarts(env, acts, s);
      more := FlushDoes(env, acts + [TickFlush], s, ThenSelect, [], TimeLimit, now);
    } else {
      MovesOn(env, acts, s, Selecting, [], TickIdle, Selecting);
      more := acts + [TickIdle];
    }
  }

  lemma CloseDoes(env: Env, acts: seq<Act>, s: State, now: int) returns (more: seq<Act>)
    requires Does(env, acts, s, Selecting, [])
    ensures Does(env, more, DoFlush(env, s, Shutdown, now), Returned, []) && TakenMessages(more) == TakenMessages(acts)
  {
    ReasonSnoc(acts, SeeClosed);
    MovesOn(env, acts, s, Selecting, [], SeeClosed, Flushing(ThenReturn));
    more := FlushDoes(env, acts + [SeeClosed], s, ThenReturn, [], Shutdown, now);
  }

  lemma FailDoes(env: Env, acts: seq<Act>, s: State)
    requires Does(env, acts, s, Selecting, [])
    ensures Does(env, acts + [Fail], s, Broken, []) && TakenMessages(acts + [Fail]) == TakenMessages(acts)
  {
    AddAct(env, acts, Fail);
    AddQuiet(env, acts, Fail);
  }

  function PhaseAfter(o: Outcome): Phase {
    match o
    case Running => Selecting
    case Stopped => Returned
    case Errored => Broken
  }

  lemma EventDoes(env: Env, acts: seq<Act>, s: State, e: Event) returns (more: seq<Act>)
    requires Does(env, acts, s, Selecting, [])
    ensures Does(env, more, Step(env, s, e).0, PhaseAfter(Step(env, s, e).1), [])
    ensures TakenMessages(more) == TakenMessages(acts) + if e.Msg? then [e.body] else []
  {
    match e {
      case Msg(now, body) => more := MessageDoes(env, acts, s, body, now);
      case Tick(now, healthy) =>
        if healthy {
          more := TickDoes(env, acts, s, now);
          OtherSink(env, more, TimeCheck(env, s, now), Step(env, s, e).0, Selecting, []);
        } else {
          FailDoes(env, acts, s);
          more := acts + [Fail];
          OtherSink(env, more, s, CloseErrors(env, s), Broken, []);
        }
      case Closed(now) =>
        more := CloseDoes(env, acts, s, now);
        OtherSink(env, more, DoFlush(env, s, Shutdown, now), Step(env, s, e).0, Returned, []);
    }
  }

  /** The schedule does not go on after the loop has returned. */
  predicate WholeFrom(env: Env, start: int, events: seq<Event>) {
    events == [] || Run(env, start, events[..|events| - 1]).1 == Running
  }

  lemma StartDoes(env: Env, start: int)
    ensures Does(env, [Get], Initial(env, start), Selecting, []) && TakenMessages([Get]) == []
  {
    assert [] + [Get] == [Get] && Body([]) == [];
    AddAct(env, [], Get);
    AddQuiet(env, [], Get);
  }

  lemma {:induction false} RunningFront(env: Env, start: int, events: seq<Event>)
    requires events != [] && Run(env, start, events).1 == Running
    ensures Run(env, start, events[..|events| - 1]).1 == Running
  {
  }

  /** What the select loop does on any schedule, its steps can do one after the other. */
  lemma {:induction false} RunDoes(env: Env, start: int, events: seq<Event>) returns (acts: seq<Act>)
    requires WholeFrom(env, start, events)
    ensures var (s, o) := Run(env, start, events); Does(env, acts, s, PhaseAfter(o), [])
    ensures TakenMessages(acts) == Bodies(events)
    decreases |events|
  {
    if events == [] {
      StartDoes(env, start);
      acts := [Get];
    } else {
      var front, e := events[..|events| - 1], events[|events| - 1];
      if front != [] {
        RunningFront(env, start, front);
      }
      var before := RunDoes(env, start, front);
      acts := EventDoes(env, before, Run(env, start, front).0, e);
    }
  }
}
