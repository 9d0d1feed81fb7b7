/** What becomes of each document, read off the steps of a run: what was loaded, and how
    Elasticsearch and Kafka answered. The ledger of the pipeline is proved to say exactly that. */
module Outcomes {
  import opened Documents
  import opened Pipeline

  datatype Fate = Consumed | Accepted | Refused | Republished | LostBatch | Dropped | LostProduce | LostIndexer

  function Copies(docs: seq<WfDoc>, d: WfDoc): nat {
    multiset(docs)[d]
  }

  // ------------------------------------------------- what the answers say

  /** The response reports document j of the body as failed. */
  predicate ReportsFailed(resp: Response, j: nat)
    requires resp.Decoded?
  {
    resp.hasErrors && j < |resp.items| && HasErrorType(resp.items[j])
  }

  /** How many of the first n documents equal d and are reported as failed, or are not. */
  function CountReported(docs: seq<WfDoc>, resp: Response, d: WfDoc, n: nat, failed: bool): nat
    requires resp.Decoded? && n <= |docs|
  {
    if n == 0 then 0 else
    CountReported(docs, resp, d, n - 1, failed)
    + if docs[n - 1] == d && ReportsFailed(resp, n - 1) == failed then 1 else 0
  }

  /** The copies of d that a bulk call settles. A body under five bytes is not sent. */
  function CallFate(f: Fate, docs: seq<WfDoc>, resp: Response, d: WfDoc): nat {
    if |Render(docs)| < 5 then 0
    else if !resp.Decoded? then if f.LostBatch? then Copies(docs, d) else 0
    else if f.Accepted? then CountReported(docs, resp, d, |docs|, false)
    else if f.Refused? then CountReported(docs, resp, d, |docs|, true)
    else 0
  }

  function ProduceFate(f: Fate, docs: seq<WfDoc>, result: ProduceResult, d: WfDoc): nat {
    match result
    case Produced => if f.Republished? then Copies(docs, d) else 0
    case ProduceError => if f.LostProduce? then Copies(docs, d) else 0
    case QueueFull => 0
  }

  /** The copies of d that meet fate f in a step, by the buffers loaded there. */
  function Happens(f: Fate, c: Setup, s: State, l: Label, d: WfDoc): nat
    requires Enabled(c, s, l)
  {
    match l
    case Consumer(PollMessage(_, docs)) => if f.Consumed? then Copies(docs, d) else 0
    case Loop(i, TickFail) => if f.LostIndexer? then Copies(Load(s.mem, s.lanes[i].ptr), d) else 0
    case Flush(i, BulkCall(resp, _)) => CallFate(f, Load(s.mem, s.lanes[i].ptr), resp, d)
    case Flush(i, DropErrors) => if f.Dropped? then Copies(Load(s.mem, s.lanes[i].pc.out), d) else 0
    case Producer(Produce(result)) => ProduceFate(f, Load(s.mem, s.ppc.msg), result, d)
    case Producer(Retry(ok)) => ProduceFate(f, Load(s.mem, s.ppc.msg), if ok then Produced else ProduceError, d)
    case _ => 0
  }

  /** Over a whole run. */
  ghost function Count(f: Fate, c: Setup, s: State, trace: seq<Label>, d: WfDoc): nat
    decreases |trace|
  {
    if trace == [] || !Enabled(c, s, trace[0]) then 0
    else Happens(f, c, s, trace[0], d) + Count(f, c, Next(c, s, trace[0]), trace[1..], d)
  }

  // ------------------------------------------------------------- the ledger

  /** What the ledger says; it has no entry for documents that are only reported. */
  function Booked(g: Ledger, f: Fate, d: WfDoc): nat {
    match f
    case Consumed => g.consumed[d]
    case Accepted => g.accepted[d]
    case Refused => 0
    case Republished => g.republished[d]
    case LostBatch => g.lostBatch[d]
    case Dropped => g.dropped[d]
    case LostProduce => g.lostProduce[d]
    case LostIndexer => g.lostIndexer[d]
  }

  /** A step books exactly what happens in it. */
  predicate Books(g: Ledger, g': Ledger, f: Fate, d: WfDoc, happens: nat) {
    f.Refused? || Booked(g', f, d) == Booked(g, f, d) + happens
  }

  lemma CopiesSnoc(docs: seq<WfDoc>, n: nat, d: WfDoc)
    requires n < |docs|
    ensures Copies(docs[..n + 1], d) == Copies(docs[..n], d) + if docs[n] == d then 1 else 0
  {
    assert docs[..n + 1] == docs[..n] + [docs[n]];
  }

  lemma {:induction false} ReportedOrNot(docs: seq<WfDoc>, resp: Response, d: WfDoc, n: nat)
    requires resp.Decoded? && n <= |docs|
    ensures CountReported(docs, resp, d, n, true) + CountReported(docs, resp, d, n, false) == Copies(docs[..n], d)
  {
    if n > 0 {
      ReportedOrNot(docs, resp, d, n - 1);
      CopiesSnoc(docs, n - 1, d);
    }
  }

  /** What is reported of the first documents is what their verdicts filter. */
  lemma {:induction false} ReportedIsFiltered(docs: seq<WfDoc>, resp: Response, d: WfDoc, v: seq<bool>)
    requires resp.Decoded? && |v| <= |docs| && forall j :: 0 <= j < |v| ==> v[j] == ReportsFailed(resp, j)
    ensures CountReported(docs, resp, d, |v|, true) == Copies(Filter(docs, v), d)
  {
    if v != [] {
      ReportedIsFiltered(docs, resp, d, v[..|v| - 1]);
    }
  }

  lemma VerdictsReport(resp: Response)
    requires resp.Decoded? && resp.hasErrors
    ensures var v := Verdicts(resp.items);
            |v| == |resp.items| && forall j :: 0 <= j < |v| ==> v[j] == ReportsFailed(resp, j)
  {
    forall j | 0 <= j < |resp.items| ensures Verdicts(resp.items)[j] == ReportsFailed(resp, j) {
      FailedHasErrorType(resp.items[j]);
    }
  }

  lemma {:induction false} NothingBeyond(docs: seq<WfDoc>, resp: Response, d: WfDoc, from: nat, n: nat)
    requires resp.Decoded? && from <= n <= |docs| && (resp.hasErrors ==> |resp.items| <= from)
    ensures CountReported(docs, resp, d, n, true) == CountReported(docs, resp, d, from, true)
    decreases n - from
  {
    if from < n {
      NothingBeyond(docs, resp, d, from, n - 1);
    }
  }

  /** A decoded answer splits the body into what it reports and the rest. */
  lemma AnswerSplits(docs: seq<WfDoc>, resp: Response, d: WfDoc)
    requires resp.Decoded? && Answers(resp, docs)
    ensures resp.hasErrors ==>
              && CountReported(docs, resp, d, |docs|, true) == Copies(Failed(docs, resp.items), d)
              && CountReported(docs, resp, d, |docs|, false) == Copies(Passed(docs, Verdicts(resp.items)), d)
    ensures !resp.hasErrors ==>
              && CountReported(docs, resp, d, |docs|, true) == 0
              && CountReported(docs, resp, d, |docs|, false) == Copies(docs, d)
  {
    var n := if resp.hasErrors then |resp.items| else 0;
    ReportedOrNot(docs, resp, d, |docs|);
    assert docs[..|docs|] == docs;
    NothingBeyond(docs, resp, d, n, |docs|);
    if resp.hasErrors {
      VerdictsReport(resp);
      ReportedIsFiltered(docs, resp, d, Verdicts(resp.items));
      FailedIsFilter(docs, resp.items);
      FilterPartitions(docs, Verdicts(resp.items));
    }
  }

  /** The ledger after a bulk call. */
  lemma CallLedger(s: State, i: nat, resp: Response, get: BufId)
    requires At(s, i) && s.lanes[i].pc.IFlush? && Answers(resp, Load(s.mem, s.lanes[i].ptr))
    ensures var g, g', docs := s.ledger, DoBulkCall(s, i, resp, get).ledger, Load(s.mem, s.lanes[i].ptr);
            g' == if |Render(docs)| < 5 then g
                  else if !resp.Decoded? then g.(lostBatch := g'.lostBatch)
                  else g.(accepted := g'.accepted)
  {
  }

  lemma CallLoses(s: State, i: nat, resp: Response, get: BufId, d: WfDoc)
    requires At(s, i) && s.lanes[i].pc.IFlush? && !resp.Decoded? && |Render(Load(s.mem, s.lanes[i].ptr))| >= 5
    ensures DoBulkCall(s, i, resp, get).ledger.lostBatch[d] ==
            s.ledger.lostBatch[d] + Copies(Load(s.mem, s.lanes[i].ptr), d)
  {
  }

  lemma CallAccepts(s: State, i: nat, resp: Response, get: BufId, d: WfDoc)
    requires At(s, i) && s.lanes[i].pc.IFlush? && Answers(resp, Load(s.mem, s.lanes[i].ptr))
    requires resp.Decoded? && |Render(Load(s.mem, s.lanes[i].ptr))| >= 5
    ensures var docs := Load(s.mem, s.lanes[i].ptr);
            DoBulkCall(s, i, resp, get).ledger.accepted[d] ==
            s.ledger.accepted[d] + CountReported(docs, resp, d, |docs|, false)
  {
    AnswerSplits(Load(s.mem, s.lanes[i].ptr), resp, d);
  }

  lemma CallBooks(s: State, i: nat, resp: Response, get: BufId, f: Fate, d: WfDoc)
    requires At(s, i) && s.lanes[i].pc.IFlush? && Answers(resp, Load(s.mem, s.lanes[i].ptr))
    ensures Books(s.ledger, DoBulkCall(s, i, resp, get).ledger, f, d, CallFate(f, Load(s.mem, s.lanes[i].ptr), resp, d))
  {
    CallLedger(s, i, resp, get);
    if |Render(Load(s.mem, s.lanes[i].ptr))| >= 5 {
      if resp.Decoded? {
        CallAccepts(s, i, resp, get, d);
      } else {
        CallLoses(s, i, resp, get, d);
      }
    }
  }

  lemma SettleBooks(s: State, m: BufId, ok: bool, f: Fate, d: WfDoc)
    ensures Books(s.ledger, Settle(s, m, ok).ledger, f, d,
                  ProduceFate(f, Load(s.mem, m), if ok then Produced else ProduceError, d))
  {
  }

  lemma NothingBooked(g: Ledger, f: Fate, d: WfDoc)
    ensures Books(g, g, f, d, 0)
  {
  }

  lemma FlushBooks(c: Setup, s: State, i: nat, fs: FlushStep, f: Fate, d: WfDoc)
    requires FlushCan(c, s, i, fs)
    ensures Books(s.ledger, FlushNext(c, s, i, fs).ledger, f, d, Happens(f, c, s, Flush(i, fs), d))
  {
    match fs {
      case BulkCall(resp, get) => CallBooks(s, i, resp, get, f, d);
      case _ =>
    }
  }

  lemma LoopBooks(c: Setup, s: State, i: nat, ls: LoopStep, f: Fate, d: WfDoc)
    requires LoopCan(s, i, ls)
    ensures Books(s.ledger, LoopNext(c, s, i, ls).ledger, f, d, Happens(f, c, s, Loop(i, ls), d))
  {
    if !ls.TickFail? {
      assert LoopNext(c, s, i, ls).ledger == s.ledger;
      NothingBooked(s.ledger, f, d);
    }
  }

  lemma ConsumerBooks(c: Setup, s: State, cs: ConsumerStep, f: Fate, d: WfDoc)
    requires ConsumerCan(c, s, cs)
    ensures Books(s.ledger, ConsumerNext(c, s, cs).ledger, f, d, Happens(f, c, s, Consumer(cs), d))
  {
    if !cs.PollMessage? {
      assert ConsumerNext(c, s, cs).ledger == s.ledger;
      NothingBooked(s.ledger, f, d);
    }
  }

  lemma ProducerBooks(c: Setup, s: State, ps: ProducerStep, f: Fate, d: WfDoc)
    requires ProducerCan(s, ps)
    ensures Books(s.ledger, ProducerNext(s, ps).ledger, f, d, Happens(f, c, s, Producer(ps), d))
  {
    match ps {
      case Produce(result) =>
        if result.QueueFull? {
          NothingBooked(s.ledger, f, d);
        } else {
          SettleBooks(s, s.ppc.msg, result.Produced?, f, d);
        }
      case Retry(ok) => SettleBooks(s, s.ppc.msg, ok, f, d);
      case _ => UnsettledBooks(c, s, ps, f, d);
    }
  }

  lemma UnsettledBooks(c: Setup, s: State, ps: ProducerStep, f: Fate, d: WfDoc)
    requires ProducerCan(s, ps) && !ps.Produce? && !ps.Retry?
    ensures Books(s.ledger, ProducerNext(s, ps).ledger, f, d, Happens(f, c, s, Producer(ps), d))
  {
    assert ProducerNext(s, ps).ledger == s.ledger;
    NothingBooked(s.ledger, f, d);
  }

  lemma StepBooks(c: Setup, s: State, l: Label, f: Fate, d: WfDoc)
    requires Enabled(c, s, l)
    ensures Books(s.ledger, Next(c, s, l).ledger, f, d, Happens(f, c, s, l, d))
  {
    match l {
      case Consumer(cs) => ConsumerBooks(c, s, cs, f, d);
      case Loop(i, ls) => LoopBooks(c, s, i, ls, f, d);
      case Flush(i, fs) => FlushBooks(c, s, i, fs, f, d);
      case Merge(i, ms) => assert MergeNext(c, s, i, ms).ledger == s.ledger;
      case Producer(ps) => ProducerBooks(c, s, ps, f, d);
      case _ =>
    }
  }

  lemma {:induction false} TraceBooks(c: Setup, a: State, trace: seq<Label>, b: State, f: Fate, d: WfDoc)
    requires Trace(c, a, trace, b) && !f.Refused?
    ensures Booked(b.ledger, f, d) == Booked(a.ledger, f, d) + Count(f, c, a, trace, d)
    decreases |trace|
  {
    if trace != [] {
      StepBooks(c, a, trace[0], f, d);
      TraceBooks(c, Next(c, a, trace[0]), trace[1..], b, f, d);
    }
  }

  lemma NothingYet(c: Setup, f: Fate, d: WfDoc)
    ensures Booked(Init(c).ledger, f, d) == 0
  {
  }

  /** In every run, each entry of the ledger is the number of copies that met that fate: consumed;
      accepted or lost in a bulk call, by its body and response; dropped for want of a producer;
      produced, or lost in producing, by the answers of the Kafka client; lost in the buffer of
      an indexer at a failed tick. */
  lemma LedgerIsExact(c: Setup, trace: seq<Label>, s: State, f: Fate, d: WfDoc)
    requires Trace(c, Init(c), trace, s) && !f.Refused?
    ensures Booked(s.ledger, f, d) == Count(f, c, Init(c), trace, d)
  {
    NothingYet(c, f, d);
    TraceBooks(c, Init(c), trace, s, f, d);
  }

  /** A full producer queue keeps the same buffer in hand for exactly one retry. */
  lemma QueueFullRetriesOnce(c: Setup, s: State, ps: ProducerStep)
    requires s.ppc.PHold?
    ensures Enabled(c, s, Producer(Produce(QueueFull)))
    ensures var s' := Next(c, s, Producer(Produce(QueueFull)));
            && s' == s.(ppc := PRetry(s.ppc.msg))
            && (Enabled(c, s', Producer(ps)) <==> ps.Retry?)
            && (ps.Retry? ==>
                  && Next(c, s', Producer(ps)).ppc == PRange
                  && Next(c, s', Producer(ps)) ==
                     Next(c, s, Producer(Produce(if ps.ok then Produced else ProduceError))))
  {
  }
}
