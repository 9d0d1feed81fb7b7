/** Documents in the Elasticsearch bulk format (an action line and a content line), and the
    extraction of the failed ones from a bulk body. */
module Documents {
  import opened Lines

  datatype Option<+T> = None | Some(value: T)

  /** One two-line bulk action; the lines are stored without their newline. */
  datatype Document = Doc(action: seq<byte>, content: seq<byte>)

  /** The smallest bulk action a body can hold: {} newline {} (es/indexer.go:106). */
  const MINIMUM_BUFFER_SIZE := 5

  predicate WellFormed(d: Document) {
    NL !in d.action && NL !in d.content && |d.action| + |d.content| + 2 >= MINIMUM_BUFFER_SIZE
  }

  type WfDoc = d: Document | WellFormed(d) witness Doc([123, 125], [123, 125])

  /** One element of a bulk response: action name to Error.Type, "" when it succeeded. */
  type Item = map<string, string>

  function FailedActions(item: Item): set<string> {
    set a | a in item && item[a] != ""
  }

  /** The item reports an error for some action. */
  predicate HasErrorType(item: Item) {
    exists a :: a in item && item[a] != ""
  }

  lemma FailedHasErrorType(item: Item)
    ensures FailedActions(item) != {} <==> HasErrorType(item)
  {
    if HasErrorType(item) {
      var a :| a in item && item[a] != "";
      assert a in FailedActions(item);
    }
  }

  function Repeat<T>(x: seq<T>, n: nat): seq<T> {
    if n == 0 then [] else Repeat(x, n - 1) + x
  }

  /** What the item loop of parseESErrors writes; None when it indexes past the lines. */
  function ErrorBody(lines: seq<seq<byte>>, items: seq<Item>): Option<seq<byte>> {
    if items == [] then Some([]) else
    var i := |items| - 1;
    var k := |FailedActions(items[i])|;
    match ErrorBody(lines, items[..i])
    case None => None
    case Some(out) =>
      if k == 0 then Some(out)
      else if 2 * i + 1 < |lines| then Some(out + Repeat(lines[2 * i] + lines[2 * i + 1], k))
      else None
  }

  /** parseESErrors: match item i with lines 2i and 2i+1 and copy the pairs that failed. */
  method ParseESErrors(bulkBytes: seq<byte>, items: seq<Item>) returns (r: Option<seq<byte>>)
    ensures r == ErrorBody(SplitAfter(bulkBytes), items)
  {
    var bulkLines := Split(bulkBytes);
    var out: seq<byte> := [];
    for index := 0 to |items|
      invariant ErrorBody(bulkLines, items[..index]) == Some(out)
    {
      var pair := if 2 * index + 1 < |bulkLines| then Some(bulkLines[2 * index] + bulkLines[2 * index + 1]) else None;
      var next := CopyFailed(pair, items[index], out);
      ItemStep(bulkLines, items, index, pair, out);
      if next.None? {
        PanicStays(bulkLines, items, index);
        return None;
      }
      out := next.value;
    }
    assert items[..|items|] == items;
    return Some(out);
  }

  /** out after n failed actions of one item; None once a pair that is not there is needed. */
  function Copied(pair: Option<seq<byte>>, out: seq<byte>, n: nat): Option<seq<byte>> {
    if n == 0 then Some(out) else if pair.None? then None else Some(out + Repeat(pair.value, n))
  }

  lemma CopiedNext(pair: Option<seq<byte>>, out: seq<byte>, n: nat, next: seq<byte>)
    requires Copied(pair, out, n) == Some(next)
    ensures Copied(pair, out, n + 1) == if pair.None? then None else Some(next + pair.value)
  {
    if pair.Some? {
      RepeatSnoc(out, pair.value, n);
    }
  }

  /** One turn of the item loop. */
  lemma ItemStep(lines: seq<seq<byte>>, items: seq<Item>, i: nat, pair: Option<seq<byte>>, out: seq<byte>)
    requires i < |items| && ErrorBody(lines, items[..i]) == Some(out)
    requires pair == if 2 * i + 1 < |lines| then Some(lines[2 * i] + lines[2 * i + 1]) else None
    ensures ErrorBody(lines, items[..i + 1]) == Copied(pair, out, |FailedActions(items[i])|)
  {
    var front := items[..i + 1];
    assert front[..i] == items[..i] && front[i] == items[i] && |front| == i + 1;
  }

  /** The inner loop: one copy of the line pair for each failed action, in whatever order the
      map is ranged over. */
  method CopyFailed(pair: Option<seq<byte>>, item: Item, out: seq<byte>) returns (r: Option<seq<byte>>)
    ensures r == Copied(pair, out, |FailedActions(item)|)
  {
    var actions := item.Keys;
    var next := out;
    ghost var copies: nat := 0;
    while actions != {}
      invariant actions <= item.Keys
      invariant copies == |FailedActions(item) - actions| <= |FailedActions(item)|
      invariant Copied(pair, out, copies) == Some(next)
      decreases actions
    {
      var action :| action in actions;
      FailedStep(item, actions, action);
      actions := actions - {action};
      if item[action] != "" {
        CopiedNext(pair, out, copies, next);
        if pair.None? {
          return None;
        }
        next := next + pair.value;
        copies := copies + 1;
      }
    }
    assert FailedActions(item) - actions == FailedActions(item);
    return Some(next);
  }

  lemma FailedStep(item: Item, actions: set<string>, action: string)
    requires action in actions && actions <= item.Keys
    ensures action in FailedActions(item) <==> item[action] != ""
    ensures |FailedActions(item) - (actions - {action})| ==
            |FailedActions(item) - actions| + if item[action] != "" then 1 else 0
    ensures |FailedActions(item) - (actions - {action})| <= |FailedActions(item)|
  {
    var before, now := FailedActions(item) - actions, FailedActions(item) - (actions - {action});
    assert now == if item[action] != "" then before + {action} else before;
    assert FailedActions(item) == now + (FailedActions(item) - now);
  }

  lemma RepeatSnoc<T>(out: seq<T>, x: seq<T>, n: nat)
    ensures out + Repeat(x, n) + x == out + Repeat(x, n + 1)
    ensures n == 0 ==> out + x == out + Repeat(x, n + 1)
  {
    assert Repeat(x, 0) == [];
  }

  /** Exactly when the extraction would index out of range. */
  lemma {:induction false} PanicsExactly(lines: seq<seq<byte>>, items: seq<Item>)
    ensures ErrorBody(lines, items).None? <==>
            exists i :: 0 <= i < |items| && FailedActions(items[i]) != {} && |lines| <= 2 * i + 1
  {
    if items != [] {
      var n := |items| - 1;
      PanicsExactly(lines, items[..n]);
      assert forall i :: 0 <= i < n ==> items[..n][i] == items[i];
    }
  }

  lemma PanicStays(lines: seq<seq<byte>>, items: seq<Item>, i: nat)
    requires i < |items| && FailedActions(items[i]) != {} && |lines| <= 2 * i + 1
    ensures ErrorBody(lines, items).None?
  {
    PanicsExactly(lines, items);
  }

  // ---------------------------------------------------------------- rendering

  function LinesOf(docs: seq<WfDoc>): (r: seq<seq<byte>>)
    ensures |r| == 2 * |docs|
  {
    if docs == [] then []
    else LinesOf(docs[..|docs| - 1]) + [docs[|docs| - 1].action + [NL], docs[|docs| - 1].content + [NL]]
  }

  /** The newline-terminated bulk body of a list of documents. */
  function Render(docs: seq<WfDoc>): seq<byte> {
    Concat(LinesOf(docs))
  }

  function RenderDoc(d: WfDoc): (r: seq<byte>)
    ensures |r| >= MINIMUM_BUFFER_SIZE && NewlineTerminated(r)
  {
    d.action + [NL] + (d.content + [NL])
  }

  lemma RenderSnoc(docs: seq<WfDoc>, d: WfDoc)
    ensures Render(docs + [d]) == Render(docs) + RenderDoc(d)
  {
    var first, second := d.action + [NL], d.content + [NL];
    assert (docs + [d])[..|docs|] == docs;
    assert LinesOf(docs + [d]) == LinesOf(docs) + [first] + [second];
    ConcatSnoc(LinesOf(docs), first);
    ConcatSnoc(LinesOf(docs) + [first], second);
    Assoc(Render(docs), first, second);
  }

  lemma Assoc<T>(a: seq<T>, b: seq<T>, c: seq<T>)
    ensures a + b + c == a + (b + c)
  {
  }

  lemma {:induction false} RenderLength(docs: seq<WfDoc>)
    ensures |Render(docs)| >= MINIMUM_BUFFER_SIZE * |docs|
    ensures docs != [] ==> NewlineTerminated(Render(docs))
  {
    if docs != [] {
      var n := |docs| - 1;
      RenderLength(docs[..n]);
      RenderSnoc(docs[..n], docs[n]);
      assert docs == docs[..n] + [docs[n]];
    }
  }

  lemma {:induction false} LinesAppend(a: seq<WfDoc>, b: seq<WfDoc>)
    ensures LinesOf(a + b) == LinesOf(a) + LinesOf(b)
    decreases |b|
  {
    if b == [] {
      assert a + b == a;
    } else {
      var n := |b| - 1;
      assert (a + b)[..|a| + n] == a + b[..n];
      LinesAppend(a, b[..n]);
    }
  }

  lemma RenderAppend(a: seq<WfDoc>, b: seq<WfDoc>)
    ensures Render(a + b) == Render(a) + Render(b)
  {
    LinesAppend(a, b);
    ConcatAppend(LinesOf(a), LinesOf(b));
  }

  lemma {:induction false} LinesAt(docs: seq<WfDoc>, i: nat)
    requires i < |docs|
    ensures LinesOf(docs)[2 * i] == docs[i].action + [NL] && LinesOf(docs)[2 * i + 1] == docs[i].content + [NL]
  {
    if i < |docs| - 1 {
      LinesAt(docs[..|docs| - 1], i);
    }
  }

  lemma DocLinesAreLines(docs: seq<WfDoc>)
    ensures AllLines(LinesOf(docs))
  {
    forall p | p in LinesOf(docs) ensures IsLine(p) {
      var j :| 0 <= j < 2 * |docs| && LinesOf(docs)[j] == p;
      LinesAt(docs, j / 2);
      assert p[..|p| - 1] == if j % 2 == 0 then docs[j / 2].action else docs[j / 2].content;
    }
  }

  /** The lines of a newline-terminated body of n documents: 2n lines and an empty rest. */
  lemma SplitOfRender(docs: seq<WfDoc>)
    ensures SplitAfter(Render(docs)) == LinesOf(docs) + [[]]
  {
    DocLinesAreLines(docs);
    SplitOfLines(LinesOf(docs), []);
    assert Render(docs) + [] == Render(docs);
  }

  /** A body whose final newline is missing. */
  function RenderOpen(docs: seq<WfDoc>): seq<byte>
    requires docs != []
  {
    var n := |docs| - 1;
    Render(docs[..n]) + (docs[n].action + [NL]) + docs[n].content
  }

  lemma SplitOfRenderOpen(docs: seq<WfDoc>)
    requires docs != []
    ensures SplitAfter(RenderOpen(docs)) == LinesOf(docs)[..2 * |docs| - 1] + [docs[|docs| - 1].content]
  {
    OpenLines(docs);
    OpenConcat(docs);
    SplitOfLines(LinesOf(docs)[..2 * |docs| - 1], docs[|docs| - 1].content);
  }

  lemma OpenLines(docs: seq<WfDoc>)
    requires docs != []
    ensures AllLines(LinesOf(docs)[..2 * |docs| - 1])
  {
    DocLinesAreLines(docs);
  }

  lemma OpenConcat(docs: seq<WfDoc>)
    requires docs != []
    ensures RenderOpen(docs) == Concat(LinesOf(docs)[..2 * |docs| - 1]) + docs[|docs| - 1].content
  {
    var n := |docs| - 1;
    var front, action := LinesOf(docs[..n]), docs[n].action + [NL];
    assert LinesOf(docs)[..2 * |docs| - 1] == front + [action];
    ConcatSnoc(front, action);
    assert Concat(front + [action]) == Render(docs[..n]) + action;
  }

  /** Document i of the message appended after any well-formed prefix keeps its two lines, at
      the line index shifted by the documents before it. */
  lemma LineIndexShifts(before: seq<WfDoc>, msg: seq<WfDoc>, after: seq<WfDoc>, i: nat)
    requires i < |msg|
    ensures var ls := SplitAfter(Render(before) + Render(msg) + Render(after));
            var j := 2 * (|before| + i);
            j + 1 < |ls| && ls[j] + ls[j + 1] == RenderDoc(msg[i])
  {
    RenderAppend(before, msg);
    RenderAppend(before + msg, after);
    var all := before + msg + after;
    SplitOfRender(all);
    LinesAt(all, |before| + i);
    assert all[|before| + i] == msg[i];
  }

  // ------------------------------------------------------- failed documents

  /** The documents an item list reports as failed, in order, once per failed action. */
  function Failed(docs: seq<WfDoc>, items: seq<Item>): seq<WfDoc>
    requires |items| <= |docs|
  {
    if items == [] then [] else
    var i := |items| - 1;
    Failed(docs, items[..i]) + Repeat([docs[i]], |FailedActions(items[i])|)
  }

  lemma {:induction false} RenderRepeat(d: WfDoc, k: nat)
    ensures Render(Repeat([d], k)) == Repeat(RenderDoc(d), k)
  {
    if k > 0 {
      RenderRepeat(d, k - 1);
      RenderSnoc(Repeat([d], k - 1), d);
    }
  }

  /** The extraction works on any lines that agree with the documents below the last item. */
  lemma {:induction false} ExtractFrom(lines: seq<seq<byte>>, docs: seq<WfDoc>, items: seq<Item>)
    requires |items| <= |docs| && 2 * |items| <= |lines|
    requires forall j :: 0 <= j < 2 * |items| ==> lines[j] == LinesOf(docs)[j]
    ensures ErrorBody(lines, items) == Some(Render(Failed(docs, items)))
  {
    if items != [] {
      var i := |items| - 1;
      var k := |FailedActions(items[i])|;
      ExtractFrom(lines, docs, items[..i]);
      LinesAt(docs, i);
      assert lines[2 * i] + lines[2 * i + 1] == RenderDoc(docs[i]);
      FailedSnoc(docs, Failed(docs, items[..i]), i, k);
    }
  }

  /** Appending k copies of a document appends k copies of its lines. */
  lemma FailedSnoc(docs: seq<WfDoc>, before: seq<WfDoc>, i: nat, k: nat)
    requires i < |docs|
    ensures Render(before + Repeat([docs[i]], k)) == Render(before) + Repeat(RenderDoc(docs[i]), k)
    ensures k == 0 ==> Render(before + Repeat([docs[i]], k)) == Render(before)
  {
    RenderRepeat(docs[i], k);
    RenderAppend(before, Repeat([docs[i]], k));
  }

  /** Failed-document filter on a newline-terminated body: never out of range, and the output
      is the bulk body of exactly the failed documents, in order. */
  lemma ParseFilters(docs: seq<WfDoc>, items: seq<Item>)
    requires |items| <= |docs|
    ensures ErrorBody(SplitAfter(Render(docs)), items) == Some(Render(Failed(docs, items)))
  {
    SplitOfRender(docs);
    var ls := SplitAfter(Render(docs));
    ExtractFrom(ls, docs, items);
  }

  /** On a rendered body the extraction panics exactly when an item past the last document
      failed. */
  lemma ParsePanicsExactly(docs: seq<WfDoc>, items: seq<Item>)
    ensures ErrorBody(SplitAfter(Render(docs)), items).None? <==>
            exists i :: |docs| <= i < |items| && FailedActions(items[i]) != {}
  {
    SplitOfRender(docs);
    PanicsExactly(SplitAfter(Render(docs)), items);
  }

  // -------------------------------------------------------------- verdicts

  /** Each item holds one action. */
  predicate SingleAction(items: seq<Item>) {
    forall i :: 0 <= i < |items| ==> |items[i]| == 1
  }

  function Verdicts(items: seq<Item>): seq<bool> {
    seq(|items|, i requires 0 <= i < |items| => FailedActions(items[i]) != {})
  }

  /** The documents with a true verdict, in order; documents without verdict are left out. */
  function Filter<T>(docs: seq<T>, v: seq<bool>): seq<T>
    requires |v| <= |docs|
  {
    if v == [] then [] else
    var i := |v| - 1;
    Filter(docs, v[..i]) + if v[i] then [docs[i]] else []
  }

  /** The documents that are not reported as failed. */
  function Passed<T>(docs: seq<T>, v: seq<bool>): seq<T>
    requires |v| <= |docs|
  {
    if v == [] then docs else
    var i := |v| - 1;
    PassedPrefix(docs, v) + docs[|v|..]
  }

  function PassedPrefix<T>(docs: seq<T>, v: seq<bool>): seq<T>
    requires |v| <= |docs|
  {
    if v == [] then [] else
    var i := |v| - 1;
    PassedPrefix(docs, v[..i]) + if v[i] then [] else [docs[i]]
  }

  lemma {:induction false} FailedIsFilter(docs: seq<WfDoc>, items: seq<Item>)
    requires |items| <= |docs| && SingleAction(items)
    ensures Failed(docs, items) == Filter(docs, Verdicts(items))
  {
    if items != [] {
      var i := |items| - 1;
      FailedIsFilter(docs, items[..i]);
      assert Verdicts(items)[..i] == Verdicts(items[..i]);
      SingletonFailures(items[i]);
      RepeatOnce([docs[i]]);
    }
  }

  lemma SingletonFailures(item: Item)
    requires |item| == 1
    ensures |FailedActions(item)| == if FailedActions(item) == {} then 0 else 1
  {
    if a :| a in FailedActions(item) {
      assert |item.Keys - {a}| == 0;
      assert FailedActions(item) == {a};
    }
  }

  /** A body without its final newline: same failed documents; the output misses its final
      newline exactly when the last document failed. */
  lemma ParseFiltersOpen(docs: seq<WfDoc>, items: seq<Item>)
    requires docs != [] && |items| <= |docs| && SingleAction(items)
    ensures var failed := Failed(docs, items);
            ErrorBody(SplitAfter(RenderOpen(docs)), items) ==
            Some(if |items| == |docs| && FailedActions(items[|items| - 1]) != {}
                 then RenderOpen(failed) else Render(failed))
  {
    SplitOfRenderOpen(docs);
    var ls := SplitAfter(RenderOpen(docs));
    var n := |docs| - 1;
    if |items| <= n {
      ExtractFrom(ls, docs, items);
    } else {
      ExtractFrom(ls, docs, items[..n]);
      LinesAt(docs, n);
      LastOpen(ls, docs, items, n, Failed(docs, items[..n]));
    }
  }

  /** The last document of an open body. */
  lemma LastOpen(ls: seq<seq<byte>>, docs: seq<WfDoc>, items: seq<Item>, n: nat, failed: seq<WfDoc>)
    requires |docs| == |items| == n + 1 && |items[n]| == 1 && |ls| == 2 * n + 2
    requires ls[2 * n] == docs[n].action + [NL] && ls[2 * n + 1] == docs[n].content
    requires failed == Failed(docs, items[..n]) && ErrorBody(ls, items[..n]) == Some(Render(failed))
    ensures if FailedActions(items[n]) != {} then
              Failed(docs, items) == failed + [docs[n]] && ErrorBody(ls, items) == Some(RenderOpen(failed + [docs[n]]))
            else Failed(docs, items) == failed && ErrorBody(ls, items) == Some(Render(failed))
  {
    LastFailed(docs, items);
    LastErrors(ls, items, Render(failed));
    OpenSnoc(failed, docs[n]);
  }

  /** The last item, when it holds one action. */
  lemma LastErrors(lines: seq<seq<byte>>, items: seq<Item>, out: seq<byte>)
    requires items != [] && |items[|items| - 1]| == 1 && 2 * |items| <= |lines|
    requires ErrorBody(lines, items[..|items| - 1]) == Some(out)
    ensures var n := |items| - 1;
            ErrorBody(lines, items) ==
            Some(if FailedActions(items[n]) != {} then out + (lines[2 * n] + lines[2 * n + 1]) else out)
  {
    var n := |items| - 1;
    var pair := lines[2 * n] + lines[2 * n + 1];
    SingletonFailures(items[n]);
    ItemStep(lines, items, n, Some(pair), out);
    assert items[..n + 1] == items;
    RepeatOnce(pair);
  }

  lemma LastFailed(docs: seq<WfDoc>, items: seq<Item>)
    requires items != [] && |items| <= |docs| && |items[|items| - 1]| == 1
    ensures var n := |items| - 1;
            Failed(docs, items) == Failed(docs, items[..n]) + if FailedActions(items[n]) != {} then [docs[n]] else []
  {
    var n := |items| - 1;
    SingletonFailures(items[n]);
    RepeatOnce([docs[n]]);
  }

  lemma OpenSnoc(docs: seq<WfDoc>, d: WfDoc)
    ensures RenderOpen(docs + [d]) == Render(docs) + (d.action + [NL] + d.content)
  {
    assert (docs + [d])[..|docs|] == docs;
    Assoc(Render(docs), d.action + [NL], d.content);
  }

  lemma RepeatOnce<T>(x: seq<T>)
    ensures Repeat(x, 1) == x
  {
    assert Repeat(x, 0) + x == x;
  }

  /** Nothing is lost or invented: failed plus passed documents are the documents. */
  lemma {:induction false} FilterPartitions<T>(docs: seq<T>, v: seq<bool>)
    requires |v| <= |docs|
    ensures multiset(Filter(docs, v)) + multiset(Passed(docs, v)) == multiset(docs)
  {
    PrefixPartitions(docs, v);
    assert docs == docs[..|v|] + docs[|v|..];
  }

  lemma {:induction false} PrefixPartitions<T>(docs: seq<T>, v: seq<bool>)
    requires |v| <= |docs|
    ensures multiset(Filter(docs, v)) + multiset(PassedPrefix(docs, v)) == multiset(docs[..|v|])
  {
    if v != [] {
      var i := |v| - 1;
      PrefixPartitions(docs, v[..i]);
      assert docs[..|v|] == docs[..i] + [docs[i]];
      if v[i] {
        assert Filter(docs, v) == Filter(docs, v[..i]) + [docs[i]];
        assert PassedPrefix(docs, v) == PassedPrefix(docs, v[..i]) + [];
      } else {
        assert Filter(docs, v) == Filter(docs, v[..i]) + [];
        assert PassedPrefix(docs, v) == PassedPrefix(docs, v[..i]) + [docs[i]];
      }
    }
  }

  /** Verdicts of two rounds: the second list answers only the documents that failed first. */
  function Combine(v: seq<bool>, w: seq<bool>): (r: seq<bool>)
    ensures |r| == |v|
  {
    if v == [] then [] else
    var i := |v| - 1;
    var k := |Filter(v, v[..i])|;
    Combine(v[..i], w) + [v[i] && k < |w| && w[k]]
  }

  lemma {:induction false} FilterLength<T, U>(docs: seq<T>, other: seq<U>, v: seq<bool>)
    requires |v| <= |docs| && |v| <= |other|
    ensures |Filter(docs, v)| == |Filter(other, v)| <= |v|
  {
    if v != [] {
      FilterLength(docs, other, v[..|v| - 1]);
    }
  }

  /** Re-ingestion: failures of the failures are one extraction with combined verdicts. */
  lemma {:induction false} Reingest<T>(docs: seq<T>, v: seq<bool>, w: seq<bool>)
    requires |v| <= |docs| && |w| <= |Filter(docs, v)|
    ensures Filter(Filter(docs, v), w) == Filter(docs, Combine(v, w))
    decreases |v|
  {
    if v != [] {
      var i := |v| - 1;
      var first := Filter(docs, v[..i]);
      FilterLength(docs, v, v[..i]);
      var k := |first|;
      assert Combine(v, w)[..i] == Combine(v[..i], w);
      if |w| <= k {
        FilterExtends(first, Filter(docs, v), w);
        Reingest(docs, v[..i], w);
      } else {
        assert v[i] && |w| == k + 1;
        FilterExtends(first, Filter(docs, v), w[..k]);
        Reingest(docs, v[..i], w[..k]);
        FilterExtends(v[..i], v, v[..i]);
        CombineShort(v[..i], w, k);
      }
    }
  }

  lemma {:induction false} FilterExtends<T>(a: seq<T>, b: seq<T>, v: seq<bool>)
    requires |v| <= |a| <= |b| && a == b[..|a|]
    ensures Filter(a, v) == Filter(b, v)
  {
    if v != [] {
      FilterExtends(a, b, v[..|v| - 1]);
    }
  }

  lemma {:induction false} CombineShort(v: seq<bool>, w: seq<bool>, k: nat)
    requires k <= |w| && |Filter(v, v)| <= k
    ensures Combine(v, w) == Combine(v, w[..k])
  {
    if v != [] {
      var i := |v| - 1;
      FilterExtends(v[..i], v, v[..i]);
      CombineShort(v[..i], w, k);
    }
  }

  /** The error body is itself a well-formed bulk body: extracting from it again, with the
      items of a second response, gives the documents both responses reported as failed. */
  lemma ReingestBodies(docs: seq<WfDoc>, items: seq<Item>, again: seq<Item>)
    requires |items| <= |docs| && SingleAction(items)
    requires |again| <= |Failed(docs, items)| && SingleAction(again)
    ensures ErrorBody(SplitAfter(Render(docs)), items).Some?
    ensures ErrorBody(SplitAfter(ErrorBody(SplitAfter(Render(docs)), items).value), again) ==
            Some(Render(Filter(docs, Combine(Verdicts(items), Verdicts(again)))))
  {
    ParseFilters(docs, items);
    ParseFilters(Failed(docs, items), again);
    FailedIsFilter(docs, items);
    FailedIsFilter(Failed(docs, items), again);
    Reingest(docs, Verdicts(items), Verdicts(again));
  }
}
