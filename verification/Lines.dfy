/** Newline-delimited byte strings: bytes.SplitAfter(b, []byte{'\n'}) as the
    indexer uses it to cut a bulk body back into lines. */
module Lines {

  newtype byte = b: int | 0 <= b < 256

  const NL: byte := 10

  /** Concatenation of a list of byte strings. */
  function Concat(ss: seq<seq<byte>>): seq<byte> {
    if ss == [] then [] else ss[0] + Concat(ss[1..])
  }

  lemma {:induction false} ConcatAppend(a: seq<seq<byte>>, b: seq<seq<byte>>)
    ensures Concat(a + b) == Concat(a) + Concat(b)
  {
    if a == [] {
      assert a + b == b;
    } else {
      assert (a + b)[1..] == a[1..] + b;
      ConcatAppend(a[1..], b);
    }
  }

  lemma ConcatSnoc(a: seq<seq<byte>>, x: seq<byte>)
    ensures Concat(a + [x]) == Concat(a) + x
  {
    ConcatAppend(a, [x]);
    assert [x][1..] == [];
    assert Concat([x]) == x;
  }

  /** Index of the first newline, or |s| when there is none. */
  function FirstNewline(s: seq<byte>): (i: nat)
    ensures i <= |s|
    ensures i < |s| ==> s[i] == NL
    ensures NL !in s[..i]
  {
    if s == [] then 0
    else if s[0] == NL then 0
    else
      var i := 1 + FirstNewline(s[1..]);
      assert s[..i] == [s[0]] + s[1..][..i - 1];
      i
  }

  /** The pieces of s, cut after every newline; the last piece has none. */
  function SplitAfter(s: seq<byte>): (r: seq<seq<byte>>)
    ensures |r| >= 1
    decreases |s|
  {
    var i := FirstNewline(s);
    if i == |s| then [s] else [s[..i + 1]] + SplitAfter(s[i + 1..])
  }

  /** A complete line: one newline, at the end. */
  predicate IsLine(p: seq<byte>) {
    |p| >= 1 && p[|p| - 1] == NL && NL !in p[..|p| - 1]
  }

  predicate NewlineTerminated(s: seq<byte>) {
    |s| >= 1 && s[|s| - 1] == NL
  }

  /** The shape every split has: complete lines, then a rest without newline. */
  predicate IsSplit(ps: seq<seq<byte>>) {
    |ps| >= 1 && NL !in ps[|ps| - 1] && AllLines(ps[..|ps| - 1])
  }

  predicate AllLines(ps: seq<seq<byte>>) {
    forall p :: p in ps ==> IsLine(p)
  }

  /** The loop behind bytes.SplitAfter: repeatedly cut the rest after its next newline. */
  method Split(s: seq<byte>) returns (pieces: seq<seq<byte>>)
    ensures pieces == SplitAfter(s)
  {
    pieces := [];
    var rest := s;
    var scan := 0;
    while scan < |rest|
      invariant 0 <= scan <= |rest|
      invariant NL !in rest[..scan]
      invariant pieces + SplitAfter(rest) == SplitAfter(s)
      decreases |rest|, |rest| - scan
    {
      if rest[scan] == NL {
        FirstNewlineIs(rest, scan);
        pieces := pieces + [rest[..scan + 1]];
        rest := rest[scan + 1..];
        scan := 0;
      } else {
        assert rest[..scan + 1] == rest[..scan] + [rest[scan]];
        scan := scan + 1;
      }
    }
    assert rest[..scan] == rest;
    FirstNewlineIs(rest, scan);
    pieces := pieces + [rest];
  }

  lemma FirstNewlineIs(s: seq<byte>, i: nat)
    requires i <= |s| && NL !in s[..i] && (i < |s| ==> s[i] == NL)
    ensures FirstNewline(s) == i
  {
  }

  /** Invertible: the pieces join back to the body and have the split shape. */
  lemma {:induction false} SplitInverts(s: seq<byte>)
    ensures Concat(SplitAfter(s)) == s
    ensures IsSplit(SplitAfter(s))
  {
    SplitJoins(s);
    SplitShape(s);
  }

  lemma {:induction false} SplitJoins(s: seq<byte>)
    ensures Concat(SplitAfter(s)) == s
    decreases |s|
  {
    var i := FirstNewline(s);
    if i == |s| {
      ConcatCons(s, []);
      assert [s] + [] == [s] && s + Concat([]) == s;
    } else {
      var p, rest := s[..i + 1], s[i + 1..];
      SplitJoins(rest);
      assert SplitAfter(s) == [p] + SplitAfter(rest);
      ConcatCons(p, SplitAfter(rest));
      TakeDrop(s, i + 1);
    }
  }

  lemma {:induction false} SplitShape(s: seq<byte>)
    ensures IsSplit(SplitAfter(s))
    decreases |s|
  {
    var i := FirstNewline(s);
    if i == |s| {
      assert s[..i] == s;
    } else {
      SplitShape(s[i + 1..]);
      var r := SplitAfter(s[i + 1..]);
      var p := s[..i + 1];
      assert p[..i] == s[..i];
      assert ([p] + r)[..|r|] == [p] + r[..|r| - 1];
    }
  }

  lemma TakeDrop(s: seq<byte>, n: nat)
    requires n <= |s|
    ensures s[..n] + s[n..] == s
  {
  }

  lemma ConcatCons(p: seq<byte>, ps: seq<seq<byte>>)
    ensures Concat([p] + ps) == p + Concat(ps)
  {
    assert ([p] + ps)[1..] == ps;
  }

  /** Unique: a list with the split shape is the split of its concatenation. */
  lemma {:induction false} SplitUnique(ps: seq<seq<byte>>)
    requires IsSplit(ps)
    ensures SplitAfter(Concat(ps)) == ps
  {
    var s := Concat(ps);
    if |ps| == 1 {
      assert ps[1..] == [];
      assert s == ps[0];
      assert s[..|s|] == s;
      FirstNewlineIs(s, |s|);
    } else {
      var p := ps[0];
      assert p == ps[..|ps| - 1][0];
      assert IsLine(p);
      assert ps[1..][..|ps| - 2] == ps[..|ps| - 1][1..];
      SplitUnique(ps[1..]);
      assert s == p + Concat(ps[1..]);
      assert s[..|p| - 1] == p[..|p| - 1];
      assert s[|p| - 1] == p[|p| - 1];
      FirstNewlineIs(s, |p| - 1);
      assert s[..|p|] == p && s[|p|..] == Concat(ps[1..]);
    }
  }

  lemma SplitOfLines(lines: seq<seq<byte>>, rest: seq<byte>)
    requires AllLines(lines) && NL !in rest
    ensures SplitAfter(Concat(lines) + rest) == lines + [rest]
  {
    var ps := lines + [rest];
    assert ps[..|ps| - 1] == lines;
    ConcatSnoc(lines, rest);
    SplitUnique(ps);
  }

  /** The complete lines of a body and its unfinished rest. */
  lemma SplitParts(a: seq<byte>) returns (lines: seq<seq<byte>>, rest: seq<byte>)
    ensures SplitAfter(a) == lines + [rest] && AllLines(lines) && NL !in rest
    ensures a == Concat(lines) + rest == Concat(lines + [rest])
  {
    SplitInverts(a);
    var sa := SplitAfter(a);
    lines, rest := sa[..|sa| - 1], sa[|sa| - 1];
    assert lines + [rest] == sa;
    ConcatSnoc(lines, rest);
  }

  /** Pieces of a ++ b: the unfinished last piece of a is glued to the first of b. */
  lemma SplitGlues(a: seq<byte>, b: seq<byte>)
    ensures var sa, sb := SplitAfter(a), SplitAfter(b);
            SplitAfter(a + b) == sa[..|sa| - 1] + [sa[|sa| - 1] + sb[0]] + sb[1..]
  {
    var lines, rest := SplitParts(a);
    var sb := SplitAfter(b);
    SplitInverts(b);
    PiecesGlue(lines, rest, sb);
    LastPiece(lines, rest);
    assert SplitAfter(a + b) == lines + [rest + sb[0]] + sb[1..];
  }

  lemma LastPiece<T>(front: seq<T>, last: T)
    ensures var all := front + [last]; all[..|all| - 1] == front && all[|all| - 1] == last
  {
  }

  lemma PiecesGlue(lines: seq<seq<byte>>, rest: seq<byte>, sb: seq<seq<byte>>)
    requires AllLines(lines) && NL !in rest && IsSplit(sb)
    ensures SplitAfter(Concat(lines + [rest]) + Concat(sb)) == lines + [rest + sb[0]] + sb[1..]
  {
    var glued := lines + [rest + sb[0]] + sb[1..];
    assert sb == [sb[0]] + sb[1..];
    GluedConcat(lines, rest, sb[0], sb[1..]);
    GluedShape(lines, rest, sb);
    SplitUnique(glued);
  }

  lemma GluedShape(lines: seq<seq<byte>>, rest: seq<byte>, sb: seq<seq<byte>>)
    requires AllLines(lines) && NL !in rest && IsSplit(sb)
    ensures IsSplit(lines + [rest + sb[0]] + sb[1..])
  {
    var glued := lines + [rest + sb[0]] + sb[1..];
    if |sb| == 1 {
      assert glued[..|glued| - 1] == lines;
    } else {
      var middle := sb[1..|sb| - 1];
      assert glued[..|glued| - 1] == lines + [rest + sb[0]] + middle;
      var front := sb[..|sb| - 1];
      assert front[0] == sb[0] && sb[0] in front;
      GluedLine(rest, sb[0]);
      assert middle == front[1..];
    }
  }

  lemma GluedLine(rest: seq<byte>, p: seq<byte>)
    requires NL !in rest && IsLine(p)
    ensures IsLine(rest + p)
  {
    var q := rest + p;
    assert q[..|q| - 1] == rest + p[..|p| - 1];
  }

  lemma GluedConcat(lines: seq<seq<byte>>, rest: seq<byte>, p: seq<byte>, ps: seq<seq<byte>>)
    ensures Concat(lines + [rest + p] + ps) == Concat(lines + [rest]) + Concat([p] + ps)
  {
    ConcatAppend(lines + [rest + p], ps);
    ConcatSnoc(lines, rest + p);
    ConcatSnoc(lines, rest);
    ConcatCons(p, ps);
  }

  lemma LinesEndInNewline(lines: seq<seq<byte>>)
    requires AllLines(lines) && lines != []
    ensures NewlineTerminated(Concat(lines))
  {
    var n := |lines| - 1;
    assert lines == lines[..n] + [lines[n]];
    ConcatSnoc(lines[..n], lines[n]);
    assert lines[n] in lines && IsLine(lines[n]);
  }

  /** The last piece is empty exactly for the empty body and newline-terminated ones. */
  lemma LastPieceEmpty(a: seq<byte>)
    ensures var sa := SplitAfter(a); sa[|sa| - 1] == [] <==> a == [] || NewlineTerminated(a)
  {
    var lines, rest := SplitParts(a);
    if rest != [] {
      assert a[|a| - 1] == rest[|rest| - 1];
    } else {
      assert a == Concat(lines);
      if lines != [] {
        LinesEndInNewline(lines);
      }
    }
  }

  /** Compositional exactly when the left part is empty or newline-terminated: the
      complete lines of a, followed by the pieces of b. */
  lemma SplitComposes(a: seq<byte>, b: seq<byte>)
    ensures var sa := SplitAfter(a);
            SplitAfter(a + b) == sa[..|sa| - 1] + SplitAfter(b) <==> a == [] || NewlineTerminated(a)
  {
    SplitGlues(a, b);
    LastPieceEmpty(a);
    var sa, sb := SplitAfter(a), SplitAfter(b);
    var lines, rest := sa[..|sa| - 1], sa[|sa| - 1];
    if rest == [] {
      assert rest + sb[0] == sb[0];
      assert sb == [sb[0]] + sb[1..];
    } else {
      assert SplitAfter(a + b)[|lines|] == rest + sb[0];
      assert (lines + sb)[|lines|] == sb[0];
      assert |rest + sb[0]| != |sb[0]|;
    }
  }
}
