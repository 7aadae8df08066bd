/** The values the two list passes of the assembly engine compute: merging runs
    of compatible symbols (tryCombineChars) and cutting an expression into
    unbreakable chunks (buildHTML), stated without their loops. */
module Assembly {
  import opened Common
  import opened BoxModel

  /** canCombine on two boxes: both symbols, with equal classes, skew, maximum
      font size and style. */
  predicate Combinable(a: Box, b: Box)
  {
    a.kind == SymbolNode && b.kind == SymbolNode &&
    a.klasses == b.klasses && a.skew == b.skew && a.maxFontSize == b.maxFontSize && a.style == b.style
  }

  /** The fields canCombine compares, which merging never changes. */
  function Key(b: Box): (NodeKind, set<CssClass>, real, real, CssStyle)
  {
    (b.kind, b.klasses, b.skew, b.maxFontSize, b.style)
  }

  /** Two boxes with the same key combine with the same boxes. */
  lemma {:induction false} CombinableByKey(a: Box, a': Box, b: Box)
    requires Key(a) == Key(a')
    ensures Combinable(a, b) <==> Combinable(a', b)
    ensures Combinable(b, a) <==> Combinable(b, a')
  {
  }

  /** The left symbol absorbs the right one: texts are joined, height and depth
      are the larger of the two, and the italic correction is the right one's. */
  function Merge(a: Box, b: Box): (m: Box)
    ensures Key(m) == Key(a)
  {
    a.(text := a.text + b.text, height := Max(a.height, b.height),
       depth := Max(a.depth, b.depth), italic := b.italic)
  }

  /** tryCombineChars: the head of the list keeps absorbing its neighbour while
      the two combine, then the pass moves on. */
  function Combine(vs: seq<Box>): (r: seq<Box>)
    ensures |r| <= |vs|
    ensures |vs| > 0 ==> |r| > 0 && Key(r[0]) == Key(vs[0])
    decreases |vs|
  {
    if |vs| < 2 then vs
    else if Combinable(vs[0], vs[1]) then Combine([Merge(vs[0], vs[1])] + vs[2..])
    else [vs[0]] + Combine(vs[1..])
  }

  /** No two neighbours combine. */
  predicate NothingToCombine(vs: seq<Box>)
  {
    forall k :: 0 <= k < |vs| - 1 ==> !Combinable(vs[k], vs[k + 1])
  }

  /** No two adjacent boxes of the result could still be combined. */
  lemma {:induction false} CombineLeavesNothingToCombine(vs: seq<Box>)
    ensures NothingToCombine(Combine(vs))
    decreases |vs|
  {
    if |vs| >= 2 {
      if Combinable(vs[0], vs[1]) {
        CombineLeavesNothingToCombine([Merge(vs[0], vs[1])] + vs[2..]);
        assert Combine(vs) == Combine([Merge(vs[0], vs[1])] + vs[2..]);
      } else {
        var rest := Combine(vs[1..]);
        CombineLeavesNothingToCombine(vs[1..]);
        CombinableByKey(rest[0], vs[1], vs[0]);
        var r := Combine(vs);
        assert vs[1..][0] == vs[1];
        assert r == [vs[0]] + rest;
        forall k | 0 <= k < |r| - 1 ensures !Combinable(r[k], r[k + 1]) {
          if k > 0 {
            assert r[k] == rest[k - 1] && r[k + 1] == rest[k];
            assert !Combinable(rest[k - 1], rest[k]);
          } else {
            assert r[0] == vs[0] && r[1] == rest[0];
            assert !Combinable(vs[0], rest[0]);
          }
        }
      }
    }
  }

  /** The texts of a list, joined. */
  function Texts(vs: seq<Box>): string
  {
    if vs == [] then "" else vs[0].text + Texts(vs[1..])
  }

  /** Merging keeps every character, in order. */
  lemma {:induction false} CombinePreservesText(vs: seq<Box>)
    ensures Texts(Combine(vs)) == Texts(vs)
    decreases |vs|
  {
    if |vs| >= 2 {
      if Combinable(vs[0], vs[1]) {
        var ws := [Merge(vs[0], vs[1])] + vs[2..];
        CombinePreservesText(ws);
        assert ws[1..] == vs[2..];
        assert vs[1..][1..] == vs[2..];
        assert Texts(ws) == vs[0].text + vs[1].text + Texts(vs[2..]);
      } else {
        CombinePreservesText(vs[1..]);
        assert ([vs[0]] + Combine(vs[1..]))[1..] == Combine(vs[1..]);
      }
    }
  }

  /** A run: every neighbour pair combines. */
  predicate IsRun(vs: seq<Box>)
  {
    forall k :: 0 <= k < |vs| - 1 ==> Combinable(vs[k], vs[k + 1])
  }

  /** A run merges into one symbol carrying the run's text, its largest height
      and depth, and the italic correction of its last symbol. */
  lemma {:induction false} RunMergesIntoOne(vs: seq<Box>)
    requires |vs| > 0 && IsRun(vs)
    ensures var r := Combine(vs);
            && |r| == 1
            && Key(r[0]) == Key(vs[0])
            && r[0].text == Texts(vs)
            && (forall k :: 0 <= k < |vs| ==> vs[k].height <= r[0].height && vs[k].depth <= r[0].depth)
            && (exists k :: 0 <= k < |vs| && vs[k].height == r[0].height)
            && (exists k :: 0 <= k < |vs| && vs[k].depth == r[0].depth)
            && r[0].italic == vs[|vs| - 1].italic
    decreases |vs|
  {
    if |vs| == 1 {
      assert Texts(vs) == vs[0].text + Texts([]);
      assert vs[0].height == Combine(vs)[0].height && vs[0].depth == Combine(vs)[0].depth;
    } else {
      var m := Merge(vs[0], vs[1]);
      var ws := [m] + vs[2..];
      forall k | 0 <= k < |ws| - 1 ensures Combinable(ws[k], ws[k + 1]) {
        if k == 0 {
          CombinableByKey(m, vs[1], vs[2]);
          assert Combinable(vs[0], vs[1]) && Combinable(vs[1], vs[2]);
        } else {
          assert ws[k] == vs[k + 1] && ws[k + 1] == vs[k + 2];
        }
      }
      RunMergesIntoOne(ws);
      var r := Combine(ws);
      assert Combine(vs) == r;
      assert ws[1..] == vs[2..] && vs[1..][1..] == vs[2..];
      assert Texts(ws) == vs[0].text + vs[1].text + Texts(vs[2..]);
      forall k | 0 <= k < |vs| ensures vs[k].height <= r[0].height && vs[k].depth <= r[0].depth {
        if k >= 2 { assert vs[k] == ws[k - 1]; } else { assert m == ws[0]; }
      }
      var kh :| 0 <= kh < |ws| && ws[kh].height == r[0].height;
      if kh == 0 {
        assert m.height == vs[0].height || m.height == vs[1].height;
      } else {
        assert vs[kh + 1] == ws[kh];
      }
      var kd :| 0 <= kd < |ws| && ws[kd].depth == r[0].depth;
      if kd == 0 {
        assert m.depth == vs[0].depth || m.depth == vs[1].depth;
      } else {
        assert vs[kd + 1] == ws[kd];
      }
      if |vs| > 2 {
        assert ws[|ws| - 1] == vs[|vs| - 1];
      }
    }
  }

  /** Where two neighbours do not combine the pass treats the two sides
      independently: the combination of the whole is that of the part up to
      them followed by that of the rest. */
  lemma {:induction false} CombineSplits(xs: seq<Box>, ys: seq<Box>)
    requires xs == [] || ys == [] || !Combinable(xs[|xs| - 1], ys[0])
    ensures Combine(xs + ys) == Combine(xs) + Combine(ys)
    decreases |xs|
  {
    if xs == [] {
      assert xs + ys == ys;
    } else if ys == [] {
      assert xs + ys == xs;
    } else if |xs| == 1 {
      assert (xs + ys)[0] == xs[0] && (xs + ys)[1] == ys[0] && (xs + ys)[1..] == ys;
    } else if Combinable(xs[0], xs[1]) {
      var m := Merge(xs[0], xs[1]);
      var ws := [m] + xs[2..];
      if |xs| == 2 {
        CombinableByKey(m, xs[1], ys[0]);
      } else {
        assert ws[|ws| - 1] == xs[|xs| - 1];
      }
      CombineSplits(ws, ys);
      SplitAfterMerge(xs, ys, ws);
    } else {
      CombineSplits(xs[1..], ys);
      SplitAfterStep(xs, ys);
    }
  }

  /** The merging step of CombineSplits. */
  lemma {:induction false} SplitAfterMerge(xs: seq<Box>, ys: seq<Box>, ws: seq<Box>)
    requires |xs| >= 2 && Combinable(xs[0], xs[1])
    requires ws == [Merge(xs[0], xs[1])] + xs[2..]
    requires Combine(ws + ys) == Combine(ws) + Combine(ys)
    ensures Combine(xs + ys) == Combine(xs) + Combine(ys)
  {
    var zs := xs + ys;
    var m := Merge(xs[0], xs[1]);
    assert Combine(zs) == Combine(ws + ys) by {
      assert zs[0] == xs[0] && zs[1] == xs[1];
      assert [m] + zs[2..] == ws + ys by { assert zs[2..] == xs[2..] + ys; }
    }
    assert Combine(xs) == Combine(ws);
  }

  /** The stepping step of CombineSplits. */
  lemma {:induction false} SplitAfterStep(xs: seq<Box>, ys: seq<Box>)
    requires |xs| >= 2 && !Combinable(xs[0], xs[1])
    requires Combine(xs[1..] + ys) == Combine(xs[1..]) + Combine(ys)
    ensures Combine(xs + ys) == Combine(xs) + Combine(ys)
  {
    var zs := xs + ys;
    assert Combine(zs) == [xs[0]] + Combine(xs[1..] + ys) by {
      assert zs[0] == xs[0] && zs[1] == xs[1];
      assert zs[1..] == xs[1..] + ys;
    }
    var left, right := Combine(xs[1..]), Combine(ys);
    assert Combine(xs) == [xs[0]] + left;
    assert [xs[0]] + (left + right) == ([xs[0]] + left) + right;
  }

  /** A run that does not combine with what follows it becomes one symbol in
      front of the combination of the rest; RunMergesIntoOne states its text,
      height, depth and italic correction. */
  lemma {:induction false} RunThenRest(run: seq<Box>, rest: seq<Box>)
    requires |run| > 0 && IsRun(run)
    requires rest == [] || !Combinable(run[|run| - 1], rest[0])
    ensures |Combine(run)| == 1
    ensures Combine(run + rest) == [Combine(run)[0]] + Combine(rest)
  {
    RunMergesIntoOne(run);
    CombineSplits(run, rest);
  }

  /** A box that is not a symbol combines with nothing: it stays in place and
      splits the pass into the parts before and after it. */
  lemma {:induction false} NonSymbolStaysInPlace(xs: seq<Box>, b: Box, ys: seq<Box>)
    requires b.kind != SymbolNode
    ensures Combine(xs + [b] + ys) == Combine(xs) + [b] + Combine(ys)
  {
    CombineSplits(xs, [b] + ys);
    CombineSplits([b], ys);
    assert xs + [b] + ys == xs + ([b] + ys);
  }

  /** A piece of buildHTML's output: the expression boxes lo..hi-1 in one
      unbreakable chunk, or the newline box at `at` on its own. */
  datatype Piece = Chunk(lo: nat, hi: nat) | Line(at: nat)

  /** Breaks are allowed after a bin or rel box. */
  predicate IsBreaker(k: set<CssClass>)
  {
    mbin in k || mrel in k
  }

  /** The last of the space boxes that directly follow box i (i if none does). */
  function GlueEnd(ks: seq<set<CssClass>>, i: nat): (e: nat)
    requires i < |ks|
    ensures i <= e < |ks|
    ensures forall k :: i < k <= e ==> mspace in ks[k]
    ensures e + 1 == |ks| || mspace !in ks[e + 1]
    decreases |ks| - i
  {
    if i + 1 < |ks| && mspace in ks[i + 1] then GlueEnd(ks, i + 1) else i
  }

  /** Some box of lo..hi-1 carries nobreak. */
  predicate HasNobreak(ks: seq<set<CssClass>>, lo: nat, hi: nat)
    requires lo <= hi <= |ks|
  {
    exists k :: lo <= k < hi && nobreak in ks[k]
  }

  /** Widening the range by one box. */
  lemma {:induction false} HasNobreakSnoc(ks: seq<set<CssClass>>, lo: nat, hi: nat)
    requires lo <= hi < |ks|
    ensures HasNobreak(ks, lo, hi + 1) <==> HasNobreak(ks, lo, hi) || nobreak in ks[hi]
  {
  }

  /** buildHTML's loop from box i on, with the current part starting at `start`. */
  function Plan(ks: seq<set<CssClass>>, i: nat, start: nat): seq<Piece>
    requires start <= i <= |ks|
    decreases |ks| - i
  {
    if i == |ks| then (if start < i then [Chunk(start, i)] else [])
    else if IsBreaker(ks[i]) then
      var e := GlueEnd(ks, i);
      if HasNobreak(ks, i + 1, e + 1) then Plan(ks, e + 1, start)
      else [Chunk(start, e + 1)] + Plan(ks, e + 1, e + 1)
    else if newline in ks[i] then
      (if start < i then [Chunk(start, i)] else []) + [Line(i)] + Plan(ks, i + 1, i + 1)
    else Plan(ks, i + 1, start)
  }

  /** Plan after a bin or rel box at i, whose glue runs to e: the part goes
      on through the glue when some of it has nobreak, and is cut after the
      glue otherwise. */
  lemma {:induction false} PlanAtOperator(ks: seq<set<CssClass>>, i: nat, start: nat, done: seq<Piece>)
    requires start <= i < |ks| && IsBreaker(ks[i])
    ensures var e := GlueEnd(ks, i);
            done + Plan(ks, i, start) ==
            if HasNobreak(ks, i + 1, e + 1) then done + Plan(ks, e + 1, start)
            else (done + [Chunk(start, e + 1)]) + Plan(ks, e + 1, e + 1)
  {
  }

  /** Plan at a newline box that is not an operator: the part before it, if
      any, then the newline on its own. */
  lemma {:induction false} PlanAtNewline(ks: seq<set<CssClass>>, i: nat, start: nat, done: seq<Piece>)
    requires start <= i < |ks| && !IsBreaker(ks[i]) && newline in ks[i]
    ensures done + Plan(ks, i, start) ==
            (done + (if start < i then [Chunk(start, i)] else []) + [Line(i)]) + Plan(ks, i + 1, i + 1)
  {
  }

  /** Any other box joins the current part. */
  lemma {:induction false} PlanAtOther(ks: seq<set<CssClass>>, i: nat, start: nat)
    requires start <= i < |ks| && !IsBreaker(ks[i]) && newline !in ks[i]
    ensures Plan(ks, i, start) == Plan(ks, i + 1, start)
  {
  }

  /** The pieces of the whole expression. */
  function Pieces(ks: seq<set<CssClass>>): seq<Piece>
  {
    Plan(ks, 0, 0)
  }

  /** lo, lo+1, ..., hi-1. */
  function Range(lo: nat, hi: nat): (r: seq<nat>)
    requires lo <= hi
    ensures |r| == hi - lo && forall k :: 0 <= k < |r| ==> r[k] == lo + k
  {
    seq(hi - lo, k requires 0 <= k < hi - lo => lo + k)
  }

  /** The expression positions one piece holds. */
  function PieceSpan(p: Piece): seq<nat>
  {
    match p
    case Chunk(lo, hi) => if lo <= hi then Range(lo, hi) else []
    case Line(k) => [k]
  }

  /** The expression positions a list of pieces holds, in order. */
  function Positions(ps: seq<Piece>): seq<nat>
  {
    if ps == [] then [] else PieceSpan(ps[0]) + Positions(ps[1..])
  }

  lemma {:induction false} PositionsCons(p: Piece, rest: seq<Piece>)
    ensures Positions([p] + rest) == PieceSpan(p) + Positions(rest)
  {
    assert ([p] + rest)[1..] == rest;
  }

  lemma {:induction false} PositionsAppend(a: seq<Piece>, b: seq<Piece>)
    ensures Positions(a + b) == Positions(a) + Positions(b)
  {
    if a != [] {
      assert (a + b)[1..] == a[1..] + b;
      PositionsAppend(a[1..], b);
    } else {
      assert a + b == b;
    }
  }

  lemma {:induction false} RangeAppend(a: nat, b: nat, c: nat)
    requires a <= b <= c
    ensures Range(a, b) + Range(b, c) == Range(a, c)
  {
  }

  lemma {:induction false} PositionsOfChunk(lo: nat, hi: nat)
    requires lo <= hi
    ensures Positions([Chunk(lo, hi)]) == Range(lo, hi)
  {
    PositionsCons(Chunk(lo, hi), []);
  }

  /** The pieces from box i on hold the positions start..|ks|-1 in order: the
      chunks and the standalone newlines together are the expression. */
  lemma {:induction false} PlanCovers(ks: seq<set<CssClass>>, i: nat, start: nat)
    requires start <= i <= |ks|
    ensures Positions(Plan(ks, i, start)) == Range(start, |ks|)
    decreases |ks| - i
  {
    if i == |ks| {
      if start < i {
        PositionsOfChunk(start, i);
      }
    } else if IsBreaker(ks[i]) {
      var next := GlueEnd(ks, i) + 1;
      if HasNobreak(ks, i + 1, next) {
        PlanCovers(ks, next, start);
        CoverThroughGlue(ks, i, start, next);
      } else {
        PlanCovers(ks, next, next);
        CoverAfterGlue(ks, i, start, next);
      }
    } else if newline in ks[i] {
      PlanCovers(ks, i + 1, i + 1);
      CoverAtNewline(ks, i, start);
    } else {
      PlanCovers(ks, i + 1, start);
    }
  }

  /** An operator whose glue has nobreak: the part goes on. */
  lemma {:induction false} CoverThroughGlue(ks: seq<set<CssClass>>, i: nat, start: nat, next: nat)
    requires start <= i < |ks| && IsBreaker(ks[i]) && next == GlueEnd(ks, i) + 1
    requires HasNobreak(ks, i + 1, next)
    requires Positions(Plan(ks, next, start)) == Range(start, |ks|)
    ensures Positions(Plan(ks, i, start)) == Range(start, |ks|)
  {
    assert Plan(ks, i, start) == Plan(ks, next, start);
  }

  /** An operator whose glue has no nobreak: the part ends after the glue. */
  lemma {:induction false} CoverAfterGlue(ks: seq<set<CssClass>>, i: nat, start: nat, next: nat)
    requires start <= i < |ks| && IsBreaker(ks[i]) && next == GlueEnd(ks, i) + 1
    requires !HasNobreak(ks, i + 1, next)
    requires Positions(Plan(ks, next, next)) == Range(next, |ks|)
    ensures Positions(Plan(ks, i, start)) == Range(start, |ks|)
  {
    assert Plan(ks, i, start) == [Chunk(start, next)] + Plan(ks, next, next);
    CoverAfterBreak(|ks|, start, next, Plan(ks, next, next));
  }

  lemma {:induction false} CoverAtNewline(ks: seq<set<CssClass>>, i: nat, start: nat)
    requires start <= i < |ks| && !IsBreaker(ks[i]) && newline in ks[i]
    requires Positions(Plan(ks, i + 1, i + 1)) == Range(i + 1, |ks|)
    ensures Positions(Plan(ks, i, start)) == Range(start, |ks|)
  {
    CoverAroundLine(|ks|, start, i, Plan(ks, i + 1, i + 1));
  }

  lemma {:induction false} CoverAfterBreak(n: nat, start: nat, e1: nat, rest: seq<Piece>)
    requires start <= e1 <= n
    requires Positions(rest) == Range(e1, n)
    ensures Positions([Chunk(start, e1)] + rest) == Range(start, n)
  {
    PositionsCons(Chunk(start, e1), rest);
    RangeAppend(start, e1, n);
  }

  lemma {:induction false} CoverAroundLine(n: nat, start: nat, i: nat, rest: seq<Piece>)
    requires start <= i < n
    requires Positions(rest) == Range(i + 1, n)
    ensures Positions((if start < i then [Chunk(start, i)] else []) + [Line(i)] + rest) == Range(start, n)
  {
    var tail := [Line(i)] + rest;
    CoverFromLine(n, i, rest);
    if start < i {
      CoverAfterBreak(n, start, i, tail);
      ConsAssoc(Chunk(start, i), Line(i), rest);
    } else {
      assert [] + [Line(i)] + rest == tail;
    }
  }

  lemma {:induction false} CoverFromLine(n: nat, i: nat, rest: seq<Piece>)
    requires i < n
    requires Positions(rest) == Range(i + 1, n)
    ensures Positions([Line(i)] + rest) == Range(i, n)
  {
    PositionsCons(Line(i), rest);
    assert Range(i, i + 1) == [i];
    RangeAppend(i, i + 1, n);
  }

  lemma {:induction false} ConsAssoc(p: Piece, q: Piece, rest: seq<Piece>)
    ensures [p] + [q] + rest == [p] + ([q] + rest)
  {
  }

  /** A newline box that is neither an operator nor a space (space boxes after
      an operator are absorbed as its glue before the newline test). */
  predicate StandaloneNewline(k: set<CssClass>)
  {
    newline in k && !IsBreaker(k) && mspace !in k
  }

  /** The shape of every piece: chunks are non-empty and end at the end of
      the expression, before a standalone newline, or after a bin or rel box
      and the spaces that follow it when none of them has nobreak; a newline
      box stands alone exactly when it is not a bin or rel box, and never sits
      inside a chunk. */
  predicate WellCut(ks: seq<set<CssClass>>, p: Piece)
  {
    match p
    case Line(k) => k < |ks| && newline in ks[k] && !IsBreaker(ks[k])
    case Chunk(lo, hi) =>
      && lo < hi <= |ks|
      && (forall k :: lo <= k < hi ==> !StandaloneNewline(ks[k]))
      && (|| hi == |ks|
          || (newline in ks[hi] && !IsBreaker(ks[hi]))
          || exists b :: lo <= b < hi && IsBreaker(ks[b]) && GlueEnd(ks, b) == hi - 1 &&
                         !HasNobreak(ks, b + 1, hi))
  }

  /** Every piece of the plan is well cut. */
  lemma {:induction false} PlanIsWellCut(ks: seq<set<CssClass>>, i: nat, start: nat)
    requires start <= i <= |ks|
    requires forall k :: start <= k < i ==> !StandaloneNewline(ks[k])
    ensures forall p :: p in Plan(ks, i, start) ==> WellCut(ks, p)
    decreases |ks| - i
  {
    var n := |ks|;
    if i == n {
    } else if IsBreaker(ks[i]) {
      var e := GlueEnd(ks, i);
      if HasNobreak(ks, i + 1, e + 1) {
        PlanIsWellCut(ks, e + 1, start);
      } else {
        PlanIsWellCut(ks, e + 1, e + 1);
        assert WellCut(ks, Chunk(start, e + 1)) by {
          assert IsBreaker(ks[i]) && GlueEnd(ks, i) == e + 1 - 1;
        }
      }
    } else if newline in ks[i] {
      PlanIsWellCut(ks, i + 1, i + 1);
    } else {
      PlanIsWellCut(ks, i + 1, start);
    }
  }

  /** "a+b=c" as buildExpression leaves it (ord, glue, bin, glue, ord, glue,
      rel, glue, ord) is cut after "a+", after "b=" and at the end. */
  lemma ChunkSample()
    ensures Pieces([{mord}, {mspace}, {mbin}, {mspace}, {mord}, {mspace}, {mrel}, {mspace}, {mord}])
         == [Chunk(0, 4), Chunk(4, 8), Chunk(8, 9)]
  {
    var ks := [{mord}, {mspace}, {mbin}, {mspace}, {mord}, {mspace}, {mrel}, {mspace}, {mord}];
    assert GlueEnd(ks, 2) == 3 && GlueEnd(ks, 6) == 7;
    assert !HasNobreak(ks, 3, 4) && !HasNobreak(ks, 7, 8);
  }

  /** A nobreak space after the operator keeps it on one line with what follows. */
  lemma NobreakSample()
    ensures Pieces([{mord}, {mrel}, {mspace, nobreak}, {mord}]) == [Chunk(0, 4)]
  {
    var ks := [{mord}, {mrel}, {mspace, nobreak}, {mord}];
    assert GlueEnd(ks, 1) == 2;
    assert HasNobreak(ks, 2, 3) by { assert nobreak in ks[2]; }
  }

  /** A newline flushes the line before it and stands alone. */
  lemma NewlineSample()
    ensures Pieces([{mord}, {newline}, {mord}]) == [Chunk(0, 1), Line(1), Chunk(2, 3)]
  {
  }
}
