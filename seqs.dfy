/** Sequence vocabulary shared by the assembly passes: a mask-driven filter
    (Kotlin's `filter`), weaving optional items in after elements (glue
    insertion) and undoing it, and distinctness (no node aliased twice). */
module Seqs {
  import opened Common

  /** No element occurs twice. */
  predicate Distinct<T(==)>(xs: seq<T>)
  {
    forall i, j :: 0 <= i < j < |xs| ==> xs[i] != xs[j]
  }

  /** Removing one element keeps the rest distinct, and adds nothing. */
  lemma {:induction false} DistinctRemove<T>(xs: seq<T>, k: nat)
    requires Distinct(xs) && k < |xs|
    ensures Distinct(xs[..k] + xs[k + 1..])
    ensures forall x :: x in xs[..k] + xs[k + 1..] ==> x in xs
  {
    var ys := xs[..k] + xs[k + 1..];
    assert forall m :: 0 <= m < |ys| ==> ys[m] == xs[if m < k then m else m + 1];
  }

  /** The front of a list extended by one element is the list. */
  lemma {:induction false} TakeSnoc<T>(xs: seq<T>, x: T)
    ensures (xs + [x])[..|xs|] == xs && (xs + [x])[|xs|] == x
  {
    var ys := xs + [x];
    assert forall k :: 0 <= k < |xs| ==> ys[..|xs|][k] == xs[k];
  }

  /** A prefix one longer, cut back by one. */
  lemma {:induction false} TakeTake<T>(xs: seq<T>, i: nat)
    requires i < |xs|
    ensures xs[..i + 1][..i] == xs[..i] && xs[..i + 1][i] == xs[i]
  {
    assert forall k :: 0 <= k < i ==> xs[..i + 1][..i][k] == xs[..i][k];
  }

  /** The elements of xs whose mask entry is true, in order. */
  function Filter<T>(xs: seq<T>, keep: seq<bool>): (r: seq<T>)
    requires |xs| == |keep|
    ensures |r| <= |xs|
  {
    if xs == [] then []
    else (if keep[0] then [xs[0]] else []) + Filter(xs[1..], keep[1..])
  }

  /** Filtering a concatenation filters each part. */
  lemma {:induction false} FilterSplit<T>(xs: seq<T>, keep: seq<bool>, i: nat)
    requires |xs| == |keep| && i <= |xs|
    ensures Filter(xs, keep) == Filter(xs[..i], keep[..i]) + Filter(xs[i..], keep[i..])
  {
    if i > 0 {
      FilterSplit(xs[1..], keep[1..], i - 1);
      assert xs[1..][..i - 1] == xs[..i][1..];
      assert keep[1..][..i - 1] == keep[..i][1..];
      assert xs[1..][i - 1..] == xs[i..];
      assert keep[1..][i - 1..] == keep[i..];
    } else {
      assert xs[..0] == [] && xs[0..] == xs && keep[0..] == keep;
    }
  }

  /** One more element at the end of the prefix. */
  lemma {:induction false} FilterSnoc<T>(xs: seq<T>, keep: seq<bool>, i: nat)
    requires |xs| == |keep| && i < |xs|
    ensures Filter(xs[..i + 1], keep[..i + 1]) ==
            Filter(xs[..i], keep[..i]) + (if keep[i] then [xs[i]] else [])
  {
    var a, m := xs[..i + 1], keep[..i + 1];
    FilterSplit(a, m, i);
    assert a[..i] == xs[..i] && m[..i] == keep[..i];
    assert a[i..] == [xs[i]] && m[i..] == [keep[i]];
    assert Filter(a[i..], m[i..]) == (if keep[i] then [xs[i]] else []) + Filter(a[i..][1..], m[i..][1..]);
  }

  /** One element off the front of a suffix. */
  lemma {:induction false} FilterUnfold<T>(xs: seq<T>, keep: seq<bool>, i: nat)
    requires |xs| == |keep| && i < |xs|
    ensures Filter(xs[i..], keep[i..]) ==
            (if keep[i] then [xs[i]] else []) + Filter(xs[i + 1..], keep[i + 1..])
  {
    assert xs[i..][1..] == xs[i + 1..] && keep[i..][1..] == keep[i + 1..];
  }

  /** A kept element sits in the filtered sequence just after the kept
      elements before it, and the kept elements after it follow. */
  lemma {:induction false} FilterAt<T>(xs: seq<T>, keep: seq<bool>, i: nat)
    requires |xs| == |keep| && i < |xs| && keep[i]
    ensures var f, b := Filter(xs, keep), |Filter(xs[..i], keep[..i])|;
            b < |f| && f[b] == xs[i] && f[b + 1..] == Filter(xs[i + 1..], keep[i + 1..])
  {
    FilterSplit(xs, keep, i);
    FilterUnfold(xs, keep, i);
    var before, rest := Filter(xs[..i], keep[..i]), Filter(xs[i + 1..], keep[i + 1..]);
    var f := Filter(xs, keep);
    assert f == before + ([xs[i]] + rest);
    assert f[|before| + 1..] == rest;
  }

  /** Every element of the filtered sequence comes from xs. */
  lemma {:induction false} FilterElements<T>(xs: seq<T>, keep: seq<bool>)
    requires |xs| == |keep|
    ensures forall x :: x in Filter(xs, keep) ==> x in xs
  {
    if xs != [] {
      FilterElements(xs[1..], keep[1..]);
    }
  }

  /** Filtering keeps distinct elements distinct. */
  lemma {:induction false} FilterDistinct<T>(xs: seq<T>, keep: seq<bool>)
    requires |xs| == |keep| && Distinct(xs)
    ensures Distinct(Filter(xs, keep))
  {
    if xs != [] {
      FilterDistinct(xs[1..], keep[1..]);
      FilterElements(xs[1..], keep[1..]);
      var rest := Filter(xs[1..], keep[1..]);
      assert xs[0] !in xs[1..] by {
        forall k | 0 <= k < |xs[1..]| ensures xs[1..][k] != xs[0] {
          assert xs[1..][k] == xs[k + 1];
        }
      }
      assert xs[0] !in rest;
    }
  }

  /** In a list without repeats, an element survives the filter exactly when
      its mask entry is true. */
  lemma {:induction false} FilterMembership<T>(xs: seq<T>, keep: seq<bool>, k: nat)
    requires |xs| == |keep| && Distinct(xs) && k < |xs|
    ensures xs[k] in Filter(xs, keep) <==> keep[k]
  {
    var rest := Filter(xs[1..], keep[1..]);
    FilterElements(xs[1..], keep[1..]);
    assert xs[0] !in xs[1..] by {
      forall m | 0 <= m < |xs[1..]| ensures xs[1..][m] != xs[0] {
        assert xs[1..][m] == xs[m + 1];
      }
    }
    if k > 0 {
      assert xs[1..][k - 1] == xs[k] && keep[1..][k - 1] == keep[k];
      FilterMembership(xs[1..], keep[1..], k - 1);
    }
  }

  /** The first index at or after `from` whose mask entry is true. */
  function NextKept(keep: seq<bool>, from: nat): (r: Option<nat>)
    requires from <= |keep|
    ensures r.None? ==> forall k :: from <= k < |keep| ==> !keep[k]
    ensures r.Some? ==> from <= r.value < |keep| && keep[r.value] &&
                        forall k :: from <= k < r.value ==> !keep[k]
    decreases |keep| - from
  {
    if from == |keep| then None
    else if keep[from] then Some(from)
    else NextKept(keep, from + 1)
  }

  /** The filtered suffix is empty exactly when nothing is kept after `from`,
      and otherwise starts with the next kept element. */
  lemma {:induction false} FilterHead<T>(xs: seq<T>, keep: seq<bool>, from: nat)
    requires |xs| == |keep| && from <= |xs|
    ensures var f := Filter(xs[from..], keep[from..]);
            (f == [] <==> NextKept(keep, from).None?) &&
            (NextKept(keep, from).Some? ==> f[0] == xs[NextKept(keep, from).value])
    decreases |xs| - from
  {
    if from < |xs| {
      FilterUnfold(xs, keep, from);
      if !keep[from] {
        FilterHead(xs, keep, from + 1);
      }
    } else {
      assert xs[from..] == [];
    }
  }

  /** The optional companion as a list of zero or one elements. */
  function Companion<T>(g: Option<T>): (r: seq<T>)
    ensures |r| == (if g.Some? then 1 else 0) && (g.Some? ==> r[0] == g.value)
  {
    if g.Some? then [g.value] else []
  }

  /** The first |gs| elements of xs, each followed by its optional companion. */
  function Weave<T>(xs: seq<T>, gs: seq<Option<T>>): (r: seq<T>)
    requires |gs| <= |xs|
    ensures |r| >= |gs|
  {
    if |gs| == 0 then []
    else
      var n := |gs| - 1;
      Weave(xs, gs[..n]) + [xs[n]] + Companion(gs[n])
  }

  /** Which elements have a companion. */
  function Marks<T>(gs: seq<Option<T>>): (m: seq<bool>)
    ensures |m| == |gs| && forall k :: 0 <= k < |gs| ==> (m[k] <==> gs[k].Some?)
  {
    seq(|gs|, k requires 0 <= k < |gs| => gs[k].Some?)
  }

  /** Drops the companion after every marked element. */
  function Unweave<T>(ys: seq<T>, marks: seq<bool>): seq<T>
  {
    if marks == [] then []
    else
      var k := if marks[|marks| - 1] then 2 else 1;
      if |ys| < k then []
      else Unweave(ys[..|ys| - k], marks[..|marks| - 1]) + [ys[|ys| - k]]
  }

  /** Removing the companions gives back the woven elements in order. */
  lemma {:induction false} UnweavePrefix<T>(xs: seq<T>, gs: seq<Option<T>>)
    requires |gs| <= |xs|
    ensures Unweave(Weave(xs, gs), Marks(gs)) == xs[..|gs|]
  {
    if |gs| > 0 {
      var n := |gs| - 1;
      var w := Weave(xs, gs[..n]);
      var c := Companion(gs[n]);
      UnweaveStep(w, xs[n], c, Marks(gs));
      MarksTake(gs, n);
      UnweavePrefix(xs, gs[..n]);
      TakeExtend(xs, n);
    }
  }

  /** Unweaving past one element and its companion. */
  lemma {:induction false} UnweaveStep<T>(w: seq<T>, x: T, c: seq<T>, marks: seq<bool>)
    requires marks != [] && (marks[|marks| - 1] <==> |c| == 1) && |c| <= 1
    ensures Unweave(w + [x] + c, marks) == Unweave(w, marks[..|marks| - 1]) + [x]
  {
    var ys := w + [x] + c;
    var k := if marks[|marks| - 1] then 2 else 1;
    assert |ys| - k == |w|;
    assert ys[..|w|] == w;
    assert ys[|w|] == x;
  }

  /** The marks of a prefix are the prefix of the marks. */
  lemma {:induction false} MarksTake<T>(gs: seq<Option<T>>, n: nat)
    requires n <= |gs|
    ensures Marks(gs)[..n] == Marks(gs[..n])
  {
  }

  /** A prefix grown by the next element. */
  lemma {:induction false} TakeExtend<T>(xs: seq<T>, i: nat)
    requires i < |xs|
    ensures xs[..i] + [xs[i]] == xs[..i + 1]
  {
  }

  /** Weaving a companion for every element and removing them again gives
      back the elements. */
  lemma {:induction false} UnweaveWeave<T>(xs: seq<T>, gs: seq<Option<T>>)
    requires |xs| == |gs|
    ensures Unweave(Weave(xs, gs), Marks(gs)) == xs
  {
    UnweavePrefix(xs, gs);
    assert xs[..|gs|] == xs;
  }

  /** Weaving one more element of xs, with its companion. */
  lemma {:induction false} WeaveStep<T>(xs: seq<T>, gs: seq<Option<T>>, g: Option<T>)
    requires |gs| < |xs|
    ensures Weave(xs, gs + [g]) == Weave(xs, gs) + [xs[|gs|]] + Companion(g)
  {
    TakeSnoc(gs, g);
  }

  /** The number of present companions. */
  function CountSome<T>(gs: seq<Option<T>>): nat
  {
    if gs == [] then 0
    else CountSome(gs[..|gs| - 1]) + (if gs[|gs| - 1].Some? then 1 else 0)
  }

  /** The woven sequence has one extra element per companion. */
  lemma {:induction false} WeaveLength<T>(xs: seq<T>, gs: seq<Option<T>>)
    requires |gs| <= |xs|
    ensures |Weave(xs, gs)| == |gs| + CountSome(gs)
  {
    if gs != [] {
      WeaveLength(xs, gs[..|gs| - 1]);
    }
  }
}
