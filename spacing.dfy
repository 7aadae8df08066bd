/** Atom classes, bin cancellation and the inter-atom spacing tables
    (RenderTreeBuilder.kt, getTypeOfDomTree to makeGlue), as functions on
    class sets. */
module Spacing {
  import opened Common
  import opened Seqs

  /** domEnum, in its iteration order. */
  const DomEnum: seq<CssClass> := [mord, mop, mbin, mrel, mopen, mclose, mpunct, minner]

  /** One of the eight atom classes of domEnum. */
  predicate IsAtom(c: CssClass)
  {
    c.mord? || c.mop? || c.mbin? || c.mrel? || c.mopen? || c.mclose? || c.mpunct? || c.minner?
  }

  /** The atom class of a node with classes `k`: the first class of domEnum it
      has, EMPTY when it has none. */
  function ClassOf(k: set<CssClass>): (c: CssClass)
    ensures c == EMPTY || (c in DomEnum && c in k)
  {
    if mord in k then mord
    else if mop in k then mop
    else if mbin in k then mbin
    else if mrel in k then mrel
    else if mopen in k then mopen
    else if mclose in k then mclose
    else if mpunct in k then mpunct
    else if minner in k then minner
    else EMPTY
  }

  /** A node's class is the first atom class of domEnum it contains. */
  lemma {:induction false} ClassOfIsFirstAtomClass(k: set<CssClass>)
    ensures ClassOf(k) == EMPTY <==> (forall c :: c in DomEnum ==> c !in k)
    ensures ClassOf(k) != EMPTY ==>
              ClassOf(k) in k && forall c :: c in k && c in DomEnum ==> AtomRank(ClassOf(k)) <= AtomRank(c)
  {
    var c := ClassOf(k);
    if c != EMPTY {
      var i :| 0 <= i < |DomEnum| && DomEnum[i] == c && forall j :: 0 <= j < i ==> DomEnum[j] !in k;
      forall d | d in k && d in DomEnum ensures AtomRank(c) <= AtomRank(d) {
        assert DomEnum[AtomRank(d)] == d;
      }
    } else {
      forall d | d in DomEnum ensures d !in k {
        assert DomEnum[AtomRank(d)] == d;
      }
    }
  }

  /** The position of an atom class in domEnum. */
  function AtomRank(c: CssClass): (r: nat)
    requires IsAtom(c)
    ensures r < |DomEnum| && DomEnum[r] == c
  {
    match c
    case mord => 0
    case mop => 1
    case mbin => 2
    case mrel => 3
    case mopen => 4
    case mclose => 5
    case mpunct => 6
    case minner => 7
  }

  /** Left neighbours after which a bin becomes an ord (TeXbook Appendix G, rule 5). */
  predicate IsLeftCancellerClass(c: CssClass)
  {
    c == mbin || c == mopen || c == mrel || c == mop || c == mpunct
  }

  /** Right neighbours before which a bin becomes an ord (TeXbook Appendix G, rule 6). */
  predicate IsRightCancellerClass(c: CssClass)
  {
    c == mrel || c == mclose || c == mpunct
  }

  /** isBinLeftCanceller on the classes of the left neighbour, None for no neighbour. */
  function LeftCancels(prev: Option<set<CssClass>>, isRealGroup: bool): (b: bool)
    ensures prev.None? ==> (b <==> isRealGroup)
    ensures prev.Some? ==> (b <==> ClassOf(prev.value) in {mbin, mopen, mrel, mop, mpunct})
  {
    if prev.Some? then IsLeftCancellerClass(ClassOf(prev.value)) else isRealGroup
  }

  /** isBinRightCanceller on the classes of the right neighbour. */
  function RightCancels(next: Option<set<CssClass>>, isRealGroup: bool): (b: bool)
    ensures next.None? ==> (b <==> isRealGroup)
    ensures next.Some? ==> (b <==> ClassOf(next.value) in {mrel, mclose, mpunct})
  {
    if next.Some? then IsRightCancellerClass(ClassOf(next.value)) else isRealGroup
  }

  /** Turning a bin into an ord: mbin is removed and mord added. */
  function ToOrd(k: set<CssClass>): set<CssClass>
  {
    k - {mbin} + {mord}
  }

  function At(cs: seq<set<CssClass>>, i: int): Option<set<CssClass>>
  {
    if 0 <= i < |cs| then Some(cs[i]) else None
  }

  /** What the cancellation loop does to one node with classes `me`, given its
      left and right neighbours: first the left test, then, on the result, the
      right test. */
  function StepOn(left: Option<set<CssClass>>, me: set<CssClass>, right: Option<set<CssClass>>,
                  isRealGroup: bool): set<CssClass>
  {
    var afterLeft := if mbin in me && LeftCancels(left, isRealGroup) then ToOrd(me) else me;
    if mbin in afterLeft && RightCancels(right, isRealGroup) then ToOrd(afterLeft) else afterLeft
  }

  /** A node is rewritten at most once: either test alone turns a bin into an ord. */
  lemma {:induction false} StepOnEitherSide(left: Option<set<CssClass>>, me: set<CssClass>, right: Option<set<CssClass>>,
                         g: bool)
    ensures StepOn(left, me, right, g) ==
            if mbin in me && (LeftCancels(left, g) || RightCancels(right, g)) then ToOrd(me) else me
  {
    assert mbin !in ToOrd(me);
  }

  /** The cancellation loop from index i on, left to right: the step at i sees
      the already rewritten left neighbour and the not yet rewritten right one. */
  function CancelFrom(cs: seq<set<CssClass>>, i: nat, isRealGroup: bool): (r: seq<set<CssClass>>)
    requires i <= |cs|
    ensures |r| == |cs|
    decreases |cs| - i
  {
    if i == |cs| then cs
    else CancelFrom(cs[i := StepOn(At(cs, i - 1), cs[i], At(cs, i + 1), isRealGroup)], i + 1, isRealGroup)
  }

  /** The classes of the non-space nodes after bin cancellation. */
  function CancelBins(cs: seq<set<CssClass>>, isRealGroup: bool): (r: seq<set<CssClass>>)
    ensures |r| == |cs|
  {
    CancelFrom(cs, 0, isRealGroup)
  }

  /** The loop leaves the indices it has passed alone. */
  lemma {:induction false} CancelFromKeepsPrefix(cs: seq<set<CssClass>>, i: nat, g: bool, k: nat)
    requires k < i <= |cs|
    ensures CancelFrom(cs, i, g)[k] == cs[k]
    decreases |cs| - i
  {
    if i < |cs| {
      CancelFromKeepsPrefix(cs[i := StepOn(At(cs, i - 1), cs[i], At(cs, i + 1), g)], i + 1, g, k);
    }
  }

  /** Every index k >= i ends up as one step on its final left neighbour and
      its original right neighbour. */
  lemma {:induction false} CancelFromAt(cs: seq<set<CssClass>>, i: nat, g: bool, k: nat)
    requires i <= k < |cs|
    ensures var r := CancelFrom(cs, i, g);
            r[k] == StepOn(At(r, k - 1), cs[k], At(cs, k + 1), g)
    decreases |cs| - i
  {
    var cs1 := cs[i := StepOn(At(cs, i - 1), cs[i], At(cs, i + 1), g)];
    var r := CancelFrom(cs, i, g);
    assert r == CancelFrom(cs1, i + 1, g);
    if k == i {
      CancelFromKeepsPrefix(cs1, i + 1, g, i);
      if i >= 1 {
        CancelFromKeepsPrefix(cs1, i + 1, g, i - 1);
      }
      assert At(r, k - 1) == At(cs, k - 1);
    } else {
      CancelFromAt(cs1, i + 1, g, k);
      assert At(cs1, k + 1) == At(cs, k + 1);
    }
  }

  /** The cancellation pass, characterised without its loop: a node turns from
      bin to ord exactly when it is a bin and either its left neighbour (as
      already rewritten) is a left canceller or its right neighbour (not yet
      rewritten) is a right canceller; a missing neighbour cancels exactly in a
      real group. */
  lemma {:induction false} CancelBinsCharacterization(cs: seq<set<CssClass>>, g: bool)
    ensures var r := CancelBins(cs, g);
            forall k :: 0 <= k < |cs| ==>
              r[k] == if mbin in cs[k] && (LeftCancels(At(r, k - 1), g) || RightCancels(At(cs, k + 1), g))
                      then ToOrd(cs[k]) else cs[k]
  {
    var r := CancelBins(cs, g);
    forall k | 0 <= k < |cs|
      ensures r[k] == if mbin in cs[k] && (LeftCancels(At(r, k - 1), g) || RightCancels(At(cs, k + 1), g))
                      then ToOrd(cs[k]) else cs[k]
    {
      CancelFromAt(cs, 0, g, k);
      StepOnEitherSide(At(r, k - 1), cs[k], At(cs, k + 1), g);
    }
  }

  /** Cancellation only ever replaces mbin by mord: every other class of every
      node is kept, and a node is either unchanged or a former bin turned ord. */
  lemma {:induction false} CancelBinsOnlyTurnsBinsIntoOrds(cs: seq<set<CssClass>>, g: bool)
    ensures var r := CancelBins(cs, g);
            forall k :: 0 <= k < |cs| ==>
              r[k] == cs[k] || (mbin in cs[k] && r[k] == cs[k] - {mbin} + {mord})
  {
    CancelBinsCharacterization(cs, g);
  }

  /** In a real group ["+", "2"] the leading bin becomes an ord. */
  lemma LeadingBinInRealGroup()
    ensures CancelBins([{mbin}, {mord}], true) == [{mord}, {mord}]
  {
    var r := CancelBins([{mbin}, {mord}], true);
    CancelBinsCharacterization([{mbin}, {mord}], true);
    assert ClassOf({mord}) == mord;
    assert ToOrd({mbin}) == {mord};
    assert r[0] == {mord} && r[1] == {mord};
  }

  /** In "x = + y" the bin after a rel becomes an ord: mrel is a left canceller. */
  lemma BinAfterRel()
    ensures CancelBins([{mord}, {mrel}, {mbin}, {mord}], true) == [{mord}, {mrel}, {mord}, {mord}]
  {
    var cs := [{mord}, {mrel}, {mbin}, {mord}];
    var r := CancelBins(cs, true);
    CancelBinsCharacterization(cs, true);
    assert ClassOf({mrel}) == mrel;
    assert ClassOf({mord}) == mord;
    assert ToOrd({mbin}) == {mord};
    assert r[0] == {mord} && r[1] == {mrel} && r[2] == {mord} && r[3] == {mord};
  }

  /** In a partial group the missing neighbours do not cancel. */
  lemma LoneBinInPartialGroup()
    ensures CancelBins([{mbin}], false) == [{mbin}]
  {
    CancelBinsCharacterization([{mbin}], false);
  }

  const Thinspace := Measurement(3, "mu")
  const Mediumspace := Measurement(4, "mu")
  const Thickspace := Measurement(5, "mu")

  /** The space between two atoms in display and text styles; None for no space. */
  function GetSpacings(left: CssClass, right: CssClass): Option<Measurement>
  {
    match left
    case mord =>
      (match right
       case mop | minner => Some(Thinspace)
       case mbin => Some(Mediumspace)
       case mrel => Some(Thickspace)
       case _ => None)
    case mop =>
      (match right
       case mord | mop | minner => Some(Thinspace)
       case mrel => Some(Thickspace)
       case _ => None)
    case mbin =>
      (match right
       case mord | mop | mopen | minner => Some(Mediumspace)
       case _ => None)
    case mrel =>
      (match right
       case mord | mop | mopen | minner => Some(Thickspace)
       case _ => None)
    case mopen => None
    case mclose =>
      (match right
       case mop | minner => Some(Thinspace)
       case mbin => Some(Mediumspace)
       case mrel => Some(Thickspace)
       case _ => None)
    case mpunct =>
      (match right
       case mrel => Some(Thickspace)
       case mord | mop | mopen | mclose | mpunct | minner => Some(Thinspace)
       case _ => None)
    case minner =>
      (match right
       case mbin => Some(Mediumspace)
       case mrel => Some(Thickspace)
       case mord | mop | mopen | mpunct | minner => Some(Thinspace)
       case _ => None)
    case _ => None
  }

  /** The space between two atoms in script and scriptscript styles. */
  function GetTightSpacings(left: CssClass, right: CssClass): Option<Measurement>
  {
    if left == mbin || left == mrel || left == mopen || left == mpunct then None
    else if (left == mord && right == mop) || (left == mop && right == mord) ||
            (left == mop && right == mop) || (left == mclose && right == mop) ||
            (left == minner && right == mop) then Some(Thinspace)
    else None
  }

  /** An entry of the inter-atom spacing table of The TeXbook, chapter 18:
      0 to 3 stand for no space, thin, medium and thick space; `scriptToo`
      is false for the parenthesised entries, which apply only in display
      and text styles; `Impossible` marks the pairs that cannot occur. */
  datatype TexSpace = Space(amount: nat, scriptToo: bool) | Impossible

  /** One row of that table per left atom class, written one character per
      right atom class in domEnum order: '0'..'3' plain entries, 'a'..'c' the
      parenthesised entries (1) to (3), '*' impossible pairs. */
  function TexRow(left: CssClass): (row: string)
    requires IsAtom(left)
    ensures |row| == 8
  {
    match left
    case mord => "01bc000a"
    case mop => "11*c000a"
    case mbin => "bb**b**b"
    case mrel => "cc*0c00c"
    case mopen => "00*00000"
    case mclose => "01bc000a"
    case mpunct => "aa*aaaaa"
    case minner => "a1bca0aa"
  }

  function TexTable(left: CssClass, right: CssClass): TexSpace
    requires IsAtom(left) && IsAtom(right)
  {
    var e := TexRow(left)[AtomRank(right)];
    if e == '*' then Impossible
    else if '0' <= e <= '3' then Space((e as int - '0' as int) as nat, true)
    else Space((e as int - 'a' as int + 1) as nat, false)
  }

  /** The measurement for an amount of 1 to 3. */
  function SpaceOf(amount: nat): Option<Measurement>
  {
    if amount == 1 then Some(Thinspace)
    else if amount == 2 then Some(Mediumspace)
    else if amount == 3 then Some(Thickspace)
    else None
  }

  /** The TeXbook table read in display or text style. */
  function TexNormal(left: CssClass, right: CssClass): Option<Measurement>
    requires IsAtom(left) && IsAtom(right)
  {
    match TexTable(left, right)
    case Impossible => None
    case Space(a, _) => SpaceOf(a)
  }

  /** The TeXbook table read in script style: parenthesised entries vanish. */
  function TexScript(left: CssClass, right: CssClass): Option<Measurement>
    requires IsAtom(left) && IsAtom(right)
  {
    match TexTable(left, right)
    case Impossible => None
    case Space(a, s) => if s then SpaceOf(a) else None
  }

  /** getSpacings agrees with The TeXbook on every pair of atom classes but
      one: after a punctuation atom it puts a thick space before a relation,
      where TeX puts a thin one. */
  lemma {:induction false} SpacingsFollowTexBook(left: CssClass, right: CssClass)
    requires IsAtom(left) && IsAtom(right)
    ensures (left, right) != (mpunct, mrel) ==> GetSpacings(left, right) == TexNormal(left, right)
    ensures GetSpacings(mpunct, mrel) == Some(Thickspace) && TexNormal(mpunct, mrel) == Some(Thinspace)
  {
  }

  /** getTightSpacings is exactly the script-style reading of the TeXbook table. */
  lemma {:induction false} TightSpacingsFollowTexBook(left: CssClass, right: CssClass)
    requires IsAtom(left) && IsAtom(right)
    ensures GetTightSpacings(left, right) == TexScript(left, right)
  {
  }

  /** Neither table puts space next to something that is not an atom. */
  lemma {:induction false} NoSpaceBesideNonAtoms(left: CssClass, right: CssClass)
    requires !IsAtom(left) || !IsAtom(right)
    ensures GetSpacings(left, right) == None && GetTightSpacings(left, right) == None
  {
  }

  /** Script style only ever removes space, and never changes its amount. */
  lemma {:induction false} TightIsSubsetOfNormal(left: CssClass, right: CssClass)
    ensures GetTightSpacings(left, right).Some? ==>
              GetTightSpacings(left, right) == GetSpacings(left, right) == Some(Thinspace)
  {
  }

  /** The pairs the tables are usually quoted by, and the row of mopen. */
  lemma {:induction false} SpacingSamples(right: CssClass)
    ensures GetSpacings(mord, mbin) == Some(Mediumspace)
    ensures GetSpacings(mord, mrel) == Some(Thickspace)
    ensures GetSpacings(mord, mop) == Some(Thinspace)
    ensures GetSpacings(mopen, right) == None && GetTightSpacings(mopen, right) == None
  {
  }

  /** The tight table's only non-empty entries, and its silent left classes. */
  lemma {:induction false} TightSpacingEntries(left: CssClass, right: CssClass)
    ensures (left == mbin || left == mrel || left == mopen || left == mpunct) ==>
              GetTightSpacings(left, right) == None
    ensures GetTightSpacings(left, right).Some? <==>
              (left, right) in {(mord, mop), (mop, mord), (mop, mop), (mclose, mop), (minner, mop)}
  {
  }

  /** The width of glue in em: the measurement in mu scaled by the font's em
      per mu, but never more than the options' maximum size. */
  function CalculateSize(m: Measurement, options: Options): (size: real)
    ensures size <= m.number as real * options.fontMetrics.cssEmPerMu
    ensures size <= options.maxSize
    ensures size == m.number as real * options.fontMetrics.cssEmPerMu || size == options.maxSize
  {
    var scaled := m.number as real * options.fontMetrics.cssEmPerMu;
    if scaled <= options.maxSize then scaled else options.maxSize
  }

  /** Which boxes take part in spacing: everything but explicit spaces. */
  function NonSpaceMask(ks: seq<set<CssClass>>): (m: seq<bool>)
    ensures |m| == |ks| && forall k :: 0 <= k < |ks| ==> (m[k] <==> mspace !in ks[k])
  {
    seq(|ks|, k requires 0 <= k < |ks| => mspace !in ks[k])
  }

  /** The space between a non-space box and the next non-space box. */
  function SpaceBetween(left: set<CssClass>, right: set<CssClass>): Option<Measurement>
  {
    var l := ClassOf(left);
    var r := ClassOf(right);
    if l == EMPTY || r == EMPTY then None
    else if mtight in right then GetTightSpacings(l, r)
    else GetSpacings(l, r)
  }

  /** The glue buildExpression puts right after box i of a list whose class
      sets (after bin cancellation) are ks. */
  function GlueAfter(ks: seq<set<CssClass>>, i: nat, isRealGroup: bool): Option<Measurement>
    requires i < |ks|
  {
    if mspace in ks[i] || !isRealGroup then None
    else
      match NextKept(NonSpaceMask(ks), i + 1)
      case None => None
      case Some(k) => SpaceBetween(ks[i], ks[k])
  }

  /** The glue after every box. */
  function GluePlan(ks: seq<set<CssClass>>, isRealGroup: bool): (plan: seq<Option<Measurement>>)
    ensures |plan| == |ks| && forall i :: 0 <= i < |ks| ==> plan[i] == GlueAfter(ks, i, isRealGroup)
  {
    seq(|ks|, i requires 0 <= i < |ks| => GlueAfter(ks, i, isRealGroup))
  }

  /** Glue follows only a non-space box that has a next non-space box, in a
      real group, when neither has an EMPTY class and the table (the tight one
      when the right box is mtight) has an entry; it is then that entry. */
  lemma {:induction false} GlueConditions(ks: seq<set<CssClass>>, i: nat, g: bool)
    requires i < |ks|
    ensures GlueAfter(ks, i, g).Some? <==>
              mspace !in ks[i] && g &&
              exists k :: i < k < |ks| && mspace !in ks[k] &&
                (forall j :: i < j < k ==> mspace in ks[j]) &&
                ClassOf(ks[i]) != EMPTY && ClassOf(ks[k]) != EMPTY &&
                (if mtight in ks[k] then GetTightSpacings(ClassOf(ks[i]), ClassOf(ks[k]))
                 else GetSpacings(ClassOf(ks[i]), ClassOf(ks[k]))).Some?
  {
    var m := NonSpaceMask(ks);
    if mspace !in ks[i] && g {
      match NextKept(m, i + 1)
      case None =>
      case Some(k) =>
        forall k' | i < k' < |ks| && mspace !in ks[k'] && (forall j :: i < j < k' ==> mspace in ks[j])
          ensures k' == k
        {
        }
    }
  }

  /** Explicit spaces and the last non-space box are never followed by glue. */
  lemma {:induction false} NoGlueAfterSpacesOrAtTheEnd(ks: seq<set<CssClass>>, i: nat, g: bool)
    requires i < |ks|
    requires mspace in ks[i] || forall k :: i < k < |ks| ==> mspace in ks[k]
    ensures GlueAfter(ks, i, g).None?
  {
  }

  /** In "1+2" (as mord, mbin, mord in a real group) the plan is a medium
      space after each of the first two boxes. */
  lemma GluePlanSample()
    ensures GluePlan([{mord}, {mbin}, {mord}], true) == [Some(Mediumspace), Some(Mediumspace), None]
  {
    var ks := [{mord}, {mbin}, {mord}];
    var m := NonSpaceMask(ks);
    assert NextKept(m, 1) == Some(1);
    assert NextKept(m, 2) == Some(2);
    assert NextKept(m, 3) == None;
    assert ClassOf({mord}) == mord && ClassOf({mbin}) == mbin;
  }
}
