/** The render-tree builder (RenderTreeBuilder.kt): the builder registry, box
    construction, and the in-place assembly passes buildExpression,
    tryCombineChars, buildHTMLUnbreakable and buildHTML, each proved against
    the value-level specifications of Spacing, Fonts and Assembly. */
module RenderTree {
  import opened Common
  import opened Symbols
  import opened BoxModel
  import opened Seqs
  import opened Spacing
  import opened Fonts
  import opened Assembly

  /** A registered group builder: makeOrd under its type name, the atom
      builder (mathsym), or a builder of the function library whose result is
      given by its value alone. */
  datatype Builder =
    | OrdBuilder(typeName: string)
    | AtomBuilder
    | External(build: (ParseNode, Options) -> Result<Box>)

  /** The box a builder makes for a node. */
  function BuiltBox(tables: SymbolTables, mm: MetricMap, b: Builder, node: ParseNode, options: Options)
    : (r: Result<Box>)
    ensures b.OrdBuilder? && !(node.MathOrd? || node.TextOrd?) ==> r == Err(UnexpectedNodeShape("makeOrd"))
    ensures b.AtomBuilder? && !node.Atom? ==> r == Err(UnexpectedNodeShape("atom"))
    ensures b.External? ==> r == b.build(node, options)
    ensures !b.External? && r.Ok? ==> r.value.kind == SymbolNode
  {
    match b
    case OrdBuilder(_) =>
      var choice :- OrdChoice(tables, mm, node, options);
      SymbolBox(tables, mm, node.text, choice.0, node.mode, Some(options), choice.1)
    case AtomBuilder =>
      if !node.Atom? then Err(UnexpectedNodeShape("atom"))
      else
        var choice :- MathsymChoice(tables, mm, node.text, node.mode, Some(options), {MFamily(node.family)});
        SymbolBox(tables, mm, node.text, choice.0, node.mode, Some(options), choice.1)
    case External(f) => f(node, options)
  }

  /** An atom of family "bin" becomes a bin symbol: the atom builder puts the
      family's class on it. */
  lemma {:induction false} AtomKeepsFamilyClass(tables: SymbolTables, mm: MetricMap, text: string, mode: Mode,
                             family: string, options: Options)
    requires BuiltBox(tables, mm, AtomBuilder, Atom(mode, text, family), options).Ok?
    ensures MFamily(family) in BuiltBox(tables, mm, AtomBuilder, Atom(mode, text, family), options).value.klasses
  {
    var choice := MathsymChoice(tables, mm, text, mode, Some(options), {MFamily(family)}).value;
    assert MFamily(family) in choice.1;
    SymbolBoxProperties(tables, mm, text, choice.0, mode, Some(options), choice.1);
  }

  /** The empty span: no classes, no style, no size. */
  const EmptySpan := Box(SpanNode, {}, DefaultStyle, 0.0, 0.0, 0.0, "", 0.0, 0.0, 0.0)

  /** The glue makeGlue builds for a measurement: an mspace span whose right
      margin is the calculated size. */
  function GlueBox(m: Measurement, options: Options): (b: Box)
    ensures b.kind == SpanNode && b.klasses == {mspace}
    ensures b.style.marginRight == Some(CalculateSize(m, options))
  {
    EmptySpan.(klasses := {mspace}, style := DefaultStyle.(marginRight := Some(CalculateSize(m, options))))
  }

  /** Whether buildGroup wraps the group to account for a size change. */
  predicate Rescales(options: Options, baseOptions: Option<Options>)
  {
    baseOptions.Some? && options.size != baseOptions.value.size
  }

  /** getTypeOfDomTree: the atom class of a node, EMPTY for a missing one. */
  function TypeOfDomTree(n: RenderNode?): (c: CssClass)
    reads n
    ensures n == null ==> c == EMPTY
    ensures n != null ==> c == ClassOf(n.klasses)
  {
    if n == null then EMPTY else ClassOf(n.klasses)
  }

  /** The classes of a slot of the non-space list, None for a sentinel. */
  function SlotClasses(n: RenderNode?): Option<set<CssClass>>
    reads n
  {
    if n == null then None else Some(n.klasses)
  }

  /** Filtering nodes and then taking their classes is taking the classes and
      then filtering. */
  lemma {:induction false} ClassesOfFilter(ns: seq<RenderNode>, keep: seq<bool>)
    requires |ns| == |keep|
    ensures Classes(Filter(ns, keep)) == Filter(Classes(ns), keep)
  {
    if ns != [] {
      ClassesOfFilter(ns[1..], keep[1..]);
      var head := if keep[0] then [ns[0]] else [];
      var rest := Filter(ns[1..], keep[1..]);
      assert Filter(ns, keep) == head + rest;
      assert Classes(head + rest) == Classes(head) + Classes(rest);
      assert Classes(ns)[1..] == Classes(ns[1..]);
    }
  }

  /** The render-tree builder object with its registry of group builders. */
  class RenderTreeBuilder {
    var groupBuilders: map<string, Builder>
    const symbols: SymbolRegistry
    const metrics: MetricMap

    /** The object's initialisation: the library's builders, then mathord,
        textord, supsub and atom registered over them. */
    constructor Init(symbols: SymbolRegistry, metrics: MetricMap, library: map<string, Builder>,
                     supsub: (ParseNode, Options) -> Result<Box>)
      ensures this.symbols == symbols && this.metrics == metrics
      ensures groupBuilders == library["mathord" := OrdBuilder("mathord")]["textord" := OrdBuilder("textord")]
                                      ["supsub" := External(supsub)]["atom" := AtomBuilder]
    {
      this.symbols := symbols;
      this.metrics := metrics;
      groupBuilders := library;
      new;
      RegisterBuilder("mathord", OrdBuilder("mathord"));
      RegisterBuilder("textord", OrdBuilder("textord"));
      RegisterBuilder("supsub", External(supsub));
      RegisterBuilder("atom", AtomBuilder);
    }

    /** registerBuilder: the builder replaces any earlier one for the type. */
    method RegisterBuilder(nodeType: string, builder: Builder)
      modifies this
      ensures groupBuilders == old(groupBuilders)[nodeType := builder]
    {
      groupBuilders := groupBuilders[nodeType := builder];
    }

    /** The box buildGroup makes for a node, before any rescaling. */
    function GroupBox(node: ParseNode, options: Options): (r: Result<Box>)
      reads this, symbols
      ensures node.Type() !in groupBuilders ==> r == Err(UnknownNodeType(node.Type()))
    {
      if node.Type() !in groupBuilders then Err(UnknownNodeType(node.Type()))
      else BuiltBox(symbols.Tables(), metrics, groupBuilders[node.Type()], node, options)
    }

    /** sizeElementFromChildren: height, depth and maximum font size become
        the largest of the children's, 0 for no children. */
    method SizeElementFromChildren(elem: RenderNode)
      modifies elem
      ensures elem.height == old(MaxOrZero(Heights(elem.children)))
      ensures elem.depth == old(MaxOrZero(Depths(elem.children)))
      ensures elem.maxFontSize == old(MaxOrZero(MaxFontSizes(elem.children)))
      ensures View(elem) == old(View(elem)).(height := elem.height, depth := elem.depth,
                                             maxFontSize := elem.maxFontSize)
      ensures elem.children == old(elem.children)
    {
      var height := MaxOrZero(Heights(elem.children));
      var depth := MaxOrZero(Depths(elem.children));
      var maxFontSize := MaxOrZero(MaxFontSizes(elem.children));
      elem.height := height;
      elem.depth := depth;
      elem.maxFontSize := maxFontSize;
    }

    /** makeSpan: a new span sized from its children. */
    method MakeSpan(klasses: set<CssClass>, children: seq<RenderNode>, style: CssStyle)
      returns (span: RenderNode)
      ensures fresh(span) && span.children == children
      ensures View(span) == Box(SpanNode, klasses, style, MaxOrZero(Heights(children)),
                                MaxOrZero(Depths(children)), MaxOrZero(MaxFontSizes(children)),
                                "", 0.0, 0.0, 0.0)
    {
      span := new RenderNode.Span(klasses, children, style);
      label before:
      SizeElementFromChildren(span);
      assert span !in children;
      assert Heights(children) == old@before(Heights(children));
      assert Depths(children) == old@before(Depths(children));
      assert MaxFontSizes(children) == old@before(MaxFontSizes(children));
    }

    /** makeSymbol: the symbol node of SymbolBox, or the lookup's exception. */
    method MakeSymbol(inValue: string, fontName: string, mode: Mode, options: Option<Options>,
                      classes: set<CssClass>)
      returns (r: Result<RenderNode>)
      ensures var spec := SymbolBox(symbols.Tables(), metrics, inValue, fontName, mode, options, classes);
              (r.Ok? <==> spec.Ok?) && (r.Err? ==> r.error == spec.error) &&
              (r.Ok? ==> fresh(r.value) && View(r.value) == spec.value && r.value.children == [])
    {
      var looked :- LookupSymbol(symbols.Tables(), metrics, inValue, fontName, mode);
      var value, m := looked.0, looked.1;
      var node: RenderNode;
      if m.Some? {
        var italic := m.value.italic;
        if mode == Text || (options.Some? && options.value.font == "mathit") {
          italic := 0.0;
        }
        node := new RenderNode.Symbol(value, m.value.height, m.value.depth, italic, m.value.skew,
                                      m.value.width, classes);
      } else {
        node := new RenderNode.Symbol(value, 0.0, 0.0, 0.0, 0.0, 0.0, classes);
      }
      if options.Some? {
        node.maxFontSize := options.value.sizeMultiplier;
        if options.value.style.isTight {
          node.klasses := node.klasses + {mtight};
        }
        if options.value.color.Some? {
          node.style := node.style.(color := options.value.color);
        }
      }
      r := Ok(node);
    }

    /** mathsym: a symbol in Main-Bold, Main-Regular or AMS-Regular. */
    method MathSym(value: string, mode: Mode, options: Option<Options>, classes: set<CssClass>)
      returns (r: Result<RenderNode>)
      ensures var choice := MathsymChoice(symbols.Tables(), metrics, value, mode, options, classes);
              var spec := if choice.Err? then Err(choice.error)
                          else SymbolBox(symbols.Tables(), metrics, value, choice.value.0, mode, options,
                                         choice.value.1);
              (r.Ok? <==> spec.Ok?) && (r.Err? ==> r.error == spec.error) &&
              (r.Ok? ==> fresh(r.value) && View(r.value) == spec.value && r.value.children == [])
    {
      var choice :- MathsymChoice(symbols.Tables(), metrics, value, mode, options, classes);
      r := MakeSymbol(value, choice.0, mode, options, choice.1);
    }

    /** makeOrd: a mathord or textord symbol in the font OrdChoice picks. */
    method MakeOrd(group: ParseNode, options: Options, typeName: string) returns (r: Result<RenderNode>)
      ensures var spec := BuiltBox(symbols.Tables(), metrics, OrdBuilder(typeName), group, options);
              (r.Ok? <==> spec.Ok?) && (r.Err? ==> r.error == spec.error) &&
              (r.Ok? ==> fresh(r.value) && View(r.value) == spec.value && r.value.children == [])
    {
      var choice :- OrdChoice(symbols.Tables(), metrics, group, options);
      r := MakeSymbol(group.text, choice.0, group.mode, Some(options), choice.1);
    }

    /** Runs one registered builder on a node. */
    method CallBuilder(b: Builder, node: ParseNode, options: Options) returns (r: Result<RenderNode>)
      ensures var spec := BuiltBox(symbols.Tables(), metrics, b, node, options);
              (r.Ok? <==> spec.Ok?) && (r.Err? ==> r.error == spec.error) &&
              (r.Ok? ==> fresh(r.value) && View(r.value) == spec.value && r.value.children == [])
    {
      if b.OrdBuilder? {
        r := MakeOrd(node, options, b.typeName);
      } else if b.AtomBuilder? {
        if !node.Atom? {
          r := Err(UnexpectedNodeShape("atom"));
        } else {
          r := MathSym(node.text, node.mode, Some(options), {MFamily(node.family)});
        }
      } else {
        var box :- b.build(node, options);
        var n := new RenderNode.FromBox(box);
        r := Ok(n);
      }
    }

    /** buildGroup: an empty span for no group; the registered builder's node
        otherwise, wrapped in a sizing span scaled by the ratio of the size
        multipliers when the size differs from the base options'; an
        unregistered type is a parse error. */
    method BuildGroup(group: Option<ParseNode>, options: Options, baseOptions: Option<Options>)
      returns (r: Result<RenderNode>)
      ensures group.None? ==> r.Ok? && View(r.value) == EmptySpan && r.value.children == []
      ensures group.Some? ==> (r.Ok? <==> GroupBox(group.value, options).Ok?)
      ensures group.Some? && r.Err? ==> r.error == GroupBox(group.value, options).error
      ensures r.Ok? ==> fresh(r.value)
      ensures group.Some? && r.Ok? && !Rescales(options, baseOptions) ==>
                View(r.value) == GroupBox(group.value, options).value && r.value.children == []
      ensures group.Some? && r.Ok? && Rescales(options, baseOptions) ==>
                var inner := GroupBox(group.value, options).value;
                var mult := options.sizeMultiplier / baseOptions.value.sizeMultiplier;
                && |r.value.children| == 1 && fresh(r.value.children[0])
                && View(r.value.children[0]) == inner
                && View(r.value) == Box(SpanNode, SizingClasses(options, baseOptions.value), DefaultStyle,
                                        inner.height * mult, inner.depth * mult, inner.maxFontSize,
                                        "", 0.0, 0.0, 0.0)
    {
      if group.None? {
        var span := MakeSpan({}, [], DefaultStyle);
        return Ok(span);
      }
      var node := group.value;
      if node.Type() in groupBuilders {
        var groupNode :- CallBuilder(groupBuilders[node.Type()], node, options);
        if baseOptions.Some? && options.size != baseOptions.value.size {
          var inner := groupNode;
          groupNode := MakeSpan(SizingClasses(options, baseOptions.value), [inner], DefaultStyle);
          var multiplier := options.sizeMultiplier / baseOptions.value.sizeMultiplier;
          groupNode.height := groupNode.height * multiplier;
          groupNode.depth := groupNode.depth * multiplier;
        }
        r := Ok(groupNode);
      } else {
        r := Err(UnknownNodeType(node.Type()));
      }
    }

    /** makeGlue: a new mspace span carrying the calculated width. */
    method MakeGlue(m: Measurement, options: Options) returns (rule: RenderNode)
      ensures fresh(rule) && View(rule) == GlueBox(m, options) && rule.children == []
    {
      rule := MakeSpan({mspace}, [], DefaultStyle);
      var size := CalculateSize(m, options);
      rule.style := rule.style.(marginRight := Some(size));
    }

    /** The first loop of buildExpression: every node built in order, the
        first failure ending the pass. */
    method BuildRawGroups(expression: seq<ParseNode>, options: Options) returns (r: Result<seq<RenderNode>>)
      ensures r.Ok? <==> forall k :: 0 <= k < |expression| ==> GroupBox(expression[k], options).Ok?
      ensures r.Err? ==> exists k :: 0 <= k < |expression| && GroupBox(expression[k], options) == Err(r.error) &&
                                     forall k' :: 0 <= k' < k ==> GroupBox(expression[k'], options).Ok?
      ensures r.Ok? ==> |r.value| == |expression| && Distinct(r.value)
      ensures r.Ok? ==> forall k :: 0 <= k < |expression| ==>
                          fresh(r.value[k]) && View(r.value[k]) == GroupBox(expression[k], options).value
    {
      var rawGroups: seq<RenderNode> := [];
      var i := 0;
      while i < |expression|
        invariant 0 <= i <= |expression| && |rawGroups| == i && Distinct(rawGroups)
        invariant forall k :: 0 <= k < i ==>
                    GroupBox(expression[k], options).Ok? && fresh(rawGroups[k]) &&
                    View(rawGroups[k]) == GroupBox(expression[k], options).value
      {
        var output := BuildGroup(Some(expression[i]), options, None);
        if output.Err? {
          return Err(output.error);
        }
        rawGroups := rawGroups + [output.value];
        i := i + 1;
      }
      return Ok(rawGroups);
    }

    /** One step of the bin-cancellation loop on a node between its two
        neighbours in the non-space list: the left test, then the right test. */
    method CancelAt(node: RenderNode, prev: RenderNode?, next: RenderNode?, isRealGroup: bool)
      requires node != prev && node != next
      modifies node
      ensures node.klasses == StepOn(SlotClasses(prev), old(node.klasses), SlotClasses(next), isRealGroup)
      ensures View(node) == old(View(node)).(klasses := node.klasses) && node.children == old(node.children)
    {
      var left := node;
      if mbin in left.klasses && LeftCancels(SlotClasses(prev), isRealGroup) {
        left.klasses := left.klasses - {mbin} + {mord};
      }
      var right := node;
      if mbin in right.klasses && RightCancels(SlotClasses(next), isRealGroup) {
        right.klasses := right.klasses - {mbin} + {mord};
      }
    }

    /** One round of the bin-cancellation loop: the node in slot i of the
        non-space list gets the classes StepOn gives for it and its two
        neighbours, and no other node changes. */
    method CancelRound(nonSpaces: seq<RenderNode?>, ghost ns: seq<RenderNode>, i: nat, isRealGroup: bool)
      requires nonSpaces == [null] + ns + [null] && Distinct(ns) && 1 <= i <= |ns|
      modifies ns[i - 1]
      ensures var cs := old(Classes(ns));
              Classes(ns) == cs[i - 1 := StepOn(At(cs, i - 2), cs[i - 1], At(cs, i), isRealGroup)]
      ensures View(ns[i - 1]) == old(View(ns[i - 1])).(klasses := ns[i - 1].klasses) &&
              ns[i - 1].children == old(ns[i - 1].children)
    {
      ghost var cs := Classes(ns);
      var nonSpacesI := nonSpaces[i];
      assert nonSpacesI == ns[i - 1];
      assert SlotClasses(nonSpaces[i - 1]) == At(cs, i - 2);
      assert SlotClasses(nonSpaces[i + 1]) == At(cs, i);
      CancelAt(nonSpacesI, nonSpaces[i - 1], nonSpaces[i + 1], isRealGroup);
      forall k | 0 <= k < |ns| && k != i - 1 ensures ns[k].klasses == cs[k] {
        assert ns[k] != nonSpacesI;
      }
    }

    /** The bin-cancellation loop of buildExpression over the non-space nodes
        between two null sentinels: each node's classes are rewritten as
        CancelBins prescribes, and nothing else changes. */
    method CancelBinsInPlace(nonSpaces: seq<RenderNode?>, ghost ns: seq<RenderNode>, isRealGroup: bool)
      requires nonSpaces == [null] + ns + [null] && Distinct(ns)
      modifies set n | n in ns
      ensures Classes(ns) == CancelBins(old(Classes(ns)), isRealGroup)
      ensures forall n :: n in ns ==> View(n) == old(View(n)).(klasses := n.klasses) &&
                                      n.children == old(n.children) &&
                                      (mspace in n.klasses <==> mspace in old(n.klasses))
    {
      for i := 1 to |nonSpaces| - 1
        invariant CancelFrom(Classes(ns), i - 1, isRealGroup) == CancelBins(old(Classes(ns)), isRealGroup)
        invariant forall n :: n in ns ==> View(n) == old(View(n)).(klasses := n.klasses) &&
                                          n.children == old(n.children)
      {
        CancelRound(nonSpaces, ns, i, isRealGroup);
      }
      ghost var cs0 := old(Classes(ns));
      CancelBinsOnlyTurnsBinsIntoOrds(cs0, isRealGroup);
      forall n | n in ns ensures mspace in n.klasses <==> mspace in old(n.klasses) {
        var k :| 0 <= k < |ns| && ns[k] == n;
        assert n.klasses == Classes(ns)[k] && old(n.klasses) == cs0[k];
      }
    }

    /** The glue the spacing loop puts after the non-space node in slot
        `current` of the non-space list, given the slot after it. */
    method SpacingGlue(current: RenderNode?, next: RenderNode?, isRealGroup: bool, options: Options)
      returns (glue: Option<RenderNode>)
      ensures GlueFits(glue, SlotGlue(current, next, isRealGroup), options)
      ensures glue.Some? ==> fresh(glue.value)
    {
      glue := None;
      var left := TypeOfDomTree(current);
      var right := TypeOfDomTree(next);
      if left != EMPTY && right != EMPTY && isRealGroup {
        var nonSpacesJp1 := next;
        var space := if mtight in nonSpacesJp1.klasses then GetTightSpacings(left, right)
                     else GetSpacings(left, right);
        if space.Some? {
          var rule := MakeGlue(space.value, options);
          glue := Some(rule);
        }
      }
    }

    /** The spacing loop of buildExpression.  `i` walks the built nodes and `j`
        the non-space list with its sentinels; the first non-space node is
        visited twice, once against the left sentinel (which is never an atom,
        so no glue) and once for real.  Every node is kept, in order, and the
        glue after node k is a new glue span exactly when GluePlan has a space
        there. */
    method InsertSpacing(rawGroups: seq<RenderNode>, nonSpaces: seq<RenderNode?>, isRealGroup: bool,
                         options: Options)
      returns (groups: seq<RenderNode>, ghost glues: seq<Option<RenderNode>>)
      requires nonSpaces == [null] + Filter(rawGroups, NonSpaceMask(Classes(rawGroups))) + [null]
      ensures |glues| == |rawGroups| && groups == Weave(rawGroups, glues)
      ensures GluesFit(glues, GluePlan(Classes(rawGroups), isRealGroup), options)
      ensures forall k :: 0 <= k < |glues| && glues[k].Some? ==> fresh(glues[k].value)
    {
      groups := [];
      glues := [];
      var j := 0;
      var i: int := 0;
      while i < |rawGroups|
        invariant SpacingState(rawGroups, nonSpaces, isRealGroup, options, i, j, groups, glues)
        invariant forall k :: 0 <= k < |glues| && glues[k].Some? ==> fresh(glues[k].value)
        decreases |rawGroups| - i, if j == 0 then 1 else 0
      {
        i, j, groups, glues := SpacingRound(rawGroups, nonSpaces, isRealGroup, options, i, j, groups, glues);
      }
      assert rawGroups[..i] == rawGroups;
    }

    /** One round of the spacing loop: node i is appended; at a non-space
        node seen from the left sentinel it is taken back and i stepped back,
        so that the next round visits it again; otherwise the glue between
        the cursor's slot and the next one follows it and the cursor moves. */
    method SpacingRound(rawGroups: seq<RenderNode>, nonSpaces: seq<RenderNode?>, isRealGroup: bool,
                        options: Options, i: int, j: nat, groups: seq<RenderNode>,
                        ghost glues: seq<Option<RenderNode>>)
      returns (i': int, j': nat, groups': seq<RenderNode>, ghost glues': seq<Option<RenderNode>>)
      requires SpacingState(rawGroups, nonSpaces, isRealGroup, options, i, j, groups, glues) && i < |rawGroups|
      ensures SpacingState(rawGroups, nonSpaces, isRealGroup, options, i', j', groups', glues')
      ensures (i' == i + 1 && glues' == glues + [glues'[i]]) || (i' == i && j == 0 && j' == 1 && glues' == glues)
      ensures i' == i + 1 && glues'[i].Some? ==> fresh(glues'[i].value)
    {
      var i1, j1, groups1 := i, j, groups;
      glues' := glues;
      groups1 := groups1 + [rawGroups[i1]];
      if mspace !in rawGroups[i1].klasses && j1 < |nonSpaces| - 1 {
        if j1 == 0 {
          groups1 := groups1[..|groups1| - 1];
          assert groups1 == groups;
          i1 := i1 - 1;
        }
        var space := SpacingGlue(nonSpaces[j1], nonSpaces[j1 + 1], isRealGroup, options);
        if space.Some? {
          groups1 := groups1 + [space.value];
        }
        if j1 != 0 {
          AdvanceSpacing(rawGroups, nonSpaces, isRealGroup, options, i1, j1, groups, glues, space);
          glues' := glues + [space];
        }
        j1 := j1 + 1;
      } else {
        AdvanceSpacing(rawGroups, nonSpaces, isRealGroup, options, i1, j1, groups, glues, None);
        glues' := glues + [None];
      }
      i1 := i1 + 1;
      i', j', groups' := i1, j1, groups1;
    }

    /** buildExpression: the nodes built in order, bins cancelled among the
        non-space nodes, and the implicit glue of the spacing tables put after
        each non-space node that has a next non-space node.  The first failing
        node's error is the result when any node fails. */
    method BuildExpression(expression: seq<ParseNode>, options: Options, isRealGroup: bool)
      returns (r: Result<seq<RenderNode>>, ghost built: seq<Box>, ghost raw: seq<RenderNode>,
               ghost glues: seq<Option<RenderNode>>)
      ensures r.Ok? <==> forall k :: 0 <= k < |expression| ==> GroupBox(expression[k], options).Ok?
      ensures r.Err? ==> exists k :: 0 <= k < |expression| && GroupBox(expression[k], options) == Err(r.error) &&
                                     forall k' :: 0 <= k' < k ==> GroupBox(expression[k'], options).Ok?
      ensures r.Ok? ==> |built| == |expression| &&
                        forall k :: 0 <= k < |expression| ==> built[k] == GroupBox(expression[k], options).value
      ensures r.Ok? ==> ExpressionBuilt(built, isRealGroup, options, raw, glues, r.value)
      ensures r.Ok? ==> (forall n :: n in raw ==> fresh(n)) &&
                        forall k :: 0 <= k < |glues| && glues[k].Some? ==> fresh(glues[k].value)
    {
      built, raw, glues := [], [], [];
      var rawGroups :- BuildRawGroups(expression, options);
      built := Views(rawGroups);
      assert forall k :: 0 <= k < |expression| ==> built[k] == GroupBox(expression[k], options).value;
      var groups;
      groups, glues := CancelAndSpace(rawGroups, isRealGroup, options);
      raw := rawGroups;
      r := Ok(groups);
    }

    /** The in-place part of buildExpression over freshly built nodes: bin
        cancellation on the non-space nodes, then glue insertion. */
    method CancelAndSpace(rawGroups: seq<RenderNode>, isRealGroup: bool, options: Options)
      returns (groups: seq<RenderNode>, ghost glues: seq<Option<RenderNode>>)
      requires Distinct(rawGroups)
      modifies set n | n in rawGroups
      ensures ExpressionBuilt(old(Views(rawGroups)), isRealGroup, options, rawGroups, glues, groups)
      ensures forall k :: 0 <= k < |glues| && glues[k].Some? ==> fresh(glues[k].value)
    {
      ghost var built := Views(rawGroups);
      ghost var mask := NonSpaceMask(Classes(rawGroups));
      var rowNonSpace := Filter(rawGroups, NonSpaceMask(Classes(rawGroups)));
      var nonSpaces: seq<RenderNode?> := [null] + rowNonSpace + [null];
      FilterDistinct(rawGroups, mask);
      FilterElements(rawGroups, mask);
      ClassesOfFilter(rawGroups, mask);
      assert Classes(rawGroups) == BoxClasses(built);
      CancelBinsInPlace(nonSpaces, rowNonSpace, isRealGroup);
      forall k | 0 <= k < |rawGroups|
        ensures rawGroups[k] in rowNonSpace ==>
                  View(rawGroups[k]) == built[k].(klasses := rawGroups[k].klasses) &&
                  (mspace in rawGroups[k].klasses <==> mspace in built[k].klasses)
        ensures rawGroups[k] !in rowNonSpace ==> View(rawGroups[k]) == built[k]
      {
      }
      CancelledNodes(rawGroups, built, rowNonSpace, isRealGroup);
      label cancelled:
      ghost var gl;
      groups, gl := InsertSpacing(rawGroups, nonSpaces, isRealGroup, options);
      assert Classes(rawGroups) == old@cancelled(Classes(rawGroups));
      assert Views(rawGroups) == old@cancelled(Views(rawGroups));
      SpacedExpressionBuilt(built, isRealGroup, options, rawGroups, gl, groups);
      glues := gl;
    }

    /** The merge step of tryCombineChars: `prev` takes on the text of both
        symbols, the larger height and depth, and `next`'s italic correction. */
    method Absorb(prev: RenderNode, next: RenderNode)
      requires prev != next
      modifies prev
      ensures View(prev) == Merge(old(View(prev)), View(next))
      ensures prev.children == old(prev.children)
    {
      prev.text := prev.text + next.text;
      prev.height := Max(prev.height, next.height);
      prev.depth := Max(prev.depth, next.depth);
      prev.italic := next.italic;
    }

    /** tryCombineChars: the list Combine computes from the nodes' values,
        made of the same nodes in place; a node dropped from the list is left
        as it was, and no node's children change. */
    method TryCombineChars(inChars: seq<RenderNode>) returns (chars: seq<RenderNode>)
      requires Distinct(inChars)
      modifies set n | n in inChars
      ensures Views(chars) == Combine(old(Views(inChars)))
      ensures Distinct(chars) && forall n :: n in chars ==> n in inChars
      ensures forall n :: n in inChars && n !in chars ==> View(n) == old(View(n))
      ensures forall n :: n in inChars ==> n.children == old(n.children)
    {
      ghost var start := Views(inChars);
      ghost var orig := map n | n in inChars :: View(n);
      ghost var kids := map n | n in inChars :: n.children;
      chars := inChars;
      var i: int := 0;
      while i < |chars| - 1
        invariant 0 <= i <= |chars| || (i == 0 && chars == [])
        invariant Distinct(chars) && forall n :: n in chars ==> n in inChars
        invariant Combine(start) == CombinedFrom(Views(chars), i)
        invariant Untouched(chars, i, orig)
        invariant SameChildren(kids)
        decreases |chars| - i
      {
        chars, i := CombineRound(chars, i, orig, kids);
      }
      CombinedAtEnd(Views(chars), i);
    }

    /** One round of tryCombineChars' loop at node i: a merge with node i+1
        (the cursor stays), or a step past node i. */
    method CombineRound(chars: seq<RenderNode>, i: nat, ghost orig: map<RenderNode, Box>,
                        ghost kids: map<RenderNode, seq<RenderNode>>)
      returns (chars': seq<RenderNode>, i': nat)
      requires Distinct(chars) && i + 1 < |chars| && Untouched(chars, i, orig)
      requires SameChildren(kids)
      ensures SameChildren(kids)
      modifies chars[i]
      ensures i' <= |chars'| && Distinct(chars') && forall n :: n in chars' ==> n in chars
      ensures CombinedFrom(Views(chars'), i') == old(CombinedFrom(Views(chars), i))
      ensures Untouched(chars', i', orig)
      ensures (i' == i && chars' == chars[..i + 1] + chars[i + 2..]) || (i' == i + 1 && chars' == chars)
    {
      var prev, next := chars[i], chars[i + 1];
      var j: int := i;
      chars' := chars;
      if prev.kind == SymbolNode && next.kind == SymbolNode && CanCombine(prev, next) {
        ghost var vs := Views(chars);
        CombineMerged(vs, i);
        chars' := MergeAt(chars, i, orig);
        j := j - 1;
      } else {
        CombineSkipped(Views(chars), i);
      }
      j := j + 1;
      i' := j;
    }

    /** One merge of tryCombineChars: node i absorbs node i+1, which leaves
        the list. */
    method MergeAt(chars: seq<RenderNode>, i: nat, ghost orig: map<RenderNode, Box>)
      returns (chars': seq<RenderNode>)
      requires Distinct(chars) && i + 1 < |chars| && Untouched(chars, i, orig)
      modifies chars[i]
      ensures chars' == chars[..i + 1] + chars[i + 2..]
      ensures Distinct(chars') && forall n :: n in chars' ==> n in chars
      ensures Views(chars') == MergedAt(old(Views(chars)), i)
      ensures Untouched(chars', i, orig)
      ensures chars[i].children == old(chars[i].children)
    {
      ghost var vs := Views(chars);
      DistinctRemove(chars, i + 1);
      UntouchedDrop(chars, i, orig);
      Absorb(chars[i], chars[i + 1]);
      chars' := chars[..i + 1] + chars[i + 2..];
      assert chars[i] == chars'[i];
      ghost var ws := MergedAt(vs, i);
      forall k | 0 <= k < |chars'| ensures View(chars'[k]) == ws[k] {
        if k < i {
          assert chars'[k] == chars[k] != chars[i];
        } else if k > i {
          assert chars'[k] == chars[k + 1] != chars[i];
        }
      }
      assert Views(chars') == ws;
    }

    /** canCombine: equal classes, skew, maximum font size and style. */
    predicate CanCombine(prev: RenderNode, next: RenderNode)
      reads prev, next
    {
      prev.klasses == next.klasses && prev.skew == next.skew && prev.maxFontSize == next.maxFontSize &&
      prev.style == next.style
    }

    /** buildHTMLUnbreakable: a base span sized by the parts, holding a fresh
        strut and then the parts.  The strut reaches from the chunk's depth
        below the baseline up to its height. */
    method BuildHTMLUnbreakable(children: seq<RenderNode>, options: Options) returns (body: RenderNode)
      ensures fresh(body) && Unbreakable(body, children) && fresh(body.children[0])
      ensures var s := body.children[0].style;
              s.verticalAlign.Some? && s.height.Some? &&
              s.verticalAlign.value == -body.depth && s.verticalAlign.value + s.height.value == body.height
    {
      body := MakeSpan({base}, children, DefaultStyle);
      UnitBoxIsMax(children);
      ghost var unit := UnitBox(children);
      assert View(body) == unit;
      var strutNode := MakeStrut(body.height, body.depth);
      ghost var view := View(body);
      assert body !in children;
      body.children := [strutNode] + body.children;
      assert View(body) == view;
      assert body.children[1..] == children;
      assert UnitBox(children) == unit;
    }

    /** The strut of buildHTMLUnbreakable: an empty strut span, then its
        height and vertical alignment set from the chunk's extent. */
    method MakeStrut(height: real, depth: real) returns (strutNode: RenderNode)
      ensures fresh(strutNode) && View(strutNode) == StrutBox(height, depth) && strutNode.children == []
    {
      strutNode := MakeSpan({strut}, [], DefaultStyle);
      assert Heights([]) == [] && Depths([]) == [] && MaxFontSizes([]) == [];
      strutNode.style := strutNode.style.(height := Some(height + depth), verticalAlign := Some(-depth));
    }

    /** The chunking loop of buildHTML over the built expression: the pieces
        Pieces plans, each chunk made into an unbreakable unit and each
        standalone newline passed through. */
    method ChunkLines(expression: seq<RenderNode>, options: Options)
      returns (children: seq<RenderNode>, ghost pieces: seq<Piece>)
      ensures pieces == Pieces(Classes(expression)) && |children| == |pieces|
      ensures forall t :: 0 <= t < |pieces| ==> Realises(children[t], pieces[t], expression)
      ensures forall t :: 0 <= t < |pieces| && pieces[t].Chunk? ==>
                fresh(children[t]) && children[t].children != [] && fresh(children[t].children[0])
    {
      ghost var ks := Classes(expression);
      children, pieces := [], [];
      var parts: seq<RenderNode> := [];
      ghost var start := 0;
      var i := 0;
      while i < |expression|
        invariant ChunkState(ks, expression, i, start, parts, pieces)
        invariant Classes(expression) == ks
        invariant AllRealised(children, pieces, expression)
        invariant forall t :: 0 <= t < |pieces| && pieces[t].Chunk? ==> fresh(children[t]) && children[t].children != [] && fresh(children[t].children[0])
        decreases |expression| - i
      {
        var more; ghost var morePieces;
        i, start, parts, more, morePieces := ChunkRound(expression, options, ks, i, start, parts, pieces);
        AllRealisedExtend(children, pieces, expression, more, morePieces);
        ghost var n := |children|;
        children, pieces := children + more, pieces + morePieces;
        forall t | n <= t < |pieces| && pieces[t].Chunk?
          ensures fresh(children[t]) && children[t].children != [] && fresh(children[t].children[0])
        {
          assert children[t] == more[t - n] && pieces[t] == morePieces[t - n];
        }
      }
      if |parts| > 0 {
        var unit := BuildHTMLUnbreakable(parts, options);
        AllRealisedAppend(children, pieces, expression, unit, Chunk(start, i));
        ghost var n := |children|;
        children, pieces := children + [unit], pieces + [Chunk(start, i)];
        forall t | 0 <= t < |pieces| && pieces[t].Chunk?
          ensures fresh(children[t]) && children[t].children != [] && fresh(children[t].children[0])
        {
          if t == n {
            assert children[t] == unit;
          }
        }
      }
      AllRealisedAt(children, pieces, expression);
    }

    /** buildHTML: the tree built as a real group by buildExpression, then cut
        into lines: one unbreakable unit per chunk Pieces plans and each
        standalone newline box passed through, in order.  The first failing
        node's error is the result when any node fails. */
    method BuildHTML(tree: seq<ParseNode>, options: Options)
      returns (r: Result<seq<RenderNode>>, ghost built: seq<Box>, ghost raw: seq<RenderNode>,
               ghost glues: seq<Option<RenderNode>>, ghost expression: seq<RenderNode>,
               ghost pieces: seq<Piece>)
      ensures r.Ok? <==> forall k :: 0 <= k < |tree| ==> GroupBox(tree[k], options).Ok?
      ensures r.Err? ==> exists k :: 0 <= k < |tree| && GroupBox(tree[k], options) == Err(r.error) &&
                                     forall k' :: 0 <= k' < k ==> GroupBox(tree[k'], options).Ok?
      ensures r.Ok? ==> |built| == |tree| &&
                        forall k :: 0 <= k < |tree| ==> built[k] == GroupBox(tree[k], options).value
      ensures r.Ok? ==> ExpressionBuilt(built, true, options, raw, glues, expression)
      ensures r.Ok? ==> pieces == Pieces(Classes(expression)) && |r.value| == |pieces| &&
                        forall t :: 0 <= t < |pieces| ==> Realises(r.value[t], pieces[t], expression)
      ensures r.Ok? ==> forall t :: 0 <= t < |pieces| && pieces[t].Chunk? ==>
                          fresh(r.value[t]) && r.value[t].children != [] && fresh(r.value[t].children[0]) && r.value[t] !in expression && r.value[t].children[0] !in expression
    {
      var built0;
      built0, built, raw, glues := BuildExpression(tree, options, true);
      expression, pieces := [], [];
      if built0.Err? {
        r := Err(built0.error);
        return;
      }
      var spaced := built0.value;
      expression := spaced;
      var children;
      children, pieces := ChunkLines(spaced, options);
      r := Ok(children);
    }

    /** A finished part, boxes lo..hi-1 of the expression, made into an
        unbreakable unit. */
    method CutChunk(expression: seq<RenderNode>, options: Options, ghost lo: nat, ghost hi: nat,
                    parts: seq<RenderNode>)
      returns (unit: RenderNode)
      requires lo <= hi <= |expression| && parts == expression[lo..hi]
      ensures fresh(unit) && Realises(unit, Chunk(lo, hi), expression)
      ensures unit.children != [] && fresh(unit.children[0])
    {
      unit := BuildHTMLUnbreakable(parts, options);
    }

    /** The inner loop of buildHTML after a bin or rel box at i: the space
        boxes that follow it join the part, and whether one of them has
        nobreak is noted. */
    method TakeGlue(expression: seq<RenderNode>, ghost ks: seq<set<CssClass>>, i: nat, ghost start: nat,
                    parts: seq<RenderNode>)
      returns (e: nat, parts': seq<RenderNode>, nobreak: bool)
      requires start <= i < |expression| && Classes(expression) == ks && parts == expression[start..i + 1]
      ensures e == GlueEnd(ks, i) && parts' == expression[start..e + 1]
      ensures nobreak <==> HasNobreak(ks, i + 1, e + 1)
    {
      e, parts', nobreak := i, parts, false;
      while e < |expression| - 1 && expression[e + 1].HasClass(mspace)
        invariant i <= e < |expression| && parts' == expression[start..e + 1]
        invariant GlueEnd(ks, i) == GlueEnd(ks, e)
        invariant nobreak <==> HasNobreak(ks, i + 1, e + 1)
        decreases |expression| - e
      {
        e := e + 1;
        HasNobreakSnoc(ks, i + 1, e);
        assert expression[start..e + 1] == expression[start..e] + [expression[e]];
        parts' := parts' + [expression[e]];
        if expression[e].HasClass(CssClass.nobreak) {
          nobreak := true;
        }
      }
    }

    /** One round of buildHTML's loop at box i: a bin or rel box takes the
        glue after it and closes the part unless the glue has nobreak; a
        newline box closes the part before it and stands alone; any other box
        joins the part.  `more` are the nodes the round adds to the output,
        carrying `morePieces`. */
    method ChunkRound(expression: seq<RenderNode>, options: Options, ghost ks: seq<set<CssClass>>,
                      i: nat, ghost start: nat, parts: seq<RenderNode>, ghost pieces: seq<Piece>)
      returns (i': nat, ghost start': nat, parts': seq<RenderNode>,
               more: seq<RenderNode>, ghost morePieces: seq<Piece>)
      requires ChunkState(ks, expression, i, start, parts, pieces) && i < |expression|
      requires Classes(expression) == ks
      ensures ChunkState(ks, expression, i', start', parts', pieces + morePieces) && i < i'
      ensures |more| == |morePieces|
      ensures forall t :: 0 <= t < |more| ==> Realises(more[t], morePieces[t], expression)
      ensures forall t :: 0 <= t < |more| && morePieces[t].Chunk? ==> fresh(more[t]) && more[t].children != [] && fresh(more[t].children[0])
    {
      if expression[i].HasClass(mbin) || expression[i].HasClass(mrel) {
        i', start', parts', more, morePieces := OperatorRound(expression, options, ks, i, start, parts, pieces);
      } else if expression[i].HasClass(newline) {
        i', start', parts', more, morePieces := NewlineRound(expression, options, ks, i, start, parts, pieces);
      } else {
        parts' := parts + [expression[i]];
        assert parts' == expression[start..i + 1];
        StateAtOther(ks, expression, i, start, pieces);
        i', start', more, morePieces := i + 1, start, [], [];
      }
    }

    /** The round at a bin or rel box: the glue after it joins the part, which
        is closed into a unit unless the glue has nobreak. */
    method OperatorRound(expression: seq<RenderNode>, options: Options, ghost ks: seq<set<CssClass>>,
                         i: nat, ghost start: nat, parts: seq<RenderNode>, ghost pieces: seq<Piece>)
      returns (i': nat, ghost start': nat, parts': seq<RenderNode>,
               more: seq<RenderNode>, ghost morePieces: seq<Piece>)
      requires ChunkState(ks, expression, i, start, parts, pieces) && i < |expression|
      requires Classes(expression) == ks && IsBreaker(ks[i])
      ensures ChunkState(ks, expression, i', start', parts', pieces + morePieces) && i < i'
      ensures |more| == |morePieces|
      ensures forall t :: 0 <= t < |more| ==> Realises(more[t], morePieces[t], expression)
      ensures forall t :: 0 <= t < |more| && morePieces[t].Chunk? ==> fresh(more[t]) && more[t].children != [] && fresh(more[t].children[0])
    {
      parts' := parts + [expression[i]];
      assert parts' == expression[start..i + 1];
      var e, nobreak;
      e, parts', nobreak := TakeGlue(expression, ks, i, start, parts');
      if !nobreak {
        StateAfterCut(ks, expression, i, start, pieces);
        var unit := CutChunk(expression, options, start, e + 1, parts');
        more, morePieces := [unit], [Chunk(start, e + 1)];
        parts', start' := [], e + 1;
      } else {
        StateThroughGlue(ks, expression, i, start, pieces);
        more, morePieces, start' := [], [], start;
      }
      i' := e + 1;
    }

    /** The round at a newline box: the part before it, if any, is closed into
        a unit, and the newline box follows on its own. */
    method NewlineRound(expression: seq<RenderNode>, options: Options, ghost ks: seq<set<CssClass>>,
                        i: nat, ghost start: nat, parts: seq<RenderNode>, ghost pieces: seq<Piece>)
      returns (i': nat, ghost start': nat, parts': seq<RenderNode>,
               more: seq<RenderNode>, ghost morePieces: seq<Piece>)
      requires ChunkState(ks, expression, i, start, parts, pieces) && i < |expression|
      requires Classes(expression) == ks && !IsBreaker(ks[i]) && newline in ks[i]
      ensures ChunkState(ks, expression, i', start', parts', pieces + morePieces) && i < i'
      ensures |more| == |morePieces|
      ensures forall t :: 0 <= t < |more| ==> Realises(more[t], morePieces[t], expression)
      ensures forall t :: 0 <= t < |more| && morePieces[t].Chunk? ==> fresh(more[t]) && more[t].children != [] && fresh(more[t].children[0])
    {
      parts' := parts + [expression[i]];
      parts' := parts'[..|parts'| - 1];
      assert parts' == expression[start..i];
      if |parts'| > 0 {
        var unit := CutChunk(expression, options, start, i, parts');
        more, morePieces := [unit, expression[i]], [Chunk(start, i), Line(i)];
      } else {
        more, morePieces := [expression[i]], [Line(i)];
      }
      StateAtNewline(ks, expression, i, start, pieces, pieces + morePieces);
      i', start', parts' := i + 1, i + 1, [];
    }
  }

  /** A strut of the given height and depth: an empty span whose CSS height
      is the full extent and whose vertical alignment lowers it by the depth. */
  function StrutBox(height: real, depth: real): Box
  {
    Box(SpanNode, {strut}, DefaultStyle.(height := Some(height + depth), verticalAlign := Some(-depth)),
        0.0, 0.0, 0.0, "", 0.0, 0.0, 0.0)
  }

  /** What buildHTMLUnbreakable makes of `parts`: a base span with the
      largest height, depth and font size of the parts, whose children are a
      strut for that extent followed by the parts. */
  predicate Unbreakable(n: RenderNode, parts: seq<RenderNode>)
    reads n, n.children
  {
    && |n.children| == |parts| + 1 && n.children[1..] == parts
    && View(n) == UnitBox(parts)
    && View(n.children[0]) == StrutBox(n.height, n.depth)
  }

  /** A base span of the given extent. */
  function BaseSpan(height: real, depth: real, maxFontSize: real): Box
  {
    Box(SpanNode, {base}, DefaultStyle, height, depth, maxFontSize, "", 0.0, 0.0, 0.0)
  }

  /** The box of an unbreakable unit over `parts`, built up from the last
      part: each part raises the height, depth and font size to its own when
      those are larger. */
  function UnitBox(parts: seq<RenderNode>): Box
    reads parts
    decreases |parts|
  {
    if |parts| == 0 then BaseSpan(0.0, 0.0, 0.0)
    else if |parts| == 1 then BaseSpan(parts[0].height, parts[0].depth, parts[0].maxFontSize)
    else
      var rest := UnitBox(parts[1..]);
      BaseSpan(Max(parts[0].height, rest.height), Max(parts[0].depth, rest.depth),
               Max(parts[0].maxFontSize, rest.maxFontSize))
  }

  /** The unit's box is the span makeSpan sizes from the parts: as tall, deep
      and large as the largest part, or 0 when there are none. */
  lemma {:induction false} UnitBoxIsMax(parts: seq<RenderNode>)
    ensures UnitBox(parts) == BaseSpan(MaxOrZero(Heights(parts)), MaxOrZero(Depths(parts)),
                                       MaxOrZero(MaxFontSizes(parts)))
    decreases |parts|
  {
    if |parts| >= 2 {
      var rest := parts[1..];
      UnitBoxIsMax(rest);
      var hs, ds, ms := Heights(parts), Depths(parts), MaxFontSizes(parts);
      assert hs[1..] == Heights(rest) && ds[1..] == Depths(rest) && ms[1..] == MaxFontSizes(rest);
      assert MaxOrZero(hs) == Max(parts[0].height, MaxOrZero(Heights(rest)));
      assert MaxOrZero(ds) == Max(parts[0].depth, MaxOrZero(Depths(rest)));
      assert MaxOrZero(ms) == Max(parts[0].maxFontSize, MaxOrZero(MaxFontSizes(rest)));
    }
  }

  /** The output node `n` carries piece `p` of the expression. */
  predicate Realises(n: RenderNode, p: Piece, expression: seq<RenderNode>)
    reads n, n.children
  {
    match p
    case Line(k) => k < |expression| && n == expression[k]
    case Chunk(lo, hi) => lo <= hi <= |expression| && Unbreakable(n, expression[lo..hi])
  }

  /** The state buildHTML's loop keeps at box i: the current part holds the
      boxes from `start` on, and the pieces done followed by what Plan makes
      of the rest are all the pieces. */
  predicate ChunkState(ks: seq<set<CssClass>>, expression: seq<RenderNode>, i: nat, start: nat,
                       parts: seq<RenderNode>, pieces: seq<Piece>)
  {
    && start <= i <= |expression| == |ks|
    && parts == expression[start..i]
    && Pieces(ks) == pieces + Plan(ks, i, start)
  }

  /** The loop state after a bin or rel box at i whose glue has nobreak: the
      part runs on through the glue. */
  lemma {:induction false} StateThroughGlue(ks: seq<set<CssClass>>, expression: seq<RenderNode>, i: nat, start: nat,
                         pieces: seq<Piece>)
    requires start <= i <= |expression| == |ks|
    requires ChunkState(ks, expression, i, start, expression[start..i], pieces)
    requires i < |ks| && IsBreaker(ks[i]) && HasNobreak(ks, i + 1, GlueEnd(ks, i) + 1)
    ensures ChunkState(ks, expression, GlueEnd(ks, i) + 1, start, expression[start..GlueEnd(ks, i) + 1], pieces)
  {
    PlanAtOperator(ks, i, start, pieces);
  }

  /** The loop state after a bin or rel box at i whose glue has no nobreak:
      the part through the glue is a finished chunk. */
  lemma {:induction false} StateAfterCut(ks: seq<set<CssClass>>, expression: seq<RenderNode>, i: nat, start: nat,
                      pieces: seq<Piece>)
    requires start <= i <= |expression| == |ks|
    requires ChunkState(ks, expression, i, start, expression[start..i], pieces)
    requires i < |ks| && IsBreaker(ks[i]) && !HasNobreak(ks, i + 1, GlueEnd(ks, i) + 1)
    ensures ChunkState(ks, expression, GlueEnd(ks, i) + 1, GlueEnd(ks, i) + 1, [],
                       pieces + [Chunk(start, GlueEnd(ks, i) + 1)])
  {
    PlanAtOperator(ks, i, start, pieces);
  }

  /** The loop state after a newline box at i: the part before it, if any, and
      the newline are finished pieces. */
  lemma {:induction false} StateAtNewline(ks: seq<set<CssClass>>, expression: seq<RenderNode>, i: nat, start: nat,
                       pieces: seq<Piece>, pieces': seq<Piece>)
    requires start <= i <= |expression| == |ks|
    requires ChunkState(ks, expression, i, start, expression[start..i], pieces)
    requires i < |ks| && !IsBreaker(ks[i]) && newline in ks[i]
    requires pieces' == pieces + (if start < i then [Chunk(start, i)] else []) + [Line(i)]
    ensures ChunkState(ks, expression, i + 1, i + 1, [], pieces')
  {
    PlanAtNewline(ks, i, start, pieces);
  }

  /** The loop state after any other box at i: the part grows by that box. */
  lemma {:induction false} StateAtOther(ks: seq<set<CssClass>>, expression: seq<RenderNode>, i: nat, start: nat,
                     pieces: seq<Piece>)
    requires start <= i <= |expression| == |ks|
    requires ChunkState(ks, expression, i, start, expression[start..i], pieces)
    requires i < |ks| && !IsBreaker(ks[i]) && newline !in ks[i]
    ensures ChunkState(ks, expression, i + 1, start, expression[start..i + 1], pieces)
  {
    PlanAtOther(ks, i, start);
  }

  /** Each output node carries the piece at its position. */
  predicate AllRealised(children: seq<RenderNode>, pieces: seq<Piece>, expression: seq<RenderNode>)
    reads children, set n, k | n in children && 0 <= k < |n.children| :: n.children[k]
    decreases |children|
  {
    && |children| == |pieces|
    && (children != [] ==>
          AllRealised(children[..|children| - 1], pieces[..|pieces| - 1], expression) &&
          Realises(children[|children| - 1], pieces[|pieces| - 1], expression))
  }

  /** One more realised piece. */
  lemma {:induction false} AllRealisedAppend(children: seq<RenderNode>, pieces: seq<Piece>, expression: seq<RenderNode>,
                          n: RenderNode, p: Piece)
    requires AllRealised(children, pieces, expression) && Realises(n, p, expression)
    ensures AllRealised(children + [n], pieces + [p], expression)
  {
    TakeSnoc(children, n);
    TakeSnoc(pieces, p);
  }

  /** A realised list extended by nodes that carry their pieces. */
  lemma {:induction false} AllRealisedExtend(children: seq<RenderNode>, pieces: seq<Piece>, expression: seq<RenderNode>,
                          more: seq<RenderNode>, morePieces: seq<Piece>)
    requires AllRealised(children, pieces, expression) && |more| == |morePieces|
    requires forall t :: 0 <= t < |more| ==> Realises(more[t], morePieces[t], expression)
    ensures AllRealised(children + more, pieces + morePieces, expression)
  {
    AllRealisedAt(children, pieces, expression);
    var c, p := children + more, pieces + morePieces;
    forall t | 0 <= t < |c| ensures Realises(c[t], p[t], expression) {
      if t < |children| {
        assert c[t] == children[t] && p[t] == pieces[t];
      } else {
        assert c[t] == more[t - |children|] && p[t] == morePieces[t - |children|];
      }
    }
    AllRealisedFromAll(c, p, expression);
  }

  /** A list whose every node carries its piece is realised. */
  lemma {:induction false} AllRealisedFromAll(children: seq<RenderNode>, pieces: seq<Piece>,
                                              expression: seq<RenderNode>)
    requires |children| == |pieces|
    requires forall t :: 0 <= t < |pieces| ==> Realises(children[t], pieces[t], expression)
    ensures AllRealised(children, pieces, expression)
    decreases |children|
  {
    if children != [] {
      var m := |children| - 1;
      forall t | 0 <= t < m ensures Realises(children[..m][t], pieces[..m][t], expression) {
        assert children[..m][t] == children[t] && pieces[..m][t] == pieces[t];
      }
      AllRealisedFromAll(children[..m], pieces[..m], expression);
    }
  }

  /** Every node of a realised list carries its piece. */
  lemma {:induction false} AllRealisedAt(children: seq<RenderNode>, pieces: seq<Piece>, expression: seq<RenderNode>)
    requires AllRealised(children, pieces, expression)
    ensures |children| == |pieces|
    ensures forall t :: 0 <= t < |pieces| ==> Realises(children[t], pieces[t], expression)
    decreases |children|
  {
    if children != [] {
      var m := |children| - 1;
      AllRealisedAt(children[..m], pieces[..m], expression);
      forall t | 0 <= t < m ensures Realises(children[t], pieces[t], expression) {
        assert children[..m][t] == children[t] && pieces[..m][t] == pieces[t];
      }
    }
  }

  /** The nodes after the cursor, and those left out of the list, still hold
      the values `orig` recorded for them. */
  predicate Untouched(chars: seq<RenderNode>, i: nat, orig: map<RenderNode, Box>)
    reads (set k | i < k < |chars| :: chars[k]) + (set n | n in orig && n !in chars)
  {
    && (forall n :: n in chars ==> n in orig)
    && (forall k :: i < k < |chars| ==> View(chars[k]) == orig[chars[k]])
    && (forall n :: n in orig && n !in chars ==> View(n) == orig[n])
  }

  /** Dropping the node after the cursor keeps every other node's record. */
  lemma {:induction false} UntouchedDrop(chars: seq<RenderNode>, i: nat, orig: map<RenderNode, Box>)
    requires Distinct(chars) && i + 1 < |chars| && Untouched(chars, i, orig)
    ensures Untouched(chars[..i + 1] + chars[i + 2..], i, orig)
  {
    var c := chars[..i + 1] + chars[i + 2..];
    assert forall k :: i < k < |c| ==> c[k] == chars[k + 1];
    assert forall m :: 0 <= m < i + 1 ==> chars[m] == c[m];
    assert forall m :: i + 1 < m < |chars| ==> chars[m] == c[m - 1];
  }

  /** Every node in `kids` still has the children recorded for it. */
  predicate SameChildren(kids: map<RenderNode, seq<RenderNode>>)
    reads kids.Keys
  {
    forall n :: n in kids ==> n.children == kids[n]
  }

  /** What tryCombineChars' loop will have made of the values vs once its
      cursor is at i: vs before the cursor, then the combination of the rest. */
  function CombinedFrom(vs: seq<Box>, i: int): seq<Box>
  {
    if 0 <= i <= |vs| then vs[..i] + Combine(vs[i..]) else Combine(vs)
  }

  /** The values after node i absorbs node i+1. */
  function MergedAt(vs: seq<Box>, i: nat): (ws: seq<Box>)
    requires i + 1 < |vs|
    ensures |ws| == |vs| - 1
  {
    vs[..i] + [Merge(vs[i], vs[i + 1])] + vs[i + 2..]
  }

  /** A merge at the cursor leaves what the loop will compute unchanged. */
  lemma {:induction false} CombineMerged(vs: seq<Box>, i: nat)
    requires i + 1 < |vs| && Combinable(vs[i], vs[i + 1])
    ensures CombinedFrom(MergedAt(vs, i), i) == CombinedFrom(vs, i)
  {
    var ws := MergedAt(vs, i);
    assert ws[..i] == vs[..i];
    assert ws[i..] == [Merge(vs[i], vs[i + 1])] + vs[i + 2..];
    assert vs[i..][2..] == vs[i + 2..];
  }

  /** A node that does not combine with its neighbour is final. */
  lemma {:induction false} CombineSkipped(vs: seq<Box>, i: nat)
    requires i + 1 < |vs| && !Combinable(vs[i], vs[i + 1])
    ensures CombinedFrom(vs, i + 1) == CombinedFrom(vs, i)
  {
    assert vs[i..][1..] == vs[i + 1..];
    assert vs[..i + 1] == vs[..i] + [vs[i]];
  }

  /** When fewer than two nodes are left, the values are the combination. */
  lemma {:induction false} CombinedAtEnd(vs: seq<Box>, i: int)
    requires 0 <= i <= |vs| || (i == 0 && vs == [])
    requires !(i < |vs| - 1)
    ensures CombinedFrom(vs, i) == vs
  {
    assert vs[..i] + vs[i..] == vs;
  }

  /** The state after a round at node i that did not stop at the left
      sentinel: the node and its glue are woven on, and the cursor moves past
      a non-space node. */
  lemma {:induction false} AdvanceSpacing(rawGroups: seq<RenderNode>, nonSpaces: seq<RenderNode?>, isRealGroup: bool,
                       options: Options, i: nat, j: nat, groups: seq<RenderNode>,
                       glues: seq<Option<RenderNode>>, glue: Option<RenderNode>)
    requires SpacingState(rawGroups, nonSpaces, isRealGroup, options, i, j, groups, glues) && i < |rawGroups|
    requires var mask := NonSpaceMask(Classes(rawGroups));
             if mask[i] && j < |nonSpaces| - 1
             then j != 0 && GlueFits(glue, SlotGlue(nonSpaces[j], nonSpaces[j + 1], isRealGroup), options)
             else glue.None?
    ensures var mask := NonSpaceMask(Classes(rawGroups));
            SpacingState(rawGroups, nonSpaces, isRealGroup, options, i + 1,
                         if mask[i] && j < |nonSpaces| - 1 then j + 1 else j,
                         groups + [rawGroups[i]] + Companion(glue), glues + [glue])
  {
    var mask := NonSpaceMask(Classes(rawGroups));
    var plan := GluePlan(Classes(rawGroups), isRealGroup);
    SpacingStep(rawGroups, mask, nonSpaces, i, if j == 0 then 1 else j, isRealGroup);
    WeaveStep(rawGroups, glues, glue);
    GluesFitAppend(glues, plan, glue, options);
  }

  /** The built nodes after bin cancellation, where only the non-space ones
      may have changed, and only in their classes. */
  lemma {:induction false} CancelledNodes(raw: seq<RenderNode>, built: seq<Box>, ns: seq<RenderNode>, isRealGroup: bool)
    requires |raw| == |built| && Distinct(raw)
    requires ns == Filter(raw, NonSpaceMask(BoxClasses(built)))
    requires Classes(ns) == CancelBins(Filter(BoxClasses(built), NonSpaceMask(BoxClasses(built))), isRealGroup)
    requires forall k :: 0 <= k < |raw| && raw[k] in ns ==>
               View(raw[k]) == built[k].(klasses := raw[k].klasses) &&
               (mspace in raw[k].klasses <==> mspace in built[k].klasses)
    requires forall k :: 0 <= k < |raw| && raw[k] !in ns ==> View(raw[k]) == built[k]
    ensures var mask := NonSpaceMask(BoxClasses(built));
            && (forall k :: 0 <= k < |raw| ==> View(raw[k]) == built[k].(klasses := raw[k].klasses))
            && NonSpaceMask(Classes(raw)) == mask
            && (forall k :: 0 <= k < |raw| && mspace in built[k].klasses ==> raw[k].klasses == built[k].klasses)
            && Filter(Classes(raw), mask) == CancelBins(Filter(BoxClasses(built), mask), isRealGroup)
            && ns == Filter(raw, NonSpaceMask(Classes(raw)))
  {
    var mask := NonSpaceMask(BoxClasses(built));
    forall k | 0 <= k < |raw| ensures mspace in raw[k].klasses <==> mspace in built[k].klasses {
      FilterMembership(raw, mask, k);
    }
    forall k | 0 <= k < |raw| && mspace in built[k].klasses ensures raw[k].klasses == built[k].klasses {
      FilterMembership(raw, mask, k);
    }
    assert NonSpaceMask(Classes(raw)) == mask;
    ClassesOfFilter(raw, mask);
  }

  /** Cancellation's outcome together with the spacing pass's outcome is
      what buildExpression promises. */
  lemma {:induction false} SpacedExpressionBuilt(built: seq<Box>, isRealGroup: bool, options: Options, raw: seq<RenderNode>,
                              glues: seq<Option<RenderNode>>, result: seq<RenderNode>)
    requires |raw| == |built|
    requires forall k :: 0 <= k < |raw| ==> View(raw[k]) == built[k].(klasses := raw[k].klasses)
    requires NonSpaceMask(Classes(raw)) == NonSpaceMask(BoxClasses(built))
    requires forall k :: 0 <= k < |raw| && mspace in built[k].klasses ==> raw[k].klasses == built[k].klasses
    requires Filter(Classes(raw), NonSpaceMask(BoxClasses(built))) ==
             CancelBins(Filter(BoxClasses(built), NonSpaceMask(BoxClasses(built))), isRealGroup)
    requires |glues| == |raw| && result == Weave(raw, glues)
    requires GluesFit(glues, GluePlan(Classes(raw), isRealGroup), options)
    ensures ExpressionBuilt(built, isRealGroup, options, raw, glues, result)
  {
  }

  /** What buildExpression leaves behind, given the boxes `built` its nodes
      were built as: `raw` holds one node per box, with the classes of the
      non-space ones rewritten by bin cancellation and everything else as
      built, and the result is `raw` woven with the glue GluePlan prescribes
      for the rewritten classes. */
  predicate ExpressionBuilt(built: seq<Box>, isRealGroup: bool, options: Options, raw: seq<RenderNode>,
                            glues: seq<Option<RenderNode>>, result: seq<RenderNode>)
    reads raw, set g | g in glues && g.Some? :: g.value
  {
    var mask := NonSpaceMask(BoxClasses(built));
    && |raw| == |built|
    && (forall k :: 0 <= k < |raw| ==> View(raw[k]) == built[k].(klasses := raw[k].klasses))
    && NonSpaceMask(Classes(raw)) == mask
    && (forall k :: 0 <= k < |raw| && mspace in built[k].klasses ==> raw[k].klasses == built[k].klasses)
    && Filter(Classes(raw), mask) == CancelBins(Filter(BoxClasses(built), mask), isRealGroup)
    && |glues| == |raw| && result == Weave(raw, glues)
    && GluesFit(glues, GluePlan(Classes(raw), isRealGroup), options)
  }

  /** The state the spacing loop keeps: i nodes done and woven with their glue,
      the non-space cursor j just past the non-space nodes done (the left
      sentinel counting as j = 0 or 1), and the glue made so far as planned. */
  predicate SpacingState(rawGroups: seq<RenderNode>, nonSpaces: seq<RenderNode?>, isRealGroup: bool,
                         options: Options, i: int, j: nat, groups: seq<RenderNode>,
                         glues: seq<Option<RenderNode>>)
    reads rawGroups, set g | g in glues && g.Some? :: g.value
  {
    var mask := NonSpaceMask(Classes(rawGroups));
    && nonSpaces == [null] + Filter(rawGroups, mask) + [null]
    && 0 <= i <= |rawGroups| && |glues| == i
    && groups == Weave(rawGroups, glues)
    && j < |nonSpaces|
    && (if j == 0 then 1 else j) == 1 + |Filter(rawGroups[..i], mask[..i])|
    && GluesFit(glues, GluePlan(Classes(rawGroups), isRealGroup), options)
  }

  /** One glue slot holds a glue object exactly when the plan has a space
      there, and then it is that space's glue. */
  predicate GlueFits(glue: Option<RenderNode>, space: Option<Measurement>, options: Options)
    reads if glue.Some? then {glue.value} else {}
  {
    && (glue.Some? <==> space.Some?)
    && (glue.Some? ==> glue.value.children == [] && View(glue.value) == GlueBox(space.value, options))
  }

  /** The glue slots made so far fit the plan, slot by slot. */
  predicate GluesFit(glues: seq<Option<RenderNode>>, plan: seq<Option<Measurement>>, options: Options)
    reads set g | g in glues && g.Some? :: g.value
  {
    && |glues| <= |plan|
    && (glues != [] ==>
          var n := |glues| - 1;
          && (forall g :: g in glues[..n] ==> g in glues)
          && GluesFit(glues[..n], plan, options) && GlueFits(glues[n], plan[n], options))
  }

  lemma {:induction false} GluesFitAppend(glues: seq<Option<RenderNode>>, plan: seq<Option<Measurement>>, glue: Option<RenderNode>,
                       options: Options)
    requires GluesFit(glues, plan, options) && |glues| < |plan|
    requires GlueFits(glue, plan[|glues|], options)
    ensures GluesFit(glues + [glue], plan, options)
  {
    assert (glues + [glue])[..|glues|] == glues;
  }

  /** Every slot of a fitting list fits its planned space. */
  lemma {:induction false} GluesFitAt(glues: seq<Option<RenderNode>>, plan: seq<Option<Measurement>>,
                                      options: Options, k: nat)
    requires GluesFit(glues, plan, options) && k < |glues|
    ensures GlueFits(glues[k], plan[k], options)
  {
    var n := |glues| - 1;
    if k < n {
      GluesFitAt(glues[..n], plan, options, k);
      assert glues[..n][k] == glues[k];
    }
  }

  /** The glue the spacing loop computes from two slots of the non-space list. */
  function SlotGlue(current: RenderNode?, next: RenderNode?, isRealGroup: bool): Option<Measurement>
    reads current, next
  {
    var left := TypeOfDomTree(current);
    var right := TypeOfDomTree(next);
    if left != EMPTY && right != EMPTY && isRealGroup then
      if mtight in next.klasses then GetTightSpacings(left, right) else GetSpacings(left, right)
    else None
  }

  /** One round of the spacing loop at node i, with the non-space cursor c
      just past the non-space nodes before i: at a non-space node the two
      slots the loop looks at give the planned glue, and the cursor moves on
      exactly past non-space nodes. */
  lemma {:induction false} SpacingStep(rawGroups: seq<RenderNode>, mask: seq<bool>, nonSpaces: seq<RenderNode?>, i: nat, c: nat,
                    isRealGroup: bool)
    requires mask == NonSpaceMask(Classes(rawGroups)) && i < |rawGroups|
    requires nonSpaces == [null] + Filter(rawGroups, mask) + [null]
    requires c == 1 + |Filter(rawGroups[..i], mask[..i])|
    ensures mask[i] ==> c + 1 < |nonSpaces| &&
                        SlotGlue(nonSpaces[c], nonSpaces[c + 1], isRealGroup) ==
                          GlueAfter(Classes(rawGroups), i, isRealGroup)
    ensures !mask[i] ==> GlueAfter(Classes(rawGroups), i, isRealGroup).None?
    ensures c + (if mask[i] then 1 else 0) == 1 + |Filter(rawGroups[..i + 1], mask[..i + 1])|
  {
    FilterSnoc(rawGroups, mask, i);
    if mask[i] {
      FilterAt(rawGroups, mask, i);
      FilterHead(rawGroups, mask, i + 1);
      var f := Filter(rawGroups, mask);
      var rest := Filter(rawGroups[i + 1..], mask[i + 1..]);
      assert nonSpaces[c] == f[c - 1] == rawGroups[i];
      if rest == [] {
        assert c == |f| && nonSpaces[c + 1] == null;
      } else {
        assert nonSpaces[c + 1] == f[c] == rest[0];
      }
    }
  }

}
