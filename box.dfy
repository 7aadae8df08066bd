/** Render nodes: the boxes the assembly engine builds and rewrites in place,
    their value view, and the box-metrics maximum. */
module BoxModel {
  import opened Common

  /** The variants of RenderNode the core builds. */
  datatype NodeKind = SpanNode | SymbolNode

  /** A render node.  A span has children; a symbol has text and glyph metrics.
      Every field except the variant is updated in place by the builders. */
  class RenderNode {
    const kind: NodeKind
    var klasses: set<CssClass>
    var children: seq<RenderNode>
    var style: CssStyle
    var height: real
    var depth: real
    var maxFontSize: real
    var text: string
    var italic: real
    var skew: real
    var width: real

    /** RNodeSpan(klasses, children, options, style), before its metrics are computed. */
    constructor Span(klasses: set<CssClass>, children: seq<RenderNode>, style: CssStyle)
      ensures kind == SpanNode && this.klasses == klasses && this.children == children
      ensures this.style == style && text == ""
      ensures height == 0.0 && depth == 0.0 && maxFontSize == 0.0
      ensures italic == 0.0 && skew == 0.0 && width == 0.0
    {
      kind := SpanNode;
      this.klasses := klasses;
      this.children := children;
      this.style := style;
      height, depth, maxFontSize := 0.0, 0.0, 0.0;
      text := "";
      italic, skew, width := 0.0, 0.0, 0.0;
    }

    /** RNodeSymbol(text, height, depth, italic, skew, width, klasses). */
    constructor Symbol(text: string, height: real, depth: real, italic: real, skew: real,
                       width: real, klasses: set<CssClass>)
      ensures kind == SymbolNode && this.text == text && this.klasses == klasses
      ensures this.height == height && this.depth == depth && this.italic == italic
      ensures this.skew == skew && this.width == width
      ensures children == [] && style == DefaultStyle && maxFontSize == 0.0
    {
      kind := SymbolNode;
      this.text := text;
      this.height, this.depth, this.italic, this.skew, this.width := height, depth, italic, skew, width;
      this.klasses := klasses;
      children := [];
      style := DefaultStyle;
      maxFontSize := 0.0;
    }

    /** A node holding exactly the fields of `b`, and no children. */
    constructor FromBox(b: Box)
      ensures View(this) == b && children == []
    {
      kind := b.kind;
      klasses := b.klasses;
      children := [];
      style := b.style;
      height, depth, maxFontSize := b.height, b.depth, b.maxFontSize;
      text := b.text;
      italic, skew, width := b.italic, b.skew, b.width;
    }

    predicate HasClass(c: CssClass)
      reads this
    {
      c in klasses
    }
  }

  /** The value of a node's own fields (everything but its children). */
  datatype Box = Box(
    kind: NodeKind, klasses: set<CssClass>, style: CssStyle,
    height: real, depth: real, maxFontSize: real,
    text: string, italic: real, skew: real, width: real)

  function View(n: RenderNode): Box
    reads n
  {
    Box(n.kind, n.klasses, n.style, n.height, n.depth, n.maxFontSize,
        n.text, n.italic, n.skew, n.width)
  }

  function Views(ns: seq<RenderNode>): (vs: seq<Box>)
    reads ns
    ensures |vs| == |ns| && forall i :: 0 <= i < |ns| ==> vs[i] == View(ns[i])
  {
    seq(|ns|, i requires 0 <= i < |ns| reads ns => View(ns[i]))
  }

  /** Views of a list split anywhere are the views of the two parts. */
  lemma {:induction false} ViewsSplit(ns: seq<RenderNode>, i: nat)
    requires i <= |ns|
    ensures Views(ns) == Views(ns[..i]) + Views(ns[i..])
  {
    var a, b := Views(ns[..i]), Views(ns[i..]);
    assert forall k :: 0 <= k < i ==> (a + b)[k] == View(ns[k]);
    assert forall k :: i <= k < |ns| ==> (a + b)[k] == b[k - i] == View(ns[i..][k - i]);
  }

  function Heights(ns: seq<RenderNode>): (hs: seq<real>)
    reads ns
    ensures |hs| == |ns| && forall i :: 0 <= i < |ns| ==> hs[i] == ns[i].height
  {
    seq(|ns|, i requires 0 <= i < |ns| reads ns => ns[i].height)
  }

  function Depths(ns: seq<RenderNode>): (ds: seq<real>)
    reads ns
    ensures |ds| == |ns| && forall i :: 0 <= i < |ns| ==> ds[i] == ns[i].depth
  {
    seq(|ns|, i requires 0 <= i < |ns| reads ns => ns[i].depth)
  }

  function MaxFontSizes(ns: seq<RenderNode>): (ms: seq<real>)
    reads ns
    ensures |ms| == |ns| && forall i :: 0 <= i < |ns| ==> ms[i] == ns[i].maxFontSize
  {
    seq(|ns|, i requires 0 <= i < |ns| reads ns => ns[i].maxFontSize)
  }

  /** The class sets of a list of nodes. */
  function Classes(ns: seq<RenderNode>): (cs: seq<set<CssClass>>)
    reads ns
    ensures |cs| == |ns| && forall i :: 0 <= i < |ns| ==> cs[i] == ns[i].klasses
  {
    seq(|ns|, i requires 0 <= i < |ns| reads ns => ns[i].klasses)
  }

  /** The class sets of a list of box values. */
  function BoxClasses(bs: seq<Box>): (cs: seq<set<CssClass>>)
    ensures |cs| == |bs| && forall i :: 0 <= i < |bs| ==> cs[i] == bs[i].klasses
  {
    seq(|bs|, i requires 0 <= i < |bs| => bs[i].klasses)
  }

  /** Math.max. */
  function Max(a: real, b: real): (m: real)
    ensures m >= a && m >= b && (m == a || m == b)
  {
    if a >= b then a else b
  }

  /** `xs.maxOrNull() ?: 0.0`: the largest element, or 0 for an empty list. */
  function MaxOrZero(xs: seq<real>): (m: real)
    ensures |xs| == 0 ==> m == 0.0
    ensures forall i :: 0 <= i < |xs| ==> xs[i] <= m
    ensures |xs| > 0 ==> exists i :: 0 <= i < |xs| && xs[i] == m
  {
    if |xs| == 0 then 0.0
    else if |xs| == 1 then xs[0]
    else
      var rest := MaxOrZero(xs[1..]);
      assert forall i :: 1 <= i < |xs| ==> xs[i] == xs[1..][i - 1];
      Max(xs[0], rest)
  }
}
