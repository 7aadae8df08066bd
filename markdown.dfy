/** The markdown math splitter: lines of text arrive one at a time and are cut
    into plain text, inline `$$…$$` expressions and display math, reported to
    a handler.  Between two lines that are exactly `$$` the lines are
    collected into one display expression. */
module Markdown {
  import opened Common

  /** One handler callback. */
  datatype Event =
    | Normal(text: string)         // appendNormal
    | InlineMath(exp: string)      // appendInlineMathExp
    | DisplayMath(exp: string)     // appendDisplayMathExp
    | EndOfLine                    // appendEndOfLine

  /** The handler, as the record of the calls made on it. */
  class EventLog {
    var events: seq<Event>

    constructor ()
      ensures events == []
    {
      events := [];
    }

    method AppendNormal(text: string)
      modifies this
      ensures events == old(events) + [Normal(text)]
    {
      events := events + [Normal(text)];
    }

    method AppendInlineMathExp(exp: string)
      modifies this
      ensures events == old(events) + [InlineMath(exp)]
    {
      events := events + [InlineMath(exp)];
    }

    method AppendDisplayMathExp(exp: string)
      modifies this
      ensures events == old(events) + [DisplayMath(exp)]
    {
      events := events + [DisplayMath(exp)];
    }

    method AppendEndOfLine()
      modifies this
      ensures events == old(events) + [EndOfLine]
    {
      events := events + [EndOfLine];
    }
  }

  /* ---- The three patterns ---- */

  /** The first `$` at or after `from`, or the end of the line. */
  function NextDollar(line: string, from: nat): (q: nat)
    requires from <= |line|
    ensures from <= q <= |line| && (q < |line| ==> line[q] == '$')
    decreases |line| - from
  {
    if from == |line| || line[from] == '$' then from else NextDollar(line, from + 1)
  }

  /** NextDollar passes over no dollar. */
  lemma {:induction false} NextDollarSkips(line: string, from: nat)
    requires from <= |line|
    ensures forall k :: from <= k < NextDollar(line, from) ==> line[k] != '$'
    decreases |line| - from
  {
    if from < |line| && line[from] != '$' {
      NextDollarSkips(line, from + 1);
    }
  }

  /** mathExpPat, `\$\$([^$]+)\$\$`, tried at position p: two dollars, a
      non-empty run of other characters ending at q, and two dollars again.
      The run can only end at the next dollar, so q is that position. */
  function MatchAt(line: string, p: nat): (r: Option<nat>)
    requires p <= |line|
    ensures r.Some? ==> p + 2 < r.value && r.value + 2 <= |line|
  {
    if p + 1 < |line| && line[p] == '$' && line[p + 1] == '$' then
      var q := NextDollar(line, p + 2);
      if p + 2 < q && q + 1 < |line| && line[q + 1] == '$' then Some(q) else None
    else None
  }

  /** An inline expression is found at p, with contents up to q, exactly when
      the text there is `$$`, the dollar-free non-empty contents, and `$$`. */
  lemma {:induction false} MatchAtShape(line: string, p: nat, q: nat)
    requires p + 2 < q && q + 2 <= |line|
    ensures MatchAt(line, p) == Some(q) <==>
            line[p..p + 2] == "$$" && line[q..q + 2] == "$$" && NoDollar(line[p + 2..q])
  {
    if line[p..p + 2] == "$$" && line[q..q + 2] == "$$" && NoDollar(line[p + 2..q]) {
      assert line[p] == line[p..p + 2][0] && line[p + 1] == line[p..p + 2][1];
      assert line[q] == line[q..q + 2][0] && line[q + 1] == line[q..q + 2][1];
      assert forall k :: p + 2 <= k < q ==> line[k] == line[p + 2..q][k - p - 2];
      NextDollarIs(line, p + 2, q);
    }
    if MatchAt(line, p) == Some(q) {
      NextDollarSkips(line, p + 2);
      var x := line[p + 2..q];
      assert forall k :: p + 2 <= k < q ==> line[k] == x[k - (p + 2)];
    }
  }

  /** NextDollar lands on the first dollar. */
  lemma {:induction false} NextDollarIs(line: string, from: nat, q: nat)
    requires from <= q < |line| && line[q] == '$'
    requires forall k :: from <= k < q ==> line[k] != '$'
    ensures NextDollar(line, from) == q
    decreases q - from
  {
    if from < q {
      NextDollarIs(line, from + 1, q);
    }
  }

  predicate NoDollar(s: string)
  {
    forall k :: 0 <= k < |s| ==> s[k] != '$'
  }

  /** find / next on mathExpPat: the leftmost match starting at or after
      `from`, as the start p and the end q of its contents. */
  function FindMatch(line: string, from: nat): (r: Option<(nat, nat)>)
    requires from <= |line|
    ensures r.None? ==> NoMatchIn(line, from, |line|)
    ensures r.Some? ==> from <= r.value.0 < |line| && MatchAt(line, r.value.0) == Some(r.value.1) &&
                        NoMatchIn(line, from, r.value.0)
    decreases |line| - from
  {
    if from == |line| then None
    else
      match MatchAt(line, from)
      case Some(q) => Some((from, q))
      case None => FindMatch(line, from + 1)
  }

  /** No match of mathExpPat starts at from..to-1. */
  predicate NoMatchIn(line: string, from: nat, to: nat)
    requires from <= to <= |line|
  {
    forall p :: from <= p < to ==> MatchAt(line, p).None?
  }

  /** mathExpLinePat, `^\$\$([^\$]+)\$\$$`, matched against the whole line:
      the expression when the line is `$$`, non-empty dollar-free text, `$$`. */
  function DisplayLine(line: string): Option<string>
  {
    if 5 <= |line| && line[..2] == "$$" && line[|line| - 2..] == "$$" && NoDollar(line[2..|line| - 2])
    then Some(line[2..|line| - 2])
    else None
  }

  /** A line is a display line exactly when it is `$$`, a non-empty
      dollar-free expression, `$$`; and then the expression is given back. */
  lemma {:induction false} DisplayLineExactly(line: string, x: string)
    ensures DisplayLine(line) == Some(x) <==> line == "$$" + x + "$$" && x != [] && NoDollar(x)
  {
    if line == "$$" + x + "$$" && x != [] && NoDollar(x) {
      assert line[..2] == "$$" && line[|line| - 2..] == "$$";
      assert line[2..|line| - 2] == x;
    }
    if DisplayLine(line) == Some(x) {
      assert line == line[..2] + line[2..|line| - 2] + line[|line| - 2..];
    }
  }

  /** multiLineMathBeginEndPat, `^\$\$$`, matched against the whole line. */
  predicate IsFence(line: string)
  {
    line == "$$"
  }

  /* ---- What one line makes ---- */

  /** The calls oneNormalLineWithoutEOL makes from position `from` on: the
      text before the next inline expression when there is any, the
      expression, and the same again after it; the rest of the line when no
      expression is left. */
  function Segments(line: string, from: nat): seq<Event>
    requires from <= |line|
    decreases |line| - from
  {
    var m := FindMatch(line, from);
    if m.None? then (if from < |line| then [Normal(line[from..])] else [])
    else
      var p, q := m.value.0, m.value.1;
      (if from != p then [Normal(line[from..p])] else []) + [InlineMath(line[p + 2..q])] + Segments(line, q + 2)
  }

  /** oneNormalLineWithoutEOL's calls on the whole line. */
  function NormalLineEvents(line: string): seq<Event>
  {
    if line == [] then [] else Segments(line, 0)
  }

  /** The builder's state between lines: whether it is inside a `$$` block,
      and the text collected for the block so far. */
  datatype State = State(inMultiLineMath: bool, buffer: string)

  /** oneLineInMultilineMath: the closing fence ends the block and hands its
      text over, if there is any, and clears the buffer; any other line is
      collected, followed by a space. */
  function InBlock(s: State, line: string): (State, seq<Event>)
  {
    if IsFence(line) then (State(false, []), if s.buffer != [] then [DisplayMath(s.buffer)] else [])
    else (s.(buffer := s.buffer + line + " "), [])
  }

  /** oneLine: inside a block, the block step; otherwise an opening fence, a
      display line, or a normal line ended by an end-of-line call. */
  function Step(s: State, line: string): (State, seq<Event>)
  {
    if s.inMultiLineMath then InBlock(s, line)
    else if IsFence(line) then (State(true, s.buffer), [])
    else if DisplayLine(line).Some? then (s, [DisplayMath(DisplayLine(line).value)])
    else (s, NormalLineEvents(line) + [EndOfLine])
  }

  /** Lines fed one after the other. */
  function Run(s: State, lines: seq<string>): (State, seq<Event>)
    decreases |lines|
  {
    if lines == [] then (s, [])
    else
      var first := Step(s, lines[0]);
      var rest := Run(first.0, lines[1..]);
      (rest.0, first.1 + rest.1)
  }

  /* ---- What the splitting promises ---- */

  /** The text an event stands for in the line it came from. */
  function Written(e: Event): string
  {
    match e
    case Normal(t) => t
    case InlineMath(x) => "$$" + x + "$$"
    case DisplayMath(x) => "$$" + x + "$$"
    case EndOfLine => ""
  }

  /** The text a list of events stands for. */
  function Source(events: seq<Event>): string
  {
    if events == [] then [] else Written(events[0]) + Source(events[1..])
  }

  lemma {:induction false} SourceAppend(a: seq<Event>, b: seq<Event>)
    ensures Source(a + b) == Source(a) + Source(b)
  {
    if a != [] {
      assert (a + b)[1..] == a[1..] + b;
      SourceAppend(a[1..], b);
    } else {
      assert a + b == b;
    }
  }

  /** What a match found at or after `from` tells about the line and about
      Segments there. */
  lemma {:induction false} MatchFound(line: string, from: nat, p: nat, q: nat)
    requires from <= |line| && FindMatch(line, from) == Some((p, q))
    ensures from <= p && p + 2 < q && q + 2 <= |line|
    ensures line[p..p + 2] == "$$" && line[q..q + 2] == "$$" && NoDollar(line[p + 2..q])
  {
    MatchAtShape(line, p, q);
  }

  /** Segments at a match: the text before it, the expression, and Segments
      after it. */
  lemma {:induction false} SegmentsAtMatch(line: string, from: nat, p: nat, q: nat, after: nat)
    requires from <= |line| && FindMatch(line, from) == Some((p, q)) && after == q + 2
    ensures after <= |line|
    ensures Segments(line, from) ==
            (if from != p then [Normal(line[from..p])] else []) + [InlineMath(line[p + 2..q])] + Segments(line, after)
  {
  }

  /** A line cut into the text before an inline expression, the expression
      between its fences, and the rest. */
  lemma {:induction false} Reassemble(line: string, from: nat, p: nat, q: nat, after: nat)
    requires from <= p && p + 2 < q && after == q + 2 && after <= |line|
    requires line[p..p + 2] == "$$" && line[q..q + 2] == "$$"
    ensures line[from..] == line[from..p] + ("$$" + line[p + 2..q] + "$$") + line[after..]
  {
    var x := line[p + 2..q];
    assert line[p..after] == "$$" + x + "$$" by {
      assert line[p..after] == line[p..p + 2] + line[p + 2..q] + line[q..after];
    }
    assert line[from..] == line[from..p] + line[p..after] + line[after..];
  }

  /** The events from `from` on stand for the rest of the line. */
  predicate Reassembles(line: string, from: nat)
    requires from <= |line|
  {
    Source(Segments(line, from)) == line[from..]
  }

  /** Putting each inline expression back between `$$` and `$$` gives back
      the line from `from` on. */
  lemma {:induction false} SegmentsReassemble(line: string, from: nat)
    requires from <= |line|
    ensures Reassembles(line, from)
    decreases |line| - from, 1
  {
    var m := FindMatch(line, from);
    if m.None? {
      ReassembleRest(line, from);
    } else {
      ReassembleFound(line, from, m.value.0, m.value.1);
    }
  }

  /** With no match left, the rest of the line is one plain text. */
  lemma {:induction false} ReassembleRest(line: string, from: nat)
    requires from <= |line| && FindMatch(line, from).None?
    ensures Reassembles(line, from)
  {
    if from == |line| {
      assert line[from..] == [];
    } else {
      assert Source([Normal(line[from..])]) == line[from..] + Source([]);
    }
  }

  /** The reassembly step at a match. */
  lemma {:induction false} ReassembleFound(line: string, from: nat, p: nat, q: nat)
    requires from <= |line| && FindMatch(line, from) == Some((p, q))
    ensures Reassembles(line, from)
    decreases |line| - from, 0
  {
    MatchFound(line, from, p, q);
    var after := q + 2;
    SegmentsReassemble(line, after);
    SegmentsAtMatch(line, from, p, q, after);
    ReassembleStep(line, from, p, q, after, Segments(line, from), Segments(line, after));
  }

  lemma {:induction false} ReassembleStep(line: string, from: nat, p: nat, q: nat, after: nat, segs: seq<Event>, rest: seq<Event>)
    requires from <= p && p + 2 < q && after == q + 2 && after <= |line|
    requires line[p..p + 2] == "$$" && line[q..q + 2] == "$$"
    requires Source(rest) == line[after..]
    requires segs == (if from != p then [Normal(line[from..p])] else []) + [InlineMath(line[p + 2..q])] + rest
    ensures Source(segs) == line[from..]
  {
    var before: seq<Event> := if from != p then [Normal(line[from..p])] else [];
    var x := line[p + 2..q];
    var fenced := "$$" + x + "$$";
    SourceAppend(before + [InlineMath(x)], rest);
    SourceAppend(before, [InlineMath(x)]);
    assert Source(segs) == Source(before) + Source([InlineMath(x)]) + Source(rest);
    assert Source([InlineMath(x)]) == fenced by {
      assert Source([InlineMath(x)]) == fenced + Source([]);
    }
    assert Source(before) == line[from..p] by {
      if from != p {
        assert Source(before) == line[from..p] + Source([]);
      }
    }
    Reassemble(line, from, p, q, after);
    SameParts(Source(before), Source([InlineMath(x)]), Source(rest), line[from..p], fenced, line[after..]);
  }

  lemma {:induction false} SameParts(a: string, b: string, c: string, a': string, b': string, c': string)
    requires a == a' && b == b' && c == c'
    ensures a + b + c == a' + b' + c'
  {
  }

  /** The whole line comes back from its segments. */
  lemma {:induction false} NormalLineReassembles(line: string)
    ensures Source(NormalLineEvents(line)) == line
  {
    if line != [] {
      SegmentsReassemble(line, 0);
      assert line[0..] == line;
    }
  }

  /** The shape of oneNormalLineWithoutEOL's calls: plain text and inline
      expressions only, no empty plain text, every inline expression
      non-empty and dollar-free, and never two plain texts in a row. */
  predicate WellSplit(events: seq<Event>)
  {
    && (forall k :: 0 <= k < |events| ==> events[k].Normal? || events[k].InlineMath?)
    && (forall k :: 0 <= k < |events| && events[k].Normal? ==> events[k].text != [])
    && (forall k :: 0 <= k < |events| && events[k].InlineMath? ==>
          events[k].exp != [] && NoDollar(events[k].exp))
    && (forall k :: 0 <= k < |events| - 1 && events[k].Normal? ==> events[k + 1].InlineMath?)
  }

  lemma {:induction false} SegmentsWellSplit(line: string, from: nat)
    requires from <= |line|
    ensures WellSplit(Segments(line, from))
    decreases |line| - from
  {
    match FindMatch(line, from)
    case None =>
    case Some((p, q)) =>
      var after := q + 2;
      MatchFound(line, from, p, q);
      SegmentsAtMatch(line, from, p, q, after);
      SegmentsWellSplit(line, after);
      var before: seq<Event> := if from != p then [Normal(line[from..p])] else [];
      WellSplitCons(before, line[p + 2..q], Segments(line, after));
  }

  /** Plain text (if any) and an inline expression put in front of a
      well-split list keep it well split. */
  lemma {:induction false} WellSplitCons(before: seq<Event>, x: string, rest: seq<Event>)
    requires WellSplit(rest) && x != [] && NoDollar(x)
    requires before == [] || (|before| == 1 && before[0].Normal? && before[0].text != [])
    ensures WellSplit(before + [InlineMath(x)] + rest)
  {
    var all := before + [InlineMath(x)] + rest;
    var b := |before|;
    assert forall k :: b < k < |all| ==> all[k] == rest[k - b - 1];
    assert all[b] == InlineMath(x);
  }

  /* ---- The lines of a `$$` block ---- */

  /** The text a `$$` block collects: each line followed by a space. */
  function Collected(lines: seq<string>): string
  {
    if lines == [] then [] else lines[0] + " " + Collected(lines[1..])
  }

  /** Inside a block, lines that are not fences are only collected. */
  lemma {:induction false} CollectLines(buffer: string, lines: seq<string>)
    requires forall k :: 0 <= k < |lines| ==> !IsFence(lines[k])
    ensures Run(State(true, buffer), lines) == (State(true, buffer + Collected(lines)), [])
    decreases |lines|
  {
    if lines != [] {
      var rest := lines[1..];
      var b1 := buffer + lines[0] + " ";
      assert Step(State(true, buffer), lines[0]) == (State(true, b1), []);
      CollectLines(b1, rest);
      var after := Run(State(true, b1), rest);
      assert after == (State(true, b1 + Collected(rest)), []);
      assert Run(State(true, buffer), lines) == (after.0, [] + after.1);
      assert b1 + Collected(rest) == buffer + Collected(lines);
      assert after.0 == State(true, buffer + Collected(lines)) && [] + after.1 == [];
    } else {
      assert buffer + Collected(lines) == buffer;
    }
  }

  /** A whole block from the normal state: the opening fence, lines that are
      not fences, and the closing fence make one display expression of the
      collected lines, or nothing when the block is empty, and leave the
      builder in the normal state with an empty buffer. */
  lemma {:induction false} Block(body: seq<string>)
    requires forall k :: 0 <= k < |body| ==> !IsFence(body[k])
    ensures Run(State(false, []), ["$$"] + body + ["$$"]) ==
            (State(false, []), if body == [] then [] else [DisplayMath(Collected(body))])
  {
    var inside := body + ["$$"];
    assert ["$$"] + body + ["$$"] == ["$$"] + inside;
    RunCons(State(false, []), "$$", inside);
    assert Step(State(false, []), "$$") == (State(true, []), []);
    BlockInside(body);
    var display: seq<Event> := if body == [] then [] else [DisplayMath(Collected(body))];
    assert [] + display == display;
  }

  /** Run over a first line and the rest. */
  lemma {:induction false} RunCons(s: State, line: string, rest: seq<string>)
    ensures Run(s, [line] + rest) == (Run(Step(s, line).0, rest).0, Step(s, line).1 + Run(Step(s, line).0, rest).1)
  {
    assert ([line] + rest)[0] == line && ([line] + rest)[1..] == rest;
  }

  /** Inside a block from an empty buffer: the lines are collected and the
      closing fence hands them over. */
  lemma {:induction false} BlockInside(body: seq<string>)
    requires forall k :: 0 <= k < |body| ==> !IsFence(body[k])
    ensures Run(State(true, []), body + ["$$"]) ==
            (State(false, []), if body == [] then [] else [DisplayMath(Collected(body))])
  {
    var c := Collected(body);
    var display: seq<Event> := if body == [] then [] else [DisplayMath(c)];
    CollectLines([], body);
    assert [] + c == c;
    RunOne(State(true, c), "$$");
    CollectedNonEmpty(body);
    assert Run(State(true, c), ["$$"]) == (State(false, []), display);
    RunAppend(State(true, []), body, ["$$"]);
    assert [] + display == display;
  }

  lemma {:induction false} RunOne(s: State, line: string)
    ensures Run(s, [line]) == Step(s, line)
  {
    assert [line][1..] == [];
    assert Step(s, line).1 + [] == Step(s, line).1;
  }

  lemma {:induction false} CollectedNonEmpty(lines: seq<string>)
    ensures Collected(lines) == [] <==> lines == []
  {
  }

  lemma {:induction false} RunAppend(s: State, a: seq<string>, b: seq<string>)
    ensures Run(s, a + b) == (Run(Run(s, a).0, b).0, Run(s, a).1 + Run(Run(s, a).0, b).1)
    decreases |a|
  {
    if a == [] {
      assert a + b == b;
      assert Run(s, a).1 + Run(Run(s, a).0, b).1 == Run(s, b).1;
    } else {
      assert (a + b)[0] == a[0] && (a + b)[1..] == a[1..] + b;
      var first := Step(s, a[0]);
      var mid := Run(first.0, a[1..]);
      RunAppend(first.0, a[1..], b);
      assert Run(s, a) == (mid.0, first.1 + mid.1);
      AppendAssoc(first.1, mid.1, Run(mid.0, b).1);
    }
  }

  /** Outside a block the buffer is always empty: the builder starts with an
      empty buffer, only a block adds to it, and closing the block clears it. */
  lemma {:induction false} StepKeepsNormalBufferEmpty(s: State, line: string)
    requires !s.inMultiLineMath ==> s.buffer == []
    ensures var s' := Step(s, line).0; !s'.inMultiLineMath ==> s'.buffer == []
  {
  }

  /** A line outside a block that is neither a fence nor a display line
      makes its split followed by exactly one end-of-line call, and only an
      end-of-line call when it is empty. */
  lemma {:induction false} NormalLineEnds(s: State, line: string)
    requires !s.inMultiLineMath && !IsFence(line) && DisplayLine(line).None?
    ensures Step(s, line).0 == s
    ensures var e := Step(s, line).1;
            e == NormalLineEvents(line) + [EndOfLine] && EndOfLine !in NormalLineEvents(line)
    ensures line == [] ==> Step(s, line).1 == [EndOfLine]
  {
    if line != [] {
      SegmentsWellSplit(line, 0);
    }
  }

  /* ---- The builder ---- */

  /** MathSpanBuilder: the two-state line splitter over a handler. */
  class MathSpanBuilder {
    const handler: EventLog
    var inMultiLineMath: bool
    var multiLineMathBuffer: string

    constructor (handler: EventLog)
      ensures this.handler == handler && !inMultiLineMath && multiLineMathBuffer == []
    {
      this.handler := handler;
      inMultiLineMath := false;
      multiLineMathBuffer := [];
    }

    /** The state as a value. */
    function Current(): State
      reads this
    {
      State(inMultiLineMath, multiLineMathBuffer)
    }

    /** oneNormalLineWithoutEOL: the handler receives Segments of the line,
        in order. */
    method OneNormalLineWithoutEOL(line: string)
      modifies handler
      ensures handler.events == old(handler.events) + NormalLineEvents(line)
    {
      if |line| == 0 {
        return;
      }
      var lastMatchPos := 0;
      var res := FindMatch(line, 0);
      if res == None {
        handler.AppendNormal(line);
        assert line[0..] == line;
        return;
      }
      while res != None
        invariant lastMatchPos <= |line| && res == FindMatch(line, lastMatchPos)
        invariant handler.events + Segments(line, lastMatchPos) == old(handler.events) + Segments(line, 0)
        decreases |line| - lastMatchPos
      {
        ghost var done := handler.events;
        var (start, last) := res.value;
        var next := last + 2;
        MatchFound(line, lastMatchPos, start, last);
        SegmentsAtMatch(line, lastMatchPos, start, last, next);
        ghost var made: seq<Event> := (if lastMatchPos != start then [Normal(line[lastMatchPos..start])] else []) +
                                      [InlineMath(line[start + 2..last])];
        assert Segments(line, lastMatchPos) == made + Segments(line, next);
        if lastMatchPos != start {
          handler.AppendNormal(line[lastMatchPos..start]);
        }
        handler.AppendInlineMathExp(line[start + 2..last]);
        assert handler.events == done + made;
        AppendAssoc(done, made, Segments(line, next));
        lastMatchPos := next;
        res := FindMatch(line, lastMatchPos);
      }
      assert Segments(line, lastMatchPos) == if lastMatchPos < |line| then [Normal(line[lastMatchPos..])] else [];
      if lastMatchPos != |line| {
        handler.AppendNormal(line[lastMatchPos..]);
      }
    }

    /** oneLineInMultilineMath: one line inside a `$$` block. */
    method OneLineInMultilineMath(line: string)
      modifies this, handler
      ensures Current() == InBlock(old(Current()), line).0
      ensures handler.events == old(handler.events) + InBlock(old(Current()), line).1
    {
      if IsFence(line) {
        inMultiLineMath := false;
        var exp := multiLineMathBuffer;
        if |exp| != 0 {
          handler.AppendDisplayMathExp(exp);
        }
        multiLineMathBuffer := [];
        return;
      }
      multiLineMathBuffer := multiLineMathBuffer + line;
      multiLineMathBuffer := multiLineMathBuffer + " ";
    }

    /** oneLine: the builder's state and the handler's calls follow Step. */
    method OneLine(line: string)
      modifies this, handler
      ensures Current() == Step(old(Current()), line).0
      ensures handler.events == old(handler.events) + Step(old(Current()), line).1
    {
      if inMultiLineMath {
        OneLineInMultilineMath(line);
        return;
      }
      if IsFence(line) {
        inMultiLineMath := true;
        return;
      }
      var display := DisplayLine(line);
      if display.Some? {
        handler.AppendDisplayMathExp(display.value);
        return;
      }
      OneNormalLineWithoutEOL(line);
      handler.AppendEndOfLine();
    }
  }

  lemma {:induction false} AppendAssoc<T>(a: seq<T>, b: seq<T>, c: seq<T>)
    ensures a + b + c == a + (b + c)
  {
  }
}
