/** The decision-flow diagram writers of src/workflows/campaign_pack.py: `_mermaid_flowchart`,
    `_dot_flowchart` with its `esc`, and the node selection of `write_flowchart_mermaid` and
    `write_flowchart_dot`. The writers collect a list of lines and return them joined by
    newlines with a final newline; the recursive functions below say which lines, and
    `Flowchart` is the loop that collects them. */
module Flowchart {
  import opened Wrappers
  import opened Text
  import opened PackSchema

  /** The two diagram languages the pack is written in. */
  datatype Notation = Mermaid | Dot

  /** A Mermaid label: newlines flattened to spaces, then double quotes turned into single
      quotes, so the label can neither end its quoted string nor break its line. */
  function MermaidLabel(s: string): (r: string)
    ensures '"' !in r && '\n' !in r
    ensures |r| == |s|
  {
    var flat := Replace(s, '\n', " ");
    ReplaceChars(s, '\n', " ", '\n');
    ReplaceChars(flat, '"', "'", '"');
    ReplaceChars(flat, '"', "'", '\n');
    Replace(flat, '"', "'")
  }

  /** `esc` of `_dot_flowchart`: backslashes doubled, then double quotes backslash-escaped,
      then newlines flattened to spaces. */
  function Esc(s: string): (r: string)
    ensures '\n' !in r
  {
    var quoted := Replace(Replace(s, '\\', "\\\\"), '"', "\\\"");
    ReplaceChars(quoted, '\n', " ", '\n');
    Replace(quoted, '\n', " ")
  }

  /** What `Esc` does to one character. */
  function EscChar(c: char): string {
    if c == '\\' then "\\\\" else if c == '"' then "\\\"" else if c == '\n' then " " else [c]
  }

  /** Escaping character by character. */
  function EscEach(s: string): string {
    if s == [] then [] else EscChar(s[0]) + EscEach(s[1..])
  }

  /** How DOT reads the inside of a quoted label: a backslash makes the next character part
      of the text, and a `"` that no backslash protects would close the string early (None). */
  function Unescape(e: string): Option<string> {
    if e == [] then Some([])
    else if e[0] == '\\' then
      if |e| == 1 then None
      else match Unescape(e[2..]) case Some(u) => Some([e[1]] + u) case None => None
    else if e[0] == '"' then None
    else match Unescape(e[1..]) case Some(u) => Some([e[0]] + u) case None => None
  }

  lemma EscCharIsEsc(c: char)
    ensures Esc([c]) == EscChar(c)
  {
    assert [c][1..] == [];
    if c == '\\' {
      var a := Replace([c], '\\', "\\\\");
      assert a == "\\\\";
      assert a[1..][1..] == [];
      var b := Replace(a, '"', "\\\"");
      assert b == "\\\\";
      assert Replace(b, '\n', " ") == "\\\\";
    } else if c == '"' {
      var a := Replace([c], '\\', "\\\\");
      assert a == "\"";
      var b := Replace(a, '"', "\\\"");
      assert b == "\\\"";
      assert b[1..][1..] == [];
      assert Replace(b, '\n', " ") == "\\\"";
    }
  }

  /** The three passes of `esc` escape each character on its own: the backslashes the second
      pass inserts are not doubled again, because the doubling pass has already run. */
  lemma {:induction false} EscIsPerChar(s: string)
    ensures Esc(s) == EscEach(s)
  {
    if s != [] {
      var c := s[0];
      assert s == [c] + s[1..];
      var a := Replace([c], '\\', "\\\\");
      var b := Replace(a, '"', "\\\"");
      var a' := Replace(s[1..], '\\', "\\\\");
      var b' := Replace(a', '"', "\\\"");
      ReplaceAppend([c], s[1..], '\\', "\\\\");
      ReplaceAppend(a, a', '"', "\\\"");
      ReplaceAppend(b, b', '\n', " ");
      assert Esc(s) == Esc([c]) + Esc(s[1..]);
      EscCharIsEsc(c);
      EscIsPerChar(s[1..]);
    }
  }

  /** Reading an escaped label back gives the label with its newlines flattened. */
  lemma {:induction false} UnescapeEach(s: string)
    ensures Unescape(EscEach(s)) == Some(Replace(s, '\n', " "))
  {
    if s != [] {
      var c := s[0];
      var rest := EscEach(s[1..]);
      UnescapeEach(s[1..]);
      var e := EscChar(c) + rest;
      if c == '\\' || c == '"' {
        assert e[0] == '\\' && e[1] == c && e[2..] == rest;
      } else {
        assert e[0] != '\\' && e[0] != '"' && e[1..] == rest;
      }
    }
  }

  /** A DOT label written by `esc` reads back as the original text with newlines flattened
      to spaces: in particular no `"` in it is left unescaped. */
  lemma EscReadsBack(s: string)
    ensures Unescape(Esc(s)) == Some(Replace(s, '\n', " "))
  {
    EscIsPerChar(s);
    UnescapeEach(s);
  }

  /** An edge the writers draw: from the node id `src` along one of its options. */
  datatype Edge = Edge(src: string, choice: Choice)

  /** The declaration line of a node (only written for a node with an id). */
  function NodeLine(notation: Notation, node: FlowNode): string {
    match notation
    case Mermaid => "  " + node.id + "[\"" + MermaidLabel(node.text) + "\"]"
    case Dot => "  " + node.id + " [label=\"" + Esc(node.text) + "\"]; "
  }

  /** The line of an edge. */
  function EdgeLine(notation: Notation, e: Edge): string {
    match notation
    case Mermaid => "  " + e.src + " -->|\"" + MermaidLabel(e.choice.labelText) + "\"| " + e.choice.next
    case Dot => "  " + e.src + " -> " + e.choice.next + " [label=\"" + Esc(e.choice.labelText) + "\"]; "
  }

  function Header(notation: Notation): seq<string> {
    match notation
    case Mermaid => ["graph TD"]
    case Dot => [
      "digraph DecisionFlow {",
      "  rankdir=TB;",
      "  node [shape=box, fontname=Helvetica];",
      "  edge [fontname=Helvetica];"]
  }

  function Footer(notation: Notation): seq<string> {
    match notation
    case Mermaid => []
    case Dot => ["}"]
  }

  /** The nodes that are declared: those with an id, in input order. */
  function Named(nodes: seq<FlowNode>): seq<FlowNode> {
    if nodes == [] then []
    else
      var last := nodes[|nodes| - 1];
      Named(nodes[..|nodes| - 1]) + (if last.id != "" then [last] else [])
  }

  /** The edges drawn for the options of a node with id `src`, in option order: one per
      option whose `next` is set, none at all when `src` is empty. */
  function OptionEdges(src: string, options: seq<Choice>): seq<Edge> {
    if options == [] then []
    else
      var last := options[|options| - 1];
      OptionEdges(src, options[..|options| - 1]) + (if src != "" && last.next != "" then [Edge(src, last)] else [])
  }

  /** The edges drawn for all nodes, grouped by node in input order. */
  function Edges(nodes: seq<FlowNode>): seq<Edge> {
    if nodes == [] then []
    else
      var last := nodes[|nodes| - 1];
      Edges(nodes[..|nodes| - 1]) + OptionEdges(last.id, last.options)
  }

  /** One declaration line per declared node. */
  function Declarations(notation: Notation, named: seq<FlowNode>): (r: seq<string>)
    ensures |r| == |named|
  {
    seq(|named|, i requires 0 <= i < |named| => NodeLine(notation, named[i]))
  }

  /** One line per drawn edge. */
  function Drawings(notation: Notation, edges: seq<Edge>): (r: seq<string>)
    ensures |r| == |edges|
  {
    seq(|edges|, i requires 0 <= i < |edges| => EdgeLine(notation, edges[i]))
  }

  /** All lines of a diagram: header, node declarations, edges, footer. */
  function DiagramLines(notation: Notation, nodes: seq<FlowNode>): seq<string> {
    Header(notation) + Declarations(notation, Named(nodes)) + Drawings(notation, Edges(nodes)) + Footer(notation)
  }

  /** `"\n".join(lines) + "\n"`. */
  function Render(lines: seq<string>): string {
    Join("\n", lines) + "\n"
  }

  /** The text a writer produces for `nodes`. */
  function Diagram(notation: Notation, nodes: seq<FlowNode>): string {
    Render(DiagramLines(notation, nodes))
  }

  /** The node list the two writers take from the pack: `decision_flow.nodes`, or none. */
  function FlowNodes(pack: Pack): seq<FlowNode> {
    pack.decisionFlow.GetOr([])
  }

  lemma DeclarationsAppend(notation: Notation, a: seq<FlowNode>, b: seq<FlowNode>)
    ensures Declarations(notation, a + b) == Declarations(notation, a) + Declarations(notation, b)
  {
    var l, r := Declarations(notation, a + b), Declarations(notation, a) + Declarations(notation, b);
    forall m | 0 <= m < |l| ensures l[m] == r[m] {
      if m < |a| {
        assert (a + b)[m] == a[m];
      } else {
        assert (a + b)[m] == b[m - |a|];
      }
    }
  }

  lemma DrawingsAppend(notation: Notation, a: seq<Edge>, b: seq<Edge>)
    ensures Drawings(notation, a + b) == Drawings(notation, a) + Drawings(notation, b)
  {
    var l, r := Drawings(notation, a + b), Drawings(notation, a) + Drawings(notation, b);
    forall m | 0 <= m < |l| ensures l[m] == r[m] {
      if m < |a| {
        assert (a + b)[m] == a[m];
      } else {
        assert (a + b)[m] == b[m - |a|];
      }
    }
  }

  /** `_mermaid_flowchart` (notation Mermaid) and `_dot_flowchart` (notation Dot): a pass
      over the nodes for their declarations, then a pass over the nodes and their options
      for the edges. */
  method Flowchart(notation: Notation, nodes: seq<FlowNode>) returns (text: string)
    ensures text == Diagram(notation, nodes)
  {
    var declared := DeclareNodes(notation, nodes);
    var edges := DrawEdges(notation, nodes);
    var lines := Header(notation) + declared + edges + Footer(notation);
    text := Join("\n", lines) + "\n";
  }

  /** The first pass: one declaration per node with an id. */
  method DeclareNodes(notation: Notation, nodes: seq<FlowNode>) returns (lines: seq<string>)
    ensures lines == Declarations(notation, Named(nodes))
  {
    lines := [];
    var i := 0;
    while i < |nodes|
      invariant 0 <= i <= |nodes|
      invariant lines == Declarations(notation, Named(nodes[..i]))
    {
      assert nodes[..i + 1][..i] == nodes[..i];
      var added := if nodes[i].id != "" then [nodes[i]] else [];
      assert Named(nodes[..i + 1]) == Named(nodes[..i]) + added;
      DeclarationsAppend(notation, Named(nodes[..i]), added);
      if nodes[i].id != "" {
        lines := lines + [NodeLine(notation, nodes[i])];
      }
      i := i + 1;
    }
    assert nodes[..|nodes|] == nodes;
  }

  /** The second pass: the edges of each node in turn. */
  method DrawEdges(notation: Notation, nodes: seq<FlowNode>) returns (lines: seq<string>)
    ensures lines == Drawings(notation, Edges(nodes))
  {
    lines := [];
    var i := 0;
    while i < |nodes|
      invariant 0 <= i <= |nodes|
      invariant lines == Drawings(notation, Edges(nodes[..i]))
    {
      assert nodes[..i + 1][..i] == nodes[..i];
      var drawn := DrawOptions(notation, nodes[i].id, nodes[i].options);
      DrawingsAppend(notation, Edges(nodes[..i]), OptionEdges(nodes[i].id, nodes[i].options));
      lines := lines + drawn;
      i := i + 1;
    }
    assert nodes[..|nodes|] == nodes;
  }

  /** The inner loop of the second pass, over one node's options. */
  method DrawOptions(notation: Notation, src: string, options: seq<Choice>) returns (lines: seq<string>)
    ensures lines == Drawings(notation, OptionEdges(src, options))
  {
    lines := [];
    var j := 0;
    while j < |options|
      invariant 0 <= j <= |options|
      invariant lines == Drawings(notation, OptionEdges(src, options[..j]))
    {
      assert options[..j + 1][..j] == options[..j];
      var added := if src != "" && options[j].next != "" then [Edge(src, options[j])] else [];
      assert OptionEdges(src, options[..j + 1]) == OptionEdges(src, options[..j]) + added;
      DrawingsAppend(notation, OptionEdges(src, options[..j]), added);
      if src != "" && options[j].next != "" {
        lines := lines + [EdgeLine(notation, Edge(src, options[j]))];
      }
      j := j + 1;
    }
    assert options[..|options|] == options;
  }

  /** `write_flowchart_mermaid` / `write_flowchart_dot`: the text written for a pack. */
  method WriteFlowchart(notation: Notation, pack: Pack) returns (text: string)
    ensures text == Diagram(notation, FlowNodes(pack))
  {
    text := Flowchart(notation, FlowNodes(pack));
  }

  /** Declarations keep input order: the nodes declared for a concatenation of node lists
      are those of the first list followed by those of the second. */
  lemma {:induction false} NamedAppend(a: seq<FlowNode>, b: seq<FlowNode>)
    ensures Named(a + b) == Named(a) + Named(b)
  {
    if b == [] {
      assert a + b == a;
    } else {
      var ab := a + b;
      assert ab[|ab| - 1] == b[|b| - 1];
      assert ab[..|ab| - 1] == a + b[..|b| - 1];
      NamedAppend(a, b[..|b| - 1]);
    }
  }

  /** Edges are grouped by source node in input order. */
  lemma {:induction false} EdgesAppend(a: seq<FlowNode>, b: seq<FlowNode>)
    ensures Edges(a + b) == Edges(a) + Edges(b)
  {
    if b == [] {
      assert a + b == a;
    } else {
      var ab := a + b;
      assert ab[|ab| - 1] == b[|b| - 1];
      assert ab[..|ab| - 1] == a + b[..|b| - 1];
      EdgesAppend(a, b[..|b| - 1]);
    }
  }

  /** A node with an id is declared, after the nodes before it and before the nodes after it. */
  lemma NodeIsDeclared(nodes: seq<FlowNode>, k: nat)
    requires k < |nodes| && nodes[k].id != ""
    ensures Named(nodes) == Named(nodes[..k]) + [nodes[k]] + Named(nodes[k + 1..])
  {
    assert nodes == nodes[..k] + [nodes[k]] + nodes[k + 1..];
    NamedAppend(nodes[..k] + [nodes[k]], nodes[k + 1..]);
    NamedAppend(nodes[..k], [nodes[k]]);
    assert [nodes[k]][..0] == [];
  }

  /** Every declared node is one of the input nodes with an id. */
  lemma {:induction false} NamedHaveIds(nodes: seq<FlowNode>)
    ensures forall m :: 0 <= m < |Named(nodes)| ==> Named(nodes)[m].id != "" && Named(nodes)[m] in nodes
  {
    if nodes != [] {
      var init := nodes[..|nodes| - 1];
      NamedHaveIds(init);
      assert forall n :: n in init ==> n in nodes;
    }
  }

  /** A node without an id contributes neither a declaration nor an edge: the diagram is
      the one of the list without it. */
  lemma UnnamedNodeIsSkipped(before: seq<FlowNode>, node: FlowNode, after: seq<FlowNode>)
    requires node.id == ""
    ensures Named(before + [node] + after) == Named(before + after)
    ensures Edges(before + [node] + after) == Edges(before + after)
  {
    NamedAppend(before + [node], after);
    NamedAppend(before, [node]);
    NamedAppend(before, after);
    assert [node][..0] == [];
    NoSourceNoEdges(node.options);
    EdgesAppend(before + [node], after);
    EdgesAppend(before, [node]);
    EdgesAppend(before, after);
  }

  lemma {:induction false} NoSourceNoEdges(options: seq<Choice>)
    ensures OptionEdges("", options) == []
  {
    if options != [] {
      NoSourceNoEdges(options[..|options| - 1]);
    }
  }

  /** Every option with a `next`, of a node with an id, is drawn as an edge. */
  lemma {:induction false} OptionIsDrawn(src: string, options: seq<Choice>, j: nat)
    requires j < |options| && src != "" && options[j].next != ""
    ensures Edge(src, options[j]) in OptionEdges(src, options)
  {
    if j < |options| - 1 {
      OptionIsDrawn(src, options[..|options| - 1], j);
    }
  }

  /** An edge from node k along its option j is drawn, with no check that its target is
      the id of any node. */
  lemma EdgeIsDrawn(nodes: seq<FlowNode>, k: nat, j: nat)
    requires k < |nodes| && nodes[k].id != ""
    requires j < |nodes[k].options| && nodes[k].options[j].next != ""
    ensures Edge(nodes[k].id, nodes[k].options[j]) in Edges(nodes)
  {
    assert nodes == nodes[..k] + [nodes[k]] + nodes[k + 1..];
    EdgesAppend(nodes[..k] + [nodes[k]], nodes[k + 1..]);
    EdgesAppend(nodes[..k], [nodes[k]]);
    assert [nodes[k]][..0] == [];
    OptionIsDrawn(nodes[k].id, nodes[k].options, j);
  }

  /** Conversely, every drawn edge starts at a node id and follows one of that node's
      options with a `next`. */
  lemma {:induction false} EdgesAreOptions(nodes: seq<FlowNode>)
    ensures forall m :: 0 <= m < |Edges(nodes)| ==>
      Edges(nodes)[m].src != "" && Edges(nodes)[m].choice.next != ""
      && exists k :: 0 <= k < |nodes| && nodes[k].id == Edges(nodes)[m].src && Edges(nodes)[m].choice in nodes[k].options
  {
    if nodes != [] {
      var init := nodes[..|nodes| - 1];
      var last := nodes[|nodes| - 1];
      EdgesAreOptions(init);
      OptionEdgesAreOptions(last.id, last.options);
      var es := Edges(nodes);
      forall m | 0 <= m < |es|
        ensures es[m].src != "" && es[m].choice.next != ""
        ensures exists k :: 0 <= k < |nodes| && nodes[k].id == es[m].src && es[m].choice in nodes[k].options
      {
        if m < |Edges(init)| {
          assert es[m] == Edges(init)[m];
          var k :| 0 <= k < |init| && init[k].id == es[m].src && es[m].choice in init[k].options;
          assert nodes[k] == init[k];
        } else {
          assert es[m] == OptionEdges(last.id, last.options)[m - |Edges(init)|];
          assert nodes[|nodes| - 1] == last;
        }
      }
    }
  }

  lemma {:induction false} OptionEdgesAreOptions(src: string, options: seq<Choice>)
    ensures forall m :: 0 <= m < |OptionEdges(src, options)| ==>
      OptionEdges(src, options)[m].src == src != "" && OptionEdges(src, options)[m].choice.next != ""
      && OptionEdges(src, options)[m].choice in options
  {
    if options != [] {
      var init := options[..|options| - 1];
      var last := options[|options| - 1];
      OptionEdgesAreOptions(src, init);
      var es := OptionEdges(src, options);
      var tail: seq<Edge> := if src != "" && last.next != "" then [Edge(src, last)] else [];
      assert es == OptionEdges(src, init) + tail;
      forall m | 0 <= m < |es|
        ensures es[m].src == src != "" && es[m].choice.next != "" && es[m].choice in options
      {
        if m < |OptionEdges(src, init)| {
          assert es[m] == OptionEdges(src, init)[m];
          assert es[m].choice in init;
          var j :| 0 <= j < |init| && init[j] == es[m].choice;
          assert options[j] == init[j];
        } else {
          assert es[m] == tail[m - |OptionEdges(src, init)|] == Edge(src, last);
        }
      }
    }
  }

  /** Ids and targets without newlines: then every line is free of newlines, since
      labels always are. */
  predicate NewlineFree(nodes: seq<FlowNode>) {
    forall k :: 0 <= k < |nodes| ==>
      '\n' !in nodes[k].id && forall j :: 0 <= j < |nodes[k].options| ==> '\n' !in nodes[k].options[j].next
  }

  lemma NodeLineNewlineFree(notation: Notation, node: FlowNode)
    requires '\n' !in node.id
    ensures '\n' !in NodeLine(notation, node)
  {
  }

  lemma EdgeLineNewlineFree(notation: Notation, e: Edge)
    requires '\n' !in e.src && '\n' !in e.choice.next
    ensures '\n' !in EdgeLine(notation, e)
  {
  }

  /** Each line of the diagram is free of newlines when ids and targets are. */
  lemma LinesNewlineFree(notation: Notation, nodes: seq<FlowNode>)
    requires NewlineFree(nodes)
    ensures forall m :: 0 <= m < |DiagramLines(notation, nodes)| ==> '\n' !in DiagramLines(notation, nodes)[m]
  {
    DeclarationsNewlineFree(notation, nodes);
    DrawingsNewlineFree(notation, nodes);
    FixedLinesNewlineFree(notation);
    NoNewlinesJoin(Header(notation), Declarations(notation, Named(nodes)), Drawings(notation, Edges(nodes)), Footer(notation));
  }

  lemma FixedLinesNewlineFree(notation: Notation)
    ensures NoNewlines(Header(notation)) && NoNewlines(Footer(notation))
  {
  }

  /** No line holds a newline. */
  predicate NoNewlines(lines: seq<string>) {
    forall m :: 0 <= m < |lines| ==> '\n' !in lines[m]
  }

  lemma NoNewlinesJoin(a: seq<string>, b: seq<string>, c: seq<string>, d: seq<string>)
    requires NoNewlines(a) && NoNewlines(b) && NoNewlines(c) && NoNewlines(d)
    ensures NoNewlines(a + b + c + d)
  {
    var lines := a + b + c + d;
    forall m | 0 <= m < |lines| ensures '\n' !in lines[m] {
      if m < |a| {
        assert lines[m] == a[m];
      } else if m < |a| + |b| {
        assert lines[m] == b[m - |a|];
      } else if m < |a| + |b| + |c| {
        assert lines[m] == c[m - |a| - |b|];
      } else {
        assert lines[m] == d[m - |a| - |b| - |c|];
      }
    }
  }

  lemma DeclarationsNewlineFree(notation: Notation, nodes: seq<FlowNode>)
    requires NewlineFree(nodes)
    ensures NoNewlines(Declarations(notation, Named(nodes)))
  {
    NamedHaveIds(nodes);
    forall m | 0 <= m < |Named(nodes)| ensures '\n' !in Declarations(notation, Named(nodes))[m] {
      var node := Named(nodes)[m];
      var k :| 0 <= k < |nodes| && nodes[k] == node;
      NodeLineNewlineFree(notation, node);
    }
  }

  lemma DrawingsNewlineFree(notation: Notation, nodes: seq<FlowNode>)
    requires NewlineFree(nodes)
    ensures NoNewlines(Drawings(notation, Edges(nodes)))
  {
    EdgesAreOptions(nodes);
    forall m | 0 <= m < |Edges(nodes)| ensures '\n' !in Drawings(notation, Edges(nodes))[m] {
      var edge := Edges(nodes)[m];
      var k :| 0 <= k < |nodes| && nodes[k].id == edge.src && edge.choice in nodes[k].options;
      var j :| 0 <= j < |nodes[k].options| && nodes[k].options[j] == edge.choice;
      EdgeLineNewlineFree(notation, edge);
    }
  }

  /** The written text has one newline per line: the header lines (1 for Mermaid, 4 for
      DOT), one per node with an id, one per drawn edge, and DOT's closing brace. */
  lemma LineCount(notation: Notation, nodes: seq<FlowNode>)
    requires NewlineFree(nodes)
    ensures Count(Diagram(notation, nodes), '\n')
      == (if notation == Dot then 5 else 1) + |Named(nodes)| + |Edges(nodes)|
  {
    var lines := DiagramLines(notation, nodes);
    LinesNewlineFree(notation, nodes);
    assert |lines| == |Header(notation)| + |Named(nodes)| + |Edges(nodes)| + |Footer(notation)|;
    CountJoinLines(lines, '\n');
  }

  /** A pack without a decision flow gets the header-only diagrams. */
  lemma MissingFlowIsHeaderOnly(notation: Notation, pack: Pack)
    requires pack.decisionFlow.None?
    ensures DiagramLines(notation, FlowNodes(pack)) == Header(notation) + Footer(notation)
  {
    assert Declarations(notation, []) == [] && Drawings(notation, []) == [];
  }

  /** A label without newlines or double quotes is written as it is. */
  lemma PlainMermaidLabel(s: string)
    requires '\n' !in s && '"' !in s
    ensures MermaidLabel(s) == s
  {
  }

  /** Two nodes and one edge between them, in Mermaid (for instance N1 "Start" going to
      N2 "End" along "go"): both declarations come before the edge. */
  lemma TwoNodeExample(a: string, b: string, textA: string, textB: string, go: string)
    requires a != "" && b != ""
    requires '\n' !in textA && '"' !in textA && '\n' !in textB && '"' !in textB && '\n' !in go && '"' !in go
    ensures DiagramLines(Mermaid, [FlowNode(a, textA, [Choice(go, b)]), FlowNode(b, textB, [])])
      == ["graph TD", "  " + a + "[\"" + textA + "\"]", "  " + b + "[\"" + textB + "\"]", "  " + a + " -->|\"" + go + "\"| " + b]
  {
    var n1 := FlowNode(a, textA, [Choice(go, b)]);
    var n2 := FlowNode(b, textB, []);
    var nodes := [n1, n2];
    PlainMermaidLabel(textA);
    PlainMermaidLabel(textB);
    PlainMermaidLabel(go);
    assert nodes[..1] == [n1] && [n1][..0] == [];
    assert Named([n1]) == [n1];
    assert Named(nodes) == Named([n1]) + [n2];
    assert n1.options[..0] == [];
    var e := Edge(a, Choice(go, b));
    assert OptionEdges(a, n1.options) == [e];
    assert OptionEdges(b, []) == [];
    assert Edges([n1]) == [e];
    assert Edges(nodes) == Edges([n1]) + OptionEdges(b, []);
    assert Declarations(Mermaid, nodes) == [NodeLine(Mermaid, n1), NodeLine(Mermaid, n2)];
    assert Drawings(Mermaid, [e]) == [EdgeLine(Mermaid, e)];
  }
}
