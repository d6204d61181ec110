/** The visible text of an HTML document: a walk over the parsed tree, then line by line
    normalisation of white space. */
module Html {

  // ---------- the tree ----------

  datatype Kind = ElementNode | TextNode | OtherNode

  datatype Node = Node(kind: Kind, data: string, children: seq<Node>)

  predicate HiddenName(name: string) {
    name in {"head", "script", "style", "template"}
  }

  predicate BlockName(name: string) {
    name in {
      "address", "article", "aside", "blockquote", "br", "div", "footer", "h1", "h2", "h3", "h4", "h5", "h6",
      "header", "hr", "li", "main", "nav", "ol", "p", "pre", "section", "table", "td", "th", "tr", "ul"}
  }

  /** `lower` is the lower-casing of names; nothing below depends on what it does. */
  predicate IsHidden(lower: string -> string, node: Node) {
    node.kind.ElementNode? && HiddenName(lower(node.data))
  }

  predicate IsBlock(lower: string -> string, node: Node) {
    node.kind.ElementNode? && BlockName(lower(node.data))
  }

  // ---------- the walk ----------

  function WalkText(lower: string -> string, node: Node, insideHidden: bool): string
    decreases node
  {
    var hidden := insideHidden || IsHidden(lower, node);
    var edge := if !hidden && IsBlock(lower, node) then "\n" else "";
    var own := if !hidden && node.kind.TextNode? then node.data else "";
    edge + own + WalkAll(lower, node.children, hidden) + edge
  }

  function WalkAll(lower: string -> string, nodes: seq<Node>, hidden: bool): string
    decreases nodes
  {
    if nodes == [] then "" else WalkText(lower, nodes[0], hidden) + WalkAll(lower, nodes[1..], hidden)
  }

  class Builder {
    var text: string

    constructor ()
      ensures text == ""
    {
      text := "";
    }

    method WriteString(s: string)
      modifies this
      ensures text == old(text) + s
    {
      text := text + s;
    }
  }

  lemma {:induction false} WalkAllGrows(lower: string -> string, nodes: seq<Node>, hidden: bool, i: nat)
    requires i < |nodes|
    ensures WalkAll(lower, nodes[..i + 1], hidden) == WalkAll(lower, nodes[..i], hidden) + WalkText(lower, nodes[i], hidden)
    decreases i
  {
    hide WalkText;
    var more, fewer := nodes[..i + 1], nodes[..i];
    if i == 0 {
      assert more[1..] == [] && fewer == [];
    } else {
      assert more[1..] == nodes[1..][..i] && fewer[1..] == nodes[1..][..i - 1];
      WalkAllGrows(lower, nodes[1..], hidden, i - 1);
    }
  }

  lemma {:induction false} Regroup(start: string, edge: string, own: string, inner: string)
    ensures start + edge + own + inner + edge == start + (edge + own + inner + edge)
  {}

  method Walk(lower: string -> string, node: Node, insideHidden: bool, output: Builder)
    modifies output
    ensures output.text == old(output.text) + WalkText(lower, node, insideHidden)
    decreases node, 1
  {
    hide HiddenName, BlockName;
    var name := lower(node.data);
    var hidden := insideHidden || (node.kind.ElementNode? && HiddenName(name));
    ghost var edge := if !hidden && IsBlock(lower, node) then "\n" else "";
    ghost var own := if !hidden && node.kind.TextNode? then node.data else "";
    ghost var start := output.text;
    if !hidden && node.kind.ElementNode? && BlockName(name) {
      output.WriteString("\n");
    }
    assert output.text == start + edge;
    if !hidden && node.kind.TextNode? {
      output.WriteString(node.data);
    }
    assert output.text == start + edge + own;
    WalkChildren(lower, node, hidden, output);
    if !hidden && node.kind.ElementNode? && BlockName(name) {
      output.WriteString("\n");
    }
    Regroup(start, edge, own, WalkAll(lower, node.children, hidden));
  }

  /** The loop over the children in Walk. */
  method WalkChildren(lower: string -> string, node: Node, hidden: bool, output: Builder)
    modifies output
    ensures output.text == old(output.text) + WalkAll(lower, node.children, hidden)
    decreases node, 0
  {
    var i := 0;
    while i < |node.children|
      invariant 0 <= i <= |node.children|
      invariant output.text == old(output.text) + WalkAll(lower, node.children[..i], hidden)
    {
      WalkAllGrows(lower, node.children, hidden, i);
      Walk(lower, node.children[i], hidden, output);
      i := i + 1;
    }
    assert node.children[..i] == node.children;
  }

  // ---------- white space ----------

  /** unicode.IsSpace */
  predicate IsSpace(c: char) {
    || '\t' <= c <= '\r' || c == ' ' || c == '\U{85}' || c == '\U{A0}' || c == '\U{1680}'
    || '\U{2000}' <= c <= '\U{200A}' || c == '\U{2028}' || c == '\U{2029}' || c == '\U{202F}'
    || c == '\U{205F}' || c == '\U{3000}'
  }

  /** The length of the longest prefix without white space. */
  function WordLength(s: string): (n: nat)
    ensures n <= |s|
    ensures forall i | 0 <= i < n :: !IsSpace(s[i])
    ensures n < |s| ==> IsSpace(s[n])
  {
    if s == "" || IsSpace(s[0]) then 0 else 1 + WordLength(s[1..])
  }

  /** strings.Fields */
  function Fields(s: string): seq<string>
    decreases |s|
  {
    if s == "" then []
    else if IsSpace(s[0]) then Fields(s[1..])
    else [s[..WordLength(s)]] + Fields(s[WordLength(s)..])
  }

  function LineLength(s: string): (n: nat)
    ensures n <= |s|
    ensures '\n' !in s[..n]
    ensures n < |s| ==> s[n] == '\n'
  {
    if s == "" || s[0] == '\n' then 0
    else
      var n := 1 + LineLength(s[1..]);
      assert s[..n] == [s[0]] + s[1..][..n - 1];
      n
  }

  /** strings.Split(s, "\n") */
  function Split(s: string): (lines: seq<string>)
    ensures lines != []
    decreases |s|
  {
    var n := LineLength(s);
    if n == |s| then [s] else [s[..n]] + Split(s[n + 1..])
  }

  /** strings.Join */
  function Join(parts: seq<string>, separator: string): string {
    if parts == [] then "" else if |parts| == 1 then parts[0] else parts[0] + separator + Join(parts[1..], separator)
  }

  function NormalLine(line: string): string {
    Join(Fields(line), " ")
  }

  function NormalLines(lines: seq<string>): seq<string> {
    if lines == [] then []
    else (if NormalLine(lines[0]) == "" then [] else [NormalLine(lines[0])]) + NormalLines(lines[1..])
  }

  function Normalize(text: string): string {
    Join(NormalLines(Split(text)), "\n")
  }

  lemma {:induction false} NormalLinesGrow(lines: seq<string>, i: nat)
    requires i < |lines|
    ensures NormalLines(lines[..i + 1])
         == NormalLines(lines[..i]) + (if NormalLine(lines[i]) == "" then [] else [NormalLine(lines[i])])
    decreases i
  {
    hide NormalLine;
    var more, fewer := lines[..i + 1], lines[..i];
    if i == 0 {
      assert more[1..] == [] && fewer == [];
    } else {
      assert more[1..] == lines[1..][..i] && fewer[1..] == lines[1..][..i - 1];
      NormalLinesGrow(lines[1..], i - 1);
    }
  }

  /** visibleHTMLText on the parsed document. */
  method VisibleText(lower: string -> string, root: Node) returns (text: string)
    ensures text == Normalize(WalkText(lower, root, false))
  {
    hide WalkText, NormalLine, Split;
    var output := new Builder();
    Walk(lower, root, false, output);
    assert output.text == WalkText(lower, root, false);
    var lines: seq<string> := [];
    var all := Split(output.text);
    var i := 0;
    while i < |all|
      invariant 0 <= i <= |all|
      invariant lines == NormalLines(all[..i])
    {
      NormalLinesGrow(all, i);
      var normalized := NormalLine(all[i]);
      if normalized != "" {
        lines := lines + [normalized];
      }
      i := i + 1;
    }
    assert all[..i] == all;
    text := Join(lines, "\n");
  }

  // ---------- conservation ----------

  /** The characters of `s` that are not white space. */
  function Ink(s: string): string {
    if s == "" then "" else InkOf(s[0]) + Ink(s[1..])
  }

  function InkOf(c: char): string {
    if IsSpace(c) then "" else [c]
  }

  lemma {:induction false} InkOfSum(s: string, t: string)
    ensures Ink(s + t) == Ink(s) + Ink(t)
    decreases |s|
  {
    hide InkOf;
    if s == "" {
      assert s + t == t;
    } else {
      var first, rest := s[0], s[1..];
      InkOfSum(rest, t);
      assert (s + t)[0] == first && (s + t)[1..] == rest + t;
    }
  }

  lemma {:induction false} NoInk(s: string)
    requires forall c | c in s :: IsSpace(c)
    ensures Ink(s) == ""
  {
    if s != "" {
      NoInk(s[1..]);
    }
  }

  /** A node of the document with the nodes above it. */
  datatype Visit = Visit(node: Node, ancestors: seq<Node>)

  /** The nodes of the document in order. */
  function Preorder(node: Node, ancestors: seq<Node>): seq<Visit>
    decreases node
  {
    [Visit(node, ancestors)] + PreorderAll(node.children, ancestors + [node])
  }

  function PreorderAll(nodes: seq<Node>, ancestors: seq<Node>): seq<Visit>
    decreases nodes
  {
    if nodes == [] then [] else Preorder(nodes[0], ancestors) + PreorderAll(nodes[1..], ancestors)
  }

  predicate UnderHidden(lower: string -> string, ancestors: seq<Node>) {
    exists a :: a in ancestors && IsHidden(lower, a)
  }

  function InkOfVisit(lower: string -> string, v: Visit): string {
    if v.node.kind.TextNode? && !UnderHidden(lower, v.ancestors) then Ink(v.node.data) else ""
  }

  /** The ink of the text nodes that no hidden element contains, in document order. */
  function VisibleInk(lower: string -> string, visits: seq<Visit>): string {
    if visits == [] then "" else InkOfVisit(lower, visits[0]) + VisibleInk(lower, visits[1..])
  }

  lemma {:induction false} VisibleInkOfSum(lower: string -> string, vs: seq<Visit>, us: seq<Visit>)
    ensures VisibleInk(lower, vs + us) == VisibleInk(lower, vs) + VisibleInk(lower, us)
    decreases |vs|
  {
    hide InkOfVisit;
    if vs == [] {
      assert vs + us == us;
    } else {
      VisibleInkOfSum(lower, vs[1..], us);
      assert (vs + us)[0] == vs[0] && (vs + us)[1..] == vs[1..] + us;
    }
  }

  lemma {:induction false} UnderOneMore(lower: string -> string, ancestors: seq<Node>, node: Node)
    ensures UnderHidden(lower, ancestors + [node]) <==> UnderHidden(lower, ancestors) || IsHidden(lower, node)
  {
    hide IsHidden;
    assert node in ancestors + [node];
  }

  lemma {:induction false} WalkConserves(lower: string -> string, node: Node, ancestors: seq<Node>)
    ensures Ink(WalkText(lower, node, UnderHidden(lower, ancestors))) == VisibleInk(lower, Preorder(node, ancestors))
    decreases node
  {
    hide HiddenName, BlockName, Ink;
    var inside := UnderHidden(lower, ancestors);
    var hidden := inside || IsHidden(lower, node);
    UnderOneMore(lower, ancestors, node);
    hide UnderHidden;
    var edge := if !hidden && IsBlock(lower, node) then "\n" else "";
    var own := if !hidden && node.kind.TextNode? then node.data else "";
    var inner := WalkAll(lower, node.children, hidden);
    WalkAllConserves(lower, node.children, ancestors + [node]);
    NoInk(edge);
    NoInk("");
    InkOfSum(edge + own + inner, edge);
    InkOfSum(edge + own, inner);
    InkOfSum(edge, own);
    var here := [Visit(node, ancestors)];
    assert Preorder(node, ancestors)[1..] == PreorderAll(node.children, ancestors + [node]);
  }

  lemma {:induction false} WalkAllConserves(lower: string -> string, nodes: seq<Node>, ancestors: seq<Node>)
    ensures Ink(WalkAll(lower, nodes, UnderHidden(lower, ancestors))) == VisibleInk(lower, PreorderAll(nodes, ancestors))
    decreases nodes
  {
    hide UnderHidden, WalkText, Preorder;
    if nodes == [] {
      NoInk("");
    } else {
      WalkConserves(lower, nodes[0], ancestors);
      WalkAllConserves(lower, nodes[1..], ancestors);
      var hidden := UnderHidden(lower, ancestors);
      InkOfSum(WalkText(lower, nodes[0], hidden), WalkAll(lower, nodes[1..], hidden));
      VisibleInkOfSum(lower, Preorder(nodes[0], ancestors), PreorderAll(nodes[1..], ancestors));
    }
  }

  // ---------- hidden subtrees ----------

  /** The tree without what is inside hidden elements. */
  function Prune(lower: string -> string, node: Node): Node
    decreases node
  {
    node.(children := if IsHidden(lower, node) then [] else PruneAll(lower, node.children))
  }

  function PruneAll(lower: string -> string, nodes: seq<Node>): seq<Node>
    decreases nodes
  {
    if nodes == [] then [] else [Prune(lower, nodes[0])] + PruneAll(lower, nodes[1..])
  }

  lemma {:induction false} NothingInsideHidden(lower: string -> string, nodes: seq<Node>)
    ensures WalkAll(lower, nodes, true) == ""
    decreases nodes
  {
    if nodes != [] {
      NothingInsideHidden(lower, nodes[0].children);
      NothingInsideHidden(lower, nodes[1..]);
    }
  }

  lemma {:induction false} PruningChangesNothing(lower: string -> string, node: Node, insideHidden: bool)
    ensures WalkText(lower, Prune(lower, node), insideHidden) == WalkText(lower, node, insideHidden)
    decreases node
  {
    hide HiddenName, BlockName;
    if IsHidden(lower, node) {
      NothingInsideHidden(lower, node.children);
      NothingInsideHidden(lower, []);
    } else {
      PruningAllChangesNothing(lower, node.children, insideHidden);
    }
  }

  lemma {:induction false} PruningAllChangesNothing(lower: string -> string, nodes: seq<Node>, hidden: bool)
    ensures WalkAll(lower, PruneAll(lower, nodes), hidden) == WalkAll(lower, nodes, hidden)
    decreases nodes
  {
    hide WalkText, Prune;
    if nodes != [] {
      PruningChangesNothing(lower, nodes[0], hidden);
      PruningAllChangesNothing(lower, nodes[1..], hidden);
      assert PruneAll(lower, nodes)[1..] == PruneAll(lower, nodes[1..]);
    }
  }

  // ---------- the normal form ----------

  predicate IsWord(s: string) {
    s != "" && forall c | c in s :: !IsSpace(c)
  }

  predicate AreWords(words: seq<string>) {
    forall w | w in words :: IsWord(w)
  }

  lemma {:induction false} FieldsAreWords(s: string)
    ensures AreWords(Fields(s))
    decreases |s|
  {
    if s != "" {
      FieldsAreWords(s[if IsSpace(s[0]) then 1 else WordLength(s)..]);
    }
  }

  lemma {:induction false} WordEnds(w: string, rest: string)
    requires IsWord(w) && (rest == "" || IsSpace(rest[0]))
    ensures WordLength(w + rest) == |w|
    decreases |w|
  {
    var s := w + rest;
    if |w| == 1 {
      assert s[1..] == rest;
    } else {
      assert s[1..] == w[1..] + rest;
      assert IsWord(w[1..]);
      WordEnds(w[1..], rest);
    }
  }

  /** Splitting joined words gives the words back. */
  lemma {:induction false} FieldsOfJoin(words: seq<string>)
    requires AreWords(words)
    ensures Fields(Join(words, " ")) == words
    decreases |words|
  {
    if words != [] {
      var w, rest := words[0], words[1..];
      FieldsOfJoin(rest);
      var tail := if rest == [] then "" else " " + Join(rest, " ");
      assert Join(words, " ") == w + tail;
      WordEnds(w, tail);
      assert (w + tail)[..|w|] == w && (w + tail)[|w|..] == tail;
      assert Fields(tail) == rest by {
        if rest != [] {
          assert tail[1..] == Join(rest, " ");
        }
      }
      assert words == [w] + rest;
    }
  }

  predicate IsLine(s: string) {
    '\n' !in s
  }

  lemma {:induction false} LineEnds(line: string, rest: string)
    requires IsLine(line) && (rest == "" || rest[0] == '\n')
    ensures LineLength(line + rest) == |line|
    decreases |line|
  {
    var s := line + rest;
    if line == "" {
      assert s == rest;
    } else {
      assert s[1..] == line[1..] + rest;
      LineEnds(line[1..], rest);
    }
  }

  /** Splitting joined lines gives the lines back. */
  lemma {:induction false} SplitOfJoin(lines: seq<string>)
    requires lines != [] && forall l | l in lines :: IsLine(l)
    ensures Split(Join(lines, "\n")) == lines
    decreases |lines|
  {
    var l, rest := lines[0], lines[1..];
    var tail := if rest == [] then "" else "\n" + Join(rest, "\n");
    assert Join(lines, "\n") == l + tail;
    LineEnds(l, tail);
    assert (l + tail)[..|l|] == l;
    if rest != [] {
      SplitOfJoin(rest);
      assert (l + tail)[|l| + 1..] == Join(rest, "\n");
    }
    assert lines == [l] + rest;
  }

  /** Joining split lines gives the text back. */
  lemma {:induction false} JoinOfSplit(s: string)
    ensures Join(Split(s), "\n") == s
    decreases |s|
  {
    var n := LineLength(s);
    if n < |s| {
      JoinOfSplit(s[n + 1..]);
      assert Split(s) == [s[..n]] + Split(s[n + 1..]);
      assert s == s[..n] + "\n" + s[n + 1..];
    }
  }

  lemma {:induction false} JoinedWordsAreALine(words: seq<string>)
    requires AreWords(words)
    ensures IsLine(Join(words, " "))
    ensures Join(words, " ") == "" <==> words == []
    decreases |words|
  {
    if words != [] {
      assert IsWord(words[0]) && IsLine(words[0]);
      JoinedWordsAreALine(words[1..]);
    }
  }

  /** A line that normalisation leaves alone, and does not drop. */
  predicate IsNormalLine(l: string) {
    l != "" && IsLine(l) && NormalLine(l) == l
  }

  lemma {:induction false} LineBecomesNormal(line: string)
    ensures NormalLine(line) == "" || IsNormalLine(NormalLine(line))
  {
    FieldsAreWords(line);
    JoinedWordsAreALine(Fields(line));
    FieldsOfJoin(Fields(line));
  }

  lemma {:induction false} LinesBecomeNormal(lines: seq<string>)
    ensures forall l | l in NormalLines(lines) :: IsNormalLine(l)
  {
    hide NormalLine;
    if lines != [] {
      LineBecomesNormal(lines[0]);
      LinesBecomeNormal(lines[1..]);
    }
  }

  lemma {:induction false} NormalLinesStay(lines: seq<string>)
    requires forall l | l in lines :: IsNormalLine(l)
    ensures NormalLines(lines) == lines
  {
    hide NormalLine;
    if lines != [] {
      assert IsNormalLine(lines[0]);
      NormalLinesStay(lines[1..]);
      assert lines == [lines[0]] + lines[1..];
    }
  }

  /** Normalising twice is normalising once. */
  lemma {:induction false} NormalizeIsIdempotent(text: string)
    ensures Normalize(Normalize(text)) == Normalize(text)
  {
    var lines := NormalLines(Split(text));
    LinesBecomeNormal(Split(text));
    if lines == [] {
      assert Split("") == [""] && NormalLine("") == "" && NormalLines([""]) == NormalLines([]);
    } else {
      hide Split, NormalLine;
      SplitOfJoin(lines);
      NormalLinesStay(lines);
    }
  }

  // ---------- lines and words ----------

  /** The words of each line; lines without words do not count. */
  function WordsOf(lines: seq<string>): seq<seq<string>> {
    if lines == [] then [] else (if Fields(lines[0]) == [] then [] else [Fields(lines[0])]) + WordsOf(lines[1..])
  }

  function WordLines(text: string): seq<seq<string>> {
    WordsOf(Split(text))
  }

  lemma {:induction false} WordsOfSum(lines: seq<string>, more: seq<string>)
    ensures WordsOf(lines + more) == WordsOf(lines) + WordsOf(more)
    decreases |lines|
  {
    hide Fields;
    if lines == [] {
      assert lines + more == more;
    } else {
      var words := if Fields(lines[0]) == [] then [] else [Fields(lines[0])];
      assert words + WordsOf(lines[1..]) + WordsOf(more) == words + (WordsOf(lines[1..]) + WordsOf(more));
      WordsOfSum(lines[1..], more);
      assert (lines + more)[0] == lines[0] && (lines + more)[1..] == lines[1..] + more;
    }
  }

  lemma {:induction false} SplitOfLine(line: string, rest: string)
    requires IsLine(line)
    ensures Split(line) == [line] && Split(line + "\n" + rest) == [line] + Split(rest)
  {
    var all, tail := line + "\n" + rest, "\n" + rest;
    LineEnds(line, "");
    assert line + "" == line;
    assert all == line + tail;
    LineEnds(line, tail);
    assert all[..|line|] == line && all[|line| + 1..] == rest;
  }

  lemma {:induction false} Rejoin(line: string, after: string, t: string)
    ensures line + "\n" + after + "\n" + t == line + "\n" + (after + "\n" + t)
  {}

  lemma {:induction false} FirstLine(s: string) returns (line: string, after: string)
    ensures |after| < |s| || s == line
    ensures IsLine(line) && (s == line || s == line + "\n" + after)
  {
    var n := LineLength(s);
    line, after := s[..n], "";
    if n < |s| {
      after := s[n + 1..];
      assert s == line + [s[n]] + after;
    } else {
      assert s == line;
    }
  }

  lemma {:induction false} SplitOfSum(s: string, t: string)
    ensures Split(s + "\n" + t) == Split(s) + Split(t)
    decreases |s|
  {
    hide Split, IsLine;
    var line, after := FirstLine(s);
    if s == line {
      SplitOfLine(s, t);
    } else {
      SplitOfLine(line, after);
      SplitOfSum(after, t);
      Rejoin(line, after, t);
      SplitOfLine(line, after + "\n" + t);
      assert [line] + Split(after) + Split(t) == [line] + (Split(after) + Split(t));
    }
  }

  /** A line break separates the lines. */
  lemma {:induction false} BreakSeparates(s: string, t: string)
    ensures WordLines(s + "\n" + t) == WordLines(s) + WordLines(t)
  {
    hide Split, WordsOf;
    SplitOfSum(s, t);
    WordsOfSum(Split(s), Split(t));
  }

  lemma {:induction false} WalkAllOfSum(lower: string -> string, nodes: seq<Node>, more: seq<Node>, hidden: bool)
    ensures WalkAll(lower, nodes + more, hidden) == WalkAll(lower, nodes, hidden) + WalkAll(lower, more, hidden)
    decreases |nodes|
  {
    hide WalkText;
    if nodes == [] {
      assert nodes + more == more;
    } else {
      WalkAllOfSum(lower, nodes[1..], more, hidden);
      assert (nodes + more)[0] == nodes[0] && (nodes + more)[1..] == nodes[1..] + more;
    }
  }

  /** What a visible block element contains stands on lines of its own: no word of it is on a
      line with what comes before or after the element. */
  lemma {:induction false} BlockStandsAlone(lower: string -> string, before: seq<Node>, node: Node, after: seq<Node>)
    requires IsBlock(lower, node) && !IsHidden(lower, node)
    ensures WordLines(WalkAll(lower, before + [node] + after, false))
      == WordLines(WalkAll(lower, before, false)) + WordLines(WalkAll(lower, node.children, false))
        + WordLines(WalkAll(lower, after, false))
  {
    hide WordLines, IsBlock, IsHidden, WalkText, WalkAll;
    var head, inner, tail :=
      WalkAll(lower, before, false), WalkAll(lower, node.children, false), WalkAll(lower, after, false);
    WalkAllOfSum(lower, before + [node], after, false);
    WalkAllOfSum(lower, before, [node], false);
    BlockText(lower, node);
    WalkOfOne(lower, node);
    assert head + ("\n" + inner + "\n") + tail == head + "\n" + (inner + "\n" + tail);
    BreakSeparates(head, inner + "\n" + tail);
    BreakSeparates(inner, tail);
  }

  lemma {:induction false} WalkOfOne(lower: string -> string, node: Node)
    ensures WalkAll(lower, [node], false) == WalkText(lower, node, false)
  {
    hide WalkText;
    assert [node][1..] == [];
  }

  lemma {:induction false} BlockText(lower: string -> string, node: Node)
    requires IsBlock(lower, node) && !IsHidden(lower, node)
    ensures WalkText(lower, node, false) == "\n" + WalkAll(lower, node.children, false) + "\n"
  {
    hide HiddenName, BlockName;
  }

  /** Text outside block elements runs on: nothing is put between adjacent texts. */
  lemma {:induction false} TextRunsOn(lower: string -> string, node: Node)
    requires !IsBlock(lower, node) && !IsHidden(lower, node)
    ensures WalkText(lower, node, false)
      == (if node.kind.TextNode? then node.data else "") + WalkAll(lower, node.children, false)
  {
    hide HiddenName, BlockName;
  }

  lemma {:induction false} NormalLinesKeepWords(lines: seq<string>)
    ensures WordsOf(NormalLines(lines)) == WordsOf(lines)
  {
    hide Fields;
    if lines != [] {
      var line, rest := NormalLine(lines[0]), NormalLines(lines[1..]);
      FieldsAreWords(lines[0]);
      FieldsOfJoin(Fields(lines[0]));
      JoinedWordsAreALine(Fields(lines[0]));
      NormalLinesKeepWords(lines[1..]);
      if line != "" {
        assert NormalLines(lines) == [line] + rest && ([line] + rest)[1..] == rest;
      } else {
        assert NormalLines(lines) == rest;
      }
    }
  }

  lemma {:induction false} NothingHasNoWords()
    ensures WordLines("") == []
  {
    assert Split("") == [""] && [""][1..] == [];
  }

  /** Normalisation keeps every word a word, and on its line. */
  lemma {:induction false} NormalizeKeepsWordLines(text: string)
    ensures WordLines(Normalize(text)) == WordLines(text)
  {
    hide Split, Fields, NormalLine;
    var lines := NormalLines(Split(text));
    NormalLinesKeepWords(Split(text));
    LinesBecomeNormal(Split(text));
    if lines == [] {
      NothingHasNoWords();
    } else {
      SplitOfJoin(lines);
    }
  }

  /** A text without white space is all ink. */
  lemma {:induction false} WordsAreInk(s: string)
    requires forall c | c in s :: !IsSpace(c)
    ensures Ink(s) == s
    decreases |s|
  {
    if s != "" {
      WordsAreInk(s[1..]);
      assert s == [s[0]] + s[1..];
    }
  }

  /** Words joined by blanks are the words of one line. */
  lemma {:induction false} JoinedWordsAreALineOf(words: seq<string>)
    requires words != [] && AreWords(words)
    ensures WordLines(Join(words, " ")) == [words]
  {
    hide Split, Fields;
    FieldsOfJoin(words);
    JoinedWordsAreALine(words);
    var line := Join(words, " ");
    SplitOfLine(line, "");
    assert WordLines(line) == WordsOf([line]);
    assert [line][1..] == [] && Fields(line) == words;
  }

  /** What separates words, and what does not. */
  lemma {:induction false} KnownSpaces(c: char)
    ensures c < '\U{85}' ==>
      (IsSpace(c) <==> c == ' ' || c == '\t' || c == '\n' || c == '\U{B}' || c == '\U{C}' || c == '\r')
    ensures IsSpace('\U{85}') && IsSpace('\U{A0}') && IsSpace('\U{2003}') && IsSpace('\U{2028}') && IsSpace('\U{3000}')
    ensures '\U{A1}' <= c <= '\U{167F}' || '\U{3001}' <= c <= '\U{D7FF}' ==> !IsSpace(c)
  {}

  /** Scripts, styles and the head show nothing. */
  lemma {:induction false} HiddenShowNothing(lower: string -> string, node: Node)
    requires node.kind.ElementNode? && lower(node.data) in ["head", "script", "style", "template"]
    ensures WalkText(lower, node, false) == ""
  {
    NothingInsideHidden(lower, node.children);
  }

  /** Paragraphs, line breaks, headings, list items, table cells and the like stand alone. */
  lemma {:induction false} BlocksByName(lower: string -> string, node: Node)
    requires node.kind.ElementNode?
    requires lower(node.data) in ["p", "br", "div", "li", "tr", "td", "th", "table", "pre", "ul", "ol", "hr", "h1", "h2",
      "h3", "h4", "h5", "h6", "blockquote", "section", "article", "aside", "header", "footer", "main", "nav", "address"]
    ensures IsBlock(lower, node) && !IsHidden(lower, node)
  {}

  /** Links and emphasis do not. */
  lemma {:induction false} InlineByName(lower: string -> string, node: Node)
    requires lower(node.data) in ["a", "b", "i", "em", "span", "strong", "code", "u", "sub", "sup", "label"]
    ensures !IsBlock(lower, node) && !IsHidden(lower, node)
  {}

  // ---------- the whole ----------

  lemma {:induction false} FieldsKeepInk(s: string)
    ensures Ink(Join(Fields(s), " ")) == Ink(s)
    decreases |s|
  {
    if s == "" {
    } else if IsSpace(s[0]) {
      FieldsKeepInk(s[1..]);
    } else {
      var n := WordLength(s);
      var word, rest := s[..n], s[n..];
      FieldsKeepInk(rest);
      assert s == word + rest && Fields(s) == [word] + Fields(rest);
      InkOfSum(word, rest);
      JoinKeepsInk(word, Fields(rest), " ");
    }
  }

  lemma {:induction false} JoinKeepsInk(first: string, rest: seq<string>, separator: string)
    requires separator == " " || separator == "\n"
    ensures Ink(Join([first] + rest, separator)) == Ink(first) + Ink(Join(rest, separator))
  {
    var parts := [first] + rest;
    assert parts[1..] == rest;
    NoInk(separator);
    NoInk("");
    if rest != [] {
      InkOfSum(first + separator, Join(rest, separator));
      InkOfSum(first, separator);
    }
  }

  lemma {:induction false} NormalLinesKeepInk(lines: seq<string>)
    ensures Ink(Join(NormalLines(lines), "\n")) == Ink(Join(lines, "\n"))
  {
    if lines != [] {
      var line, rest := NormalLine(lines[0]), NormalLines(lines[1..]);
      FieldsKeepInk(lines[0]);
      NormalLinesKeepInk(lines[1..]);
      assert lines == [lines[0]] + lines[1..];
      JoinKeepsInk(lines[0], lines[1..], "\n");
      if line == "" {
        assert NormalLines(lines) == rest;
        NoInk("");
      } else {
        JoinKeepsInk(line, rest, "\n");
      }
    }
  }

  /** For every document: what can be seen of the extracted text is exactly what the text
      nodes outside hidden elements show, in document order; cutting out what hidden
      elements contain does not change it; it is in normal form; and each word of the walk is
      a word of it, on its own line of the walk. */
  lemma {:induction false} VisibleTextIsConserved(lower: string -> string, root: Node)
    ensures var text := Normalize(WalkText(lower, root, false));
      && Ink(text) == VisibleInk(lower, Preorder(root, []))
      && text == Normalize(WalkText(lower, Prune(lower, root), false))
      && Normalize(text) == text
      && WordLines(text) == WordLines(WalkText(lower, root, false))
  {
    hide WalkText, Preorder, Split, NormalLines, Prune, WordLines, Normalize;
    var walked := WalkText(lower, root, false);
    WalkConserves(lower, root, []);
    assert !UnderHidden(lower, []);
    PruningChangesNothing(lower, root, false);
    NormalizeIsIdempotent(walked);
    NormalizeKeepsWordLines(walked);
    NormalizeKeepsInk(walked);
  }

  lemma {:induction false} NormalizeKeepsInk(text: string)
    ensures Ink(Normalize(text)) == Ink(text)
  {
    hide Split, NormalLines, Ink;
    JoinOfSplit(text);
    NormalLinesKeepInk(Split(text));
  }
}
