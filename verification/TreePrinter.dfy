/** The text tree of the slash commands, and a parser that undoes it
    (`commands/src/browser.rs`). */
module TreePrinter {
  import opened Wrappers

  datatype Node = Node(name: string, detail: Option<string>, badge: Option<string>, children: seq<Node>)

  // The text a node shows on its line.
  function TextOf(n: Node): string {
    (if n.badge.Some? then "[" + n.badge.value + "] " else "")
    + n.name
    + (if n.detail.Some? then " - " + n.detail.value else "")
  }

  // What the printed tree is meant to convey.
  datatype Shape = Shape(text: string, children: seq<Shape>)

  function ShapeOf(n: Node): Shape
    decreases n, 1
  {
    Shape(TextOf(n), ShapesOf(n.children))
  }

  function ShapesOf(ns: seq<Node>): seq<Shape>
    decreases ns, 0
  {
    if ns == [] then [] else [ShapeOf(ns[0])] + ShapesOf(ns[1..])
  }

  // ------------------------------------------------------------ printed lines

  function Connector(isLast: bool): string { if isLast then "`-- " else "+-- " }

  function Cell(isLast: bool): string { if isLast then "    " else "|   " }

  function ChildLines(n: Node, prefix: string, isLast: bool): seq<string>
    decreases n, 1
  {
    [prefix + (Connector(isLast) + TextOf(n))] + ChildrenLines(n.children, prefix + Cell(isLast))
  }

  function ChildrenLines(ns: seq<Node>, prefix: string): seq<string>
    decreases ns, 0
  {
    if ns == [] then [] else ChildLines(ns[0], prefix, |ns| == 1) + ChildrenLines(ns[1..], prefix)
  }

  function RootLines(roots: seq<Node>): seq<string> {
    if roots == [] then []
    else [TextOf(roots[0])] + ChildrenLines(roots[0].children, "  ") + RootLines(roots[1..])
  }

  function Joined(lines: seq<string>): string {
    if lines == [] then "" else lines[0] + "\n" + Joined(lines[1..])
  }

  const NO_ENTRIES := "  (no entries)\n"

  function Body(roots: seq<Node>): string {
    if roots == [] then NO_ENTRIES else Joined(RootLines(roots))
  }

  function Header(title: string): string {
    if title == "" then "" else title + "\n" + seq(if |title| < 60 then |title| else 60, _ => '-') + "\n"
  }

  lemma {:induction false} JoinedConcat(a: seq<string>, b: seq<string>)
    ensures Joined(a + b) == Joined(a) + Joined(b)
  {
    if a == [] {
      assert a + b == b;
    } else {
      assert (a + b)[1..] == a[1..] + b;
      JoinedConcat(a[1..], b);
    }
  }

  // ------------------------------------------------------------------- machine

  class Buffer {
    var text: string

    constructor ()
      ensures text == ""
    {
      text := "";
    }

    method Push(s: string)
      modifies this
      ensures text == old(text) + s
    {
      text := text + s;
    }
  }

  method PushLine(out: Buffer, node: Node)
    modifies out
    ensures out.text == old(out.text) + (TextOf(node) + "\n")
  {
    ghost var before := out.text;
    if node.badge.Some? {
      out.Push("[" + node.badge.value + "] ");
    }
    out.Push(node.name);
    if node.detail.Some? {
      out.Push(" - ");
      out.Push(node.detail.value);
    }
    assert out.text == before + TextOf(node);
    out.Push("\n");
  }

  method PushChildLine(out: Buffer, node: Node, prefix: string, isLast: bool)
    modifies out
    ensures out.text == old(out.text) + ((prefix + (Connector(isLast) + TextOf(node))) + "\n")
  {
    ghost var before := out.text;
    out.Push(prefix);
    out.Push(if isLast then "`-- " else "+-- ");
    assert out.text == before + (prefix + Connector(isLast));
    PushLine(out, node);
  }

  lemma JoinedFirst(before: string, line: string, rest: seq<string>)
    ensures before + (line + "\n") + Joined(rest) == before + Joined([line] + rest)
  {
    assert ([line] + rest)[1..] == rest;
  }

  method RenderChild(out: Buffer, node: Node, prefix: string, isLast: bool)
    modifies out
    ensures out.text == old(out.text) + Joined(ChildLines(node, prefix, isLast))
    decreases node, 1
  {
    ghost var before := out.text;
    PushChildLine(out, node, prefix, isLast);
    var deeper := prefix + (if isLast then "    " else "|   ");
    RenderChildren(out, node.children, deeper);
    JoinedFirst(before, prefix + (Connector(isLast) + TextOf(node)), ChildrenLines(node.children, deeper));
  }

  // The loop over a node's children, the same for roots and for other nodes.
  method RenderChildren(out: Buffer, children: seq<Node>, prefix: string)
    modifies out
    ensures out.text == old(out.text) + Joined(ChildrenLines(children, prefix))
    decreases children, 0
  {
    ghost var all := out.text + Joined(ChildrenLines(children, prefix));
    assert children[0..] == children;
    for i := 0 to |children|
      invariant out.text + Joined(ChildrenLines(children[i..], prefix)) == all
    {
      NextChild(out.text, children, i, prefix);
      RenderChild(out, children[i], prefix, i + 1 == |children|);
    }
  }

  lemma NextChild(before: string, ns: seq<Node>, i: nat, prefix: string)
    requires i < |ns|
    ensures before + Joined(ChildrenLines(ns[i..], prefix)) ==
      before + Joined(ChildLines(ns[i], prefix, i + 1 == |ns|)) + Joined(ChildrenLines(ns[i + 1..], prefix))
  {
    assert ns[i..][1..] == ns[i + 1..];
    JoinedConcat(ChildLines(ns[i], prefix, i + 1 == |ns|), ChildrenLines(ns[i + 1..], prefix));
  }

  method RenderRoot(out: Buffer, node: Node)
    modifies out
    ensures out.text == old(out.text) + Joined([TextOf(node)] + ChildrenLines(node.children, "  "))
  {
    ghost var before := out.text;
    PushLine(out, node);
    RenderChildren(out, node.children, "  ");
    JoinedFirst(before, TextOf(node), ChildrenLines(node.children, "  "));
  }

  lemma NextRoot(before: string, roots: seq<Node>, i: nat)
    requires i < |roots|
    ensures before + Joined(RootLines(roots[i..])) ==
      before + Joined([TextOf(roots[i])] + ChildrenLines(roots[i].children, "  ")) + Joined(RootLines(roots[i + 1..]))
  {
    assert roots[i..][1..] == roots[i + 1..];
    JoinedConcat([TextOf(roots[i])] + ChildrenLines(roots[i].children, "  "), RootLines(roots[i + 1..]));
  }

  method RenderTree(title: string, roots: seq<Node>) returns (text: string)
    ensures text == Header(title) + Body(roots)
  {
    var out := new Buffer();
    if title != "" {
      out.Push(title);
      out.Push("\n");
      out.Push(seq(if |title| < 60 then |title| else 60, _ => '-'));
      out.Push("\n");
    }
    assert out.text == Header(title);
    if roots == [] {
      out.Push(NO_ENTRIES);
      return out.text;
    }
    assert roots[0..] == roots;
    for i := 0 to |roots|
      invariant out.text + Joined(RootLines(roots[i..])) == Header(title) + Joined(RootLines(roots))
    {
      NextRoot(out.text, roots, i);
      RenderRoot(out, roots[i]);
    }
    return out.text;
  }

  // -------------------------------------------------------------------- parser

  function LineEnd(text: string): (i: nat)
    ensures i <= |text|
    ensures '\n' !in text[..i] && (i < |text| ==> text[i] == '\n')
  {
    if text == "" || text[0] == '\n' then 0
    else
      var i := 1 + LineEnd(text[1..]);
      assert text[..i] == [text[0]] + text[1..][..i - 1];
      i
  }

  function SplitLines(text: string): Option<seq<string>> {
    if text == "" then Some([])
    else
      var i := LineEnd(text);
      if i == |text| then None
      else match SplitLines(text[i + 1..])
        case None => None
        case Some(lines) => Some([text[..i]] + lines)
  }

  type Item = (nat, string)  // depth and text

  function ParseCells(s: string, depth: nat): Option<Item> {
    if |s| < 4 then None
    else if s[..4] == "+-- " || s[..4] == "`-- " then Some((depth, s[4..]))
    else if s[..4] == "|   " || s[..4] == "    " then ParseCells(s[4..], depth + 1)
    else None
  }

  function ParseLine(line: string): Option<Item> {
    if line == "" || line[0] != ' ' then Some((0, line))
    else if |line| >= 2 && line[1] == ' ' then ParseCells(line[2..], 1)
    else None
  }

  function ParseLines(lines: seq<string>): Option<seq<Item>> {
    if lines == [] then Some([])
    else match ParseLine(lines[0])
      case None => None
      case Some(item) =>
        match ParseLines(lines[1..])
        case None => None
        case Some(items) => Some([item] + items)
  }

  // The trees that start at `depth`, and the items after them.
  function ParseForest(items: seq<Item>, depth: nat): (r: (seq<Shape>, seq<Item>))
    ensures |r.1| <= |items|
    decreases |items|
  {
    if items == [] || items[0].0 != depth then ([], items)
    else
      var (children, rest) := ParseForest(items[1..], depth + 1);
      var (siblings, rest') := ParseForest(rest, depth);
      ([Shape(items[0].1, children)] + siblings, rest')
  }

  function ParseBody(body: string): Option<seq<Shape>> {
    if body == NO_ENTRIES then Some([])
    else match SplitLines(body)
      case None => None
      case Some(lines) =>
        match ParseLines(lines)
        case None => None
        case Some(items) =>
          var (shapes, rest) := ParseForest(items, 0);
          if rest == [] then Some(shapes) else None
  }

  // ---------------------------------------------------------------- round trip

  ghost predicate OneLine(text: string) { '\n' !in text }

  ghost predicate Printable(s: Shape) {
    OneLine(s.text) && forall c :: c in s.children ==> Printable(c)
  }

  // Newline-free text throughout, and no root whose line starts with a space.
  ghost predicate PrintableForest(shapes: seq<Shape>) {
    forall s :: s in shapes ==> Printable(s) && (s.text == "" || s.text[0] != ' ')
  }

  // The forest as a list of depths and texts, in printing order.
  ghost function Items(shapes: seq<Shape>, depth: nat): seq<Item>
    decreases shapes
  {
    if shapes == [] then []
    else [(depth, shapes[0].text)] + Items(shapes[0].children, depth + 1) + Items(shapes[1..], depth)
  }

  lemma {:induction false} SplitJoined(lines: seq<string>)
    requires forall l :: l in lines ==> OneLine(l)
    ensures SplitLines(Joined(lines)) == Some(lines)
  {
    if lines != [] {
      var text := Joined(lines);
      assert lines[0] in lines;
      var i := LineEnd(text);
      assert text[|lines[0]|] == '\n';
      assert forall j :: 0 <= j < |lines[0]| ==> text[j] == lines[0][j] != '\n';
      assert forall j :: 0 <= j < i ==> text[..i][j] == text[j] != '\n';
      assert text[..i] == lines[0] && text[i + 1..] == Joined(lines[1..]);
      SplitJoined(lines[1..]);
      assert lines == [lines[0]] + lines[1..];
    }
  }

  ghost function Cells(path: seq<bool>): string {
    if path == [] then "" else Cell(path[0]) + Cells(path[1..])
  }

  lemma {:induction false} CellsSnoc(path: seq<bool>, isLast: bool)
    ensures Cells(path + [isLast]) == Cells(path) + Cell(isLast)
  {
    if path != [] {
      CellsSnoc(path[1..], isLast);
      assert (path + [isLast])[1..] == path[1..] + [isLast];
    } else {
      assert [isLast][1..] == [];
    }
  }

  lemma CellRead(isLast: bool, rest: string, depth: nat)
    ensures ParseCells(Cell(isLast) + rest, depth) == ParseCells(rest, depth + 1)
  {
    var s := Cell(isLast) + rest;
    assert s[..4] == Cell(isLast) && s[4..] == rest;
    assert "+-- "[0] == '+' && "`-- "[0] == '`';
  }

  lemma ConnectorRead(isLast: bool, text: string, depth: nat)
    ensures ParseCells(Connector(isLast) + text, depth) == Some((depth, text))
  {
    var s := Connector(isLast) + text;
    assert s[..4] == Connector(isLast) && s[4..] == text;
  }

  lemma {:induction false} CellsParse(path: seq<bool>, isLast: bool, text: string, depth: nat)
    ensures ParseCells(Cells(path) + (Connector(isLast) + text), depth) == Some((depth + |path|, text))
  {
    if path == [] {
      assert Cells(path) + (Connector(isLast) + text) == Connector(isLast) + text;
      ConnectorRead(isLast, text, depth);
    } else {
      var rest := Cells(path[1..]) + (Connector(isLast) + text);
      assert Cells(path) + (Connector(isLast) + text) == Cell(path[0]) + rest;
      CellRead(path[0], rest, depth);
      CellsParse(path[1..], isLast, text, depth + 1);
    }
  }

  lemma {:induction false} CellsOneLine(path: seq<bool>)
    ensures OneLine(Cells(path))
  {
    if path != [] { CellsOneLine(path[1..]); }
  }

  lemma {:induction false} ParseLinesConcat(a: seq<string>, b: seq<string>)
    requires ParseLines(a).Some? && ParseLines(b).Some?
    ensures ParseLines(a + b) == Some(ParseLines(a).value + ParseLines(b).value)
  {
    if a == [] {
      assert a + b == b && ParseLines(a).value + ParseLines(b).value == ParseLines(b).value;
    } else {
      assert (a + b)[1..] == a[1..] + b;
      ParseLinesConcat(a[1..], b);
      var item, x, y := ParseLine(a[0]).value, ParseLines(a[1..]).value, ParseLines(b).value;
      assert [item] + (x + y) == ([item] + x) + y;
    }
  }

  ghost predicate Readable(lines: seq<string>, items: seq<Item>) {
    ParseLines(lines) == Some(items) && forall l :: l in lines ==> OneLine(l)
  }

  lemma LineReadable(line: string, item: Item)
    requires ParseLine(line) == Some(item) && OneLine(line)
    ensures Readable([line], [item])
  {
    var lines: seq<string> := [line];
    assert lines[1..] == [] && [item] + [] == [item];
    assert ParseLines(lines[1..]) == Some([]);
  }

  lemma ReadableConcat(a: seq<string>, b: seq<string>, x: seq<Item>, y: seq<Item>)
    requires Readable(a, x) && Readable(b, y)
    ensures Readable(a + b, x + y)
  {
    ParseLinesConcat(a, b);
  }

  lemma Associative(a: string, b: string, c: string)
    ensures (a + b) + c == a + (b + c)
  {
  }

  lemma IndentRead(rest: string)
    ensures ParseLine("  " + rest) == ParseCells(rest, 1)
  {
    assert ("  " + rest)[2..] == rest;
  }

  lemma ChildLineParses(path: seq<bool>, isLast: bool, text: string)
    ensures ParseLine(("  " + Cells(path)) + (Connector(isLast) + text)) == Some((|path| + 1, text))
  {
    Associative("  ", Cells(path), Connector(isLast) + text);
    IndentRead(Cells(path) + (Connector(isLast) + text));
    CellsParse(path, isLast, text, 1);
  }

  lemma OneLineConcat(a: string, b: string)
    requires OneLine(a) && OneLine(b)
    ensures OneLine(a + b)
  {
  }

  lemma ChildLineReadable(path: seq<bool>, isLast: bool, text: string)
    requires OneLine(text)
    ensures Readable([("  " + Cells(path)) + (Connector(isLast) + text)], [(|path| + 1, text)])
  {
    CellsOneLine(path);
    OneLineConcat("  ", Cells(path));
    OneLineConcat(Connector(isLast), text);
    OneLineConcat("  " + Cells(path), Connector(isLast) + text);
    ChildLineParses(path, isLast, text);
    LineReadable(("  " + Cells(path)) + (Connector(isLast) + text), (|path| + 1, text));
  }

  lemma {:induction false} ChildrenReadable(ns: seq<Node>, path: seq<bool>)
    requires forall s :: s in ShapesOf(ns) ==> Printable(s)
    ensures Readable(ChildrenLines(ns, "  " + Cells(path)), Items(ShapesOf(ns), |path| + 1))
    decreases ns
  {
    if ns != [] {
      var n, isLast, prefix := ns[0], |ns| == 1, "  " + Cells(path);
      var shape := ShapeOf(n);
      assert shape in ShapesOf(ns);
      CellsSnoc(path, isLast);
      assert prefix + Cell(isLast) == "  " + Cells(path + [isLast]);
      ChildrenReadable(n.children, path + [isLast]);
      ChildLineReadable(path, isLast, TextOf(n));
      ReadableConcat([prefix + (Connector(isLast) + TextOf(n))], ChildrenLines(n.children, prefix + Cell(isLast)),
        [(|path| + 1, TextOf(n))], Items(shape.children, |path| + 2));
      ChildrenReadable(ns[1..], path);
      ReadableConcat(ChildLines(n, prefix, isLast), ChildrenLines(ns[1..], prefix),
        [(|path| + 1, TextOf(n))] + Items(shape.children, |path| + 2), Items(ShapesOf(ns[1..]), |path| + 1));
      assert ShapesOf(ns)[1..] == ShapesOf(ns[1..]);
    }
  }

  // A root's own line and its children's.
  lemma RootReadable(n: Node)
    requires OneLine(TextOf(n)) && (TextOf(n) == "" || TextOf(n)[0] != ' ')
    requires forall s :: s in ShapesOf(n.children) ==> Printable(s)
    ensures Readable([TextOf(n)] + ChildrenLines(n.children, "  "), [(0, TextOf(n))] + Items(ShapesOf(n.children), 1))
  {
    assert Cells([]) == "" && "  " + "" == "  ";
    ChildrenReadable(n.children, []);
    LineReadable(TextOf(n), (0, TextOf(n)));
    ReadableConcat([TextOf(n)], ChildrenLines(n.children, "  "), [(0, TextOf(n))], Items(ShapesOf(n.children), 1));
  }

  lemma {:induction false} RootsReadable(roots: seq<Node>)
    requires PrintableForest(ShapesOf(roots))
    ensures Readable(RootLines(roots), Items(ShapesOf(roots), 0))
  {
    if roots != [] {
      var n := roots[0];
      assert ShapeOf(n) in ShapesOf(roots) && ShapesOf(roots)[1..] == ShapesOf(roots[1..]);
      RootReadable(n);
      RootsReadable(roots[1..]);
      ReadableConcat([TextOf(n)] + ChildrenLines(n.children, "  "), RootLines(roots[1..]),
        [(0, TextOf(n))] + Items(ShapesOf(n.children), 1), Items(ShapesOf(roots[1..]), 0));
    }
  }

  lemma Regroup(head: Item, a: seq<Item>, b: seq<Item>, rest: seq<Item>)
    ensures var items := [head] + a + b + rest;
      items[0] == head && items[1..] == a + (b + rest)
  {
  }

  lemma ItemsFirst(shapes: seq<Shape>, depth: nat, rest: seq<Item>)
    requires shapes != []
    ensures var items := Items(shapes, depth) + rest;
      && items[0] == (depth, shapes[0].text)
      && items[1..] == Items(shapes[0].children, depth + 1) + (Items(shapes[1..], depth) + rest)
  {
    Regroup((depth, shapes[0].text), Items(shapes[0].children, depth + 1), Items(shapes[1..], depth), rest);
  }

  lemma {:induction false} ForestParses(shapes: seq<Shape>, depth: nat, rest: seq<Item>)
    requires rest == [] || rest[0].0 < depth
    ensures ParseForest(Items(shapes, depth) + rest, depth) == (shapes, rest)
    decreases shapes
  {
    var items := Items(shapes, depth) + rest;
    if shapes == [] {
      assert items == rest;
    } else {
      var s, others := shapes[0], Items(shapes[1..], depth) + rest;
      ItemsFirst(shapes, depth, rest);
      if shapes[1..] == [] { assert others == rest; }
      ForestParses(s.children, depth + 1, others);
      ForestParses(shapes[1..], depth, rest);
      assert ParseForest(items[1..], depth + 1) == (s.children, others);
      assert s == Shape(items[0].1, s.children);
      assert shapes == [s] + shapes[1..];
    }
  }

  lemma PrintedReadsBack(roots: seq<Node>)
    requires PrintableForest(ShapesOf(roots))
    ensures ParseBody(Body(roots)) == Some(ShapesOf(roots))
  {
    if roots != [] {
      RootsReadable(roots);
      SplitJoined(RootLines(roots));
      ForestParses(ShapesOf(roots), 0, []);
      assert Items(ShapesOf(roots), 0) + [] == Items(ShapesOf(roots), 0);
      assert ShapeOf(roots[0]) in ShapesOf(roots);
      var first := TextOf(roots[0]);
      assert Body(roots)[0] == (if first == "" then '\n' else first[0]);
      assert NO_ENTRIES[0] == ' ';
    }
  }

  // ----------------------------------------------------- what a parse can yield

  lemma {:induction false} SplitIsOneLine(text: string)
    requires SplitLines(text).Some?
    ensures forall l :: l in SplitLines(text).value ==> OneLine(l)
  {
    if text != "" { SplitIsOneLine(text[LineEnd(text) + 1..]); }
  }

  lemma {:induction false} CellsYield(s: string, depth: nat)
    requires ParseCells(s, depth).Some? && OneLine(s)
    ensures ParseCells(s, depth).value.0 >= depth && OneLine(ParseCells(s, depth).value.1)
  {
    if s[..4] != "+-- " && s[..4] != "`-- " { CellsYield(s[4..], depth + 1); }
  }

  ghost predicate ItemOk(item: Item) {
    OneLine(item.1) && (item.0 == 0 ==> item.1 == "" || item.1[0] != ' ')
  }

  lemma {:induction false} LinesYield(lines: seq<string>)
    requires ParseLines(lines).Some? && forall l :: l in lines ==> OneLine(l)
    ensures forall item :: item in ParseLines(lines).value ==> ItemOk(item)
  {
    if lines != [] {
      assert lines[0] in lines;
      if lines[0] != "" && lines[0][0] == ' ' { CellsYield(lines[0][2..], 1); }
      LinesYield(lines[1..]);
    }
  }

  lemma {:induction false} ForestYields(items: seq<Item>, depth: nat)
    requires forall item :: item in items ==> ItemOk(item)
    ensures var (shapes, rest) := ParseForest(items, depth);
      && (forall item :: item in rest ==> ItemOk(item))
      && (forall s :: s in shapes ==> Printable(s))
      && (depth == 0 ==> PrintableForest(shapes))
    decreases |items|
  {
    if items != [] && items[0].0 == depth {
      assert items[0] in items && forall item :: item in items[1..] ==> item in items;
      ForestYields(items[1..], depth + 1);
      ForestYields(ParseForest(items[1..], depth + 1).1, depth);
    }
  }

  lemma ParseYieldsPrintable(body: string)
    requires ParseBody(body).Some?
    ensures PrintableForest(ParseBody(body).value)
  {
    if body != NO_ENTRIES {
      SplitIsOneLine(body);
      LinesYield(SplitLines(body).value);
      ForestYields(ParseLines(SplitLines(body).value).value, 0);
    }
  }

  // The printed body determines the forest: the parser recovers its exact shape
  // and every line's text if, and only if, no text holds a newline and no root
  // line starts with a space.
  lemma {:induction false} RoundTrip(roots: seq<Node>)
    ensures ParseBody(Body(roots)) == Some(ShapesOf(roots)) <==> PrintableForest(ShapesOf(roots))
  {
    if PrintableForest(ShapesOf(roots)) {
      PrintedReadsBack(roots);
    }
    if ParseBody(Body(roots)).Some? {
      ParseYieldsPrintable(Body(roots));
    }
  }

  lemma {:induction false} PrintedDistinguishes(a: seq<Node>, b: seq<Node>)
    requires PrintableForest(ShapesOf(a)) && PrintableForest(ShapesOf(b))
    ensures Body(a) == Body(b) <==> ShapesOf(a) == ShapesOf(b)
  {
    PrintedReadsBack(a);
    PrintedReadsBack(b);
    if ShapesOf(a) == ShapesOf(b) {
      SameShapeSameBody(a, b);
    }
  }

  lemma {:induction false} SameChildrenSameLines(a: seq<Node>, b: seq<Node>, prefix: string)
    requires ShapesOf(a) == ShapesOf(b)
    ensures ChildrenLines(a, prefix) == ChildrenLines(b, prefix)
    decreases a
  {
    ShapesLength(a);
    ShapesLength(b);
    if a != [] {
      assert ShapesOf(a)[0] == ShapeOf(a[0]) && ShapesOf(b)[0] == ShapeOf(b[0]);
      assert ShapesOf(a)[1..] == ShapesOf(a[1..]) && ShapesOf(b)[1..] == ShapesOf(b[1..]);
      SameChildrenSameLines(a[0].children, b[0].children, prefix + Cell(|a| == 1));
      SameChildrenSameLines(a[1..], b[1..], prefix);
    }
  }

  lemma {:induction false} ShapesLength(ns: seq<Node>)
    ensures |ShapesOf(ns)| == |ns|
  {
    if ns != [] { ShapesLength(ns[1..]); }
  }

  lemma {:induction false} SameShapeSameBody(a: seq<Node>, b: seq<Node>)
    requires ShapesOf(a) == ShapesOf(b)
    ensures RootLines(a) == RootLines(b) && Body(a) == Body(b)
  {
    ShapesLength(a);
    ShapesLength(b);
    if a != [] {
      assert ShapesOf(a)[0] == ShapeOf(a[0]) && ShapesOf(b)[0] == ShapeOf(b[0]);
      assert ShapesOf(a)[1..] == ShapesOf(a[1..]) && ShapesOf(b)[1..] == ShapesOf(b[1..]);
      SameChildrenSameLines(a[0].children, b[0].children, "  ");
      SameShapeSameBody(a[1..], b[1..]);
    }
  }
}
