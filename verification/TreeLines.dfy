/** What the printed tree shows apart from its shape: which child is the last, the
    parts of a node's text, and the heading. */
module TreeLines {
  import opened Wrappers
  import opened TreePrinter

  // Each child stands on a line of its own after those of its elder siblings,
  // drawn with a corner if it is the last and with a branch otherwise; its own
  // children follow, under a bar that goes on exactly if it has younger siblings.
  lemma {:induction false} ChildDrawn(ns: seq<Node>, prefix: string, k: nat)
    returns (before: seq<string>, after: seq<string>)
    requires k < |ns|
    ensures var last := k + 1 == |ns|;
      ChildrenLines(ns, prefix) ==
        before
        + [prefix + ((if last then "`-- " else "+-- ") + TextOf(ns[k]))]
        + ChildrenLines(ns[k].children, prefix + (if last then "    " else "|   "))
        + after
    ensures k == 0 ==> before == []
    ensures k + 1 == |ns| ==> after == []
  {
    if k == 0 {
      before, after := [], ChildrenLines(ns[1..], prefix);
      assert ChildLines(ns[0], prefix, |ns| == 1) ==
        [] + [prefix + (Connector(|ns| == 1) + TextOf(ns[0]))]
        + ChildrenLines(ns[0].children, prefix + Cell(|ns| == 1));
    } else {
      var first := ChildLines(ns[0], prefix, |ns| == 1);
      before, after := ChildDrawn(ns[1..], prefix, k - 1);
      assert ns[1..][k - 1] == ns[k];
      Regrouped(first, before, [prefix + (Connector(k + 1 == |ns|) + TextOf(ns[k]))],
                ChildrenLines(ns[k].children, prefix + Cell(k + 1 == |ns|)), after);
      before := first + before;
    }
  }

  lemma Regrouped(first: seq<string>, a: seq<string>, b: seq<string>, c: seq<string>, d: seq<string>)
    ensures first + (a + b + c + d) == (first + a) + b + c + d
  {
  }

  // ------------------------------------------------------------------- the text

  datatype Label = Label(badge: Option<string>, name: string, detail: Option<string>)

  // Where `c` first stands in the text, or its length.
  function First(text: string, c: char): (i: nat)
    ensures i <= |text| && c !in text[..i] && (i < |text| ==> text[i] == c)
  {
    if text == "" || text[0] == c then 0
    else
      var i := 1 + First(text[1..], c);
      assert text[..i] == [text[0]] + text[1..][..i - 1];
      i
  }

  // Reading a node's text: a badge in brackets, a name up to a dash, a detail.
  function ReadLabel(text: string): Label {
    var close := First(text, ']');
    if text != "" && text[0] == '[' && close + 2 <= |text| then
      Label(Some(text[1..close]), ReadName(text[close + 2..]), ReadDetail(text[close + 2..]))
    else Label(None, ReadName(text), ReadDetail(text))
  }

  function ReadName(text: string): string {
    var dash := First(text, '-');
    if 1 <= dash < |text| then text[..dash - 1] else text
  }

  function ReadDetail(text: string): Option<string> {
    var dash := First(text, '-');
    if dash + 2 <= |text| then Some(text[dash + 2..]) else None
  }

  // Names without dash or opening bracket and badges without closing bracket, as
  // commands have them: such a node's text gives back its badge, name and detail.
  predicate Plain(n: Node) {
    && '-' !in n.name && (n.name != "" ==> n.name[0] != '[')
    && (n.badge.Some? ==> ']' !in n.badge.value)
  }

  lemma FirstIs(front: string, c: char, back: string)
    requires c !in front
    ensures First(front + [c] + back, c) == |front|
  {
    var text := front + [c] + back;
    assert text[|front|] == c;
    assert forall j :: 0 <= j < |front| ==> text[j] == front[j];
  }

  lemma FirstNone(text: string, c: char)
    requires c !in text
    ensures First(text, c) == |text|
  {
  }

  // The name and detail behind a badge, or on their own.
  ghost function Tail(n: Node): string {
    n.name + (if n.detail.Some? then " - " + n.detail.value else "")
  }

  lemma TailRead(n: Node)
    requires '-' !in n.name
    ensures ReadName(Tail(n)) == n.name && ReadDetail(Tail(n)) == n.detail
  {
    if n.detail.Some? {
      var text := (n.name + " ") + ['-'] + (" " + n.detail.value);
      assert Tail(n) == text;
      FirstIs(n.name + " ", '-', " " + n.detail.value);
      assert text[..|n.name|] == n.name && text[|n.name| + 3..] == n.detail.value;
    } else {
      FirstNone(n.name, '-');
      assert Tail(n) == n.name;
    }
  }

  lemma BadgeRead(badge: string, rest: string)
    requires ']' !in badge
    ensures ReadLabel("[" + badge + "] " + rest) == Label(Some(badge), ReadName(rest), ReadDetail(rest))
  {
    var inside, text := "[" + badge, "[" + badge + "] " + rest;
    assert text == inside + [']'] + (" " + rest);
    FirstIs(inside, ']', " " + rest);
    assert text[1..|inside|] == badge && text[|inside| + 2..] == rest;
  }

  lemma {:induction false} LabelReadBack(n: Node)
    requires Plain(n)
    ensures ReadLabel(TextOf(n)) == Label(n.badge, n.name, n.detail)
  {
    TailRead(n);
    TextParts(n);
    if n.badge.Some? {
      BadgeRead(n.badge.value, Tail(n));
    } else {
      TailUnbadged(n);
      UnbadgedRead(Tail(n));
    }
  }

  lemma UnbadgedRead(text: string)
    requires text == "" || text[0] != '['
    ensures ReadLabel(text) == Label(None, ReadName(text), ReadDetail(text))
  {
  }

  lemma TextParts(n: Node)
    ensures TextOf(n) == if n.badge.Some? then "[" + n.badge.value + "] " + Tail(n) else Tail(n)
  {
    var badge := if n.badge.Some? then "[" + n.badge.value + "] " else "";
    var detail := if n.detail.Some? then " - " + n.detail.value else "";
    assert badge + n.name + detail == badge + (n.name + detail);
    assert "" + Tail(n) == Tail(n);
  }

  lemma TailUnbadged(n: Node)
    requires Plain(n)
    ensures Tail(n) != "" ==> Tail(n)[0] != '['
  {
    if n.name != "" { assert Tail(n)[0] == n.name[0]; }
  }

  // A title stands above a rule as long as itself, up to sixty dashes; without one
  // there is no heading. A tree without entries says so.
  lemma HeadingDrawn(title: string)
    ensures Header("") == "" && Body([]) == "  (no entries)\n"
    ensures title != "" ==>
      exists rule: string :: Header(title) == title + "\n" + rule + "\n"
        && |rule| == (if |title| <= 60 then |title| else 60) && forall i :: 0 <= i < |rule| ==> rule[i] == '-'
  {
    if title != "" {
      var rule := seq(if |title| < 60 then |title| else 60, _ => '-');
      assert Header(title) == title + "\n" + rule + "\n";
    }
  }
}
