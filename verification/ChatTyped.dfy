/** A tree with its marks, a line without the backslashes of its escapes, and that
    the parser keeps the one the other.
    ChatShown states what comes of it. */
module ChatTyped {
  import opened Common
  import opened ChatGrammar
  import opened MentionReading
  import P = Payload

  function ShownNode(node: Inline): string
    decreases node
  {
    match node
    case Text(text) => text
    case Styled(style, children) => style.Delimiter() + Shown(children) + style.Delimiter()
    case Code(code) => "`" + code + "`"
    case Link(url) => url
    case Reference(member) => ReferenceText(member)
  }

  /** A tree with its marks. */
  function Shown(nodes: seq<Inline>): string
    decreases nodes
  {
    if nodes == [] then "" else ShownNode(nodes[0]) + Shown(nodes[1..])
  }

  /** What was typed at i, without an escape's backslash. */
  function TypedAt(cls: Classes, s: string, i: nat): string
    requires i < |s|
  {
    match ConstructAt(cls, s, i)
    case Escaped(c) => [c]
    case _ => s[i..NextAt(cls, s, i)]
  }

  function Typed(cls: Classes, s: string, i: nat): string
    requires i <= |s|
    decreases |s| - i
  {
    if i == |s| then "" else TypedAt(cls, s, i) + Typed(cls, s, NextAt(cls, s, i))
  }

  lemma {:induction false} ShownJoin(a: seq<Inline>, b: seq<Inline>)
    ensures Shown(a + b) == Shown(a) + Shown(b)
  {
    hide ShownNode;
    if a == [] {
      assert a + b == b;
    } else {
      assert (a + b)[1..] == a[1..] + b;
      ShownJoin(a[1..], b);
      assert Shown(a) + Shown(b) == ShownNode(a[0]) + (Shown(a[1..]) + Shown(b));
    }
  }

  lemma ShownOne(node: Inline)
    ensures Shown([node]) == ShownNode(node)
  {
    hide ShownNode;
    var nodes := [node];
    assert nodes[0] == node && Shown(nodes[1..]) == "";
  }

  lemma {:induction false} ShownMerge(nodes: seq<Inline>)
    ensures Shown(Merge(nodes)) == Shown(nodes)
  {
    if nodes != [] {
      ShownMerge(nodes[1..]);
      var rest, merged := Merge(nodes[1..]), Merge(nodes);
      if nodes[0].Text? && rest != [] && rest[0].Text? {
        assert merged[1..] == rest[1..];
        assert Shown(merged) == (nodes[0].text + rest[0].text) + Shown(rest[1..]);
        assert Shown(rest) == rest[0].text + Shown(rest[1..]);
      } else {
        assert merged[1..] == rest;
      }
    }
  }

  /** What the stack holds, the open delimiters among it. */
  function Held(stack: seq<Frame>): string {
    if stack == [] then ""
    else Held(stack[..|stack| - 1]) + (stack[|stack| - 1].Delimiter() + Shown(stack[|stack| - 1].nodes))
  }

  function HeldBy(p: Parser): string {
    Held(p.stack) + p.text
  }

  lemma HeldOn(stack: seq<Frame>, frame: Frame)
    ensures Held(stack + [frame]) == Held(stack) + (frame.Delimiter() + Shown(frame.nodes))
  {
    hide Shown;
    assert (stack + [frame])[..|stack|] == stack;
  }

  lemma NodeHeld(p: Parser, node: Inline)
    requires p.Valid()
    ensures Held(p.WithNode(node).stack) == Held(p.stack) + ShownNode(node)
  {
    hide Shown, ShownNode;
    var top := p.Top();
    var frame := p.stack[top];
    ShownJoin(frame.nodes, [node]);
    ShownOne(node);
    assert p.WithNode(node).stack[..top] == p.stack[..top];
    assert p.WithNode(node).stack[top].Delimiter() == frame.Delimiter();
  }

  lemma FlushHeld(p: Parser)
    requires p.Valid()
    ensures HeldBy(p.Flush()) == HeldBy(p) == Held(p.Flush().stack)
  {
    hide Held;
    if p.text != "" {
      NodeHeld(p, Text(p.text));
    }
  }

  lemma AddHeld(p: Parser, node: Inline)
    requires p.Valid()
    ensures HeldBy(p.Add(node)) == HeldBy(p) + ShownNode(node)
  {
    hide Held, ShownNode;
    FlushHeld(p);
    NodeHeld(p.Flush(), node);
  }

  lemma OpenHeld(p: Parser, style: Style)
    requires p.Valid()
    ensures HeldBy(p.Open(style)) == HeldBy(p) + style.Delimiter()
  {
    hide Held;
    FlushHeld(p);
    HeldOn(p.Flush().stack, Frame(Some(style), []));
  }

  lemma CloseHeld(p: Parser)
    requires |p.stack| > 1 && p.stack[p.Top()].style.Some?
    ensures HeldBy(p.Close()) == HeldBy(p) + p.stack[p.Top()].Delimiter()
  {
    hide Shown;
    FlushHeld(p);
    var q := p.Flush();
    var top := q.Top();
    var style, nodes := p.stack[top].style.value, q.stack[top].nodes;
    var below := Parser(q.stack[..top], "");
    ShownMerge(nodes);
    AddHeld(below, Styled(style, Merge(nodes)));
    assert HeldBy(below) == Held(q.stack[..top]);
    assert HeldBy(p.Close()) == Held(q.stack[..top]) + (style.Delimiter() + Shown(nodes) + style.Delimiter());
    assert Held(q.stack) == Held(q.stack[..top]) + (style.Delimiter() + Shown(nodes));
  }

  lemma WriteHeld(p: Parser, more: string)
    ensures HeldBy(p.Write(more)) == HeldBy(p) + more
  {
    assert Held(p.stack) + (p.text + more) == Held(p.stack) + p.text + more;
  }

  /** A construct's node shows what was typed for it. */
  lemma NodeTyped(cls: Classes, s: string, i: nat)
    requires i < |s|
    ensures match ConstructAt(cls, s, i)
            case Span(code) => TypedAt(cls, s, i) == ShownNode(Code(code))
            case Member(id) => TypedAt(cls, s, i) == ShownNode(Reference(id))
            case Url(url) => TypedAt(cls, s, i) == ShownNode(Link(url))
            case Delim(style) => TypedAt(cls, s, i) == style.Delimiter()
            case Escaped(c) => TypedAt(cls, s, i) == [c]
            case Plain(c) => TypedAt(cls, s, i) == [c]
  {
    hide LinkEnd, ReferenceAt, Find, ReferenceText;
    match ConstructAt(cls, s, i)
    case Span(code) => SpanTyped(cls, s, i, code);
    case Member(id) => MemberTyped(s, i, id);
    case Delim(style) => DelimTyped(cls, s, i, style);
    case _ =>
  }

  lemma SpanTyped(cls: Classes, s: string, i: nat, code: string)
    requires i < |s| && ConstructAt(cls, s, i) == Span(code)
    ensures s[i..i + |code| + 2] == "`" + code + "`"
  {
    hide LinkEnd, ReferenceAt;
    var end := Find(s, '`', i + 1);
    assert code == s[i + 1..end] && s[i] == '`' && s[end] == '`' && end == i + 1 + |code|;
    assert s[i..end + 1] == [s[i]] + s[i + 1..end] + [s[end]];
  }

  lemma DelimTyped(cls: Classes, s: string, i: nat, style: Style)
    requires i < |s| && ConstructAt(cls, s, i) == Delim(style)
    ensures s[i..i + |style.Delimiter()|] == style.Delimiter()
  {
    hide LinkEnd, ReferenceAt, Find;
    if style.Bold? {
      assert s[i..i + 2] == "**";
    } else {
      assert s[i..i + 1] == "_";
    }
  }

  lemma MemberTyped(s: string, i: nat, id: P.ID)
    requires i < |s| && ReferenceAt(s, i) == Some(id)
    ensures i + 39 <= |s| && s[i..i + 39] == ReferenceText(id)
  {
    hide P.Parse, P.Format, P.Upper;
    var value := s[i + 2..i + 38];
    forall k | 0 <= k < 36 ensures !P.Upper(value[k]) {
      assert value[k] == s[i + 2 + k];
    }
    WrittenBack(value, id);
    assert s[i..i + 39] == "<@" + value + ">";
  }

  lemma WrittenBack(value: string, id: P.ID)
    requires |value| == 36 && P.Parse(value) == Some(id) && forall k :: 0 <= k < 36 ==> !P.Upper(value[k])
    ensures P.Format(id) == value
  {
    hide P.Parse, P.Format, P.Upper;
    P.FormatParse(value);
  }

  lemma StepHeld(cls: Classes, s: string, i: nat, p: Parser)
    requires p.Valid() && i < |s|
    ensures HeldBy(Step(cls, s, i, p)) == HeldBy(p) + TypedAt(cls, s, i)
  {
    NodeTyped(cls, s, i);
    hide HeldBy, ConstructAt, CanOpen, CanClose, ShownNode, TypedAt;
    match ConstructAt(cls, s, i)
    case Escaped(c) => WriteHeld(p, [c]);
    case Plain(c) => WriteHeld(p, [c]);
    case Span(code) => AddHeld(p, Code(code));
    case Url(url) => AddHeld(p, Link(url));
    case Member(m) => AddHeld(p, Reference(m));
    case Delim(style) =>
      if Closes(cls, s, i, style, p) {
        CloseHeld(p);
      } else if CanOpen(cls, s, i, style) && p.Top() < 2 {
        OpenHeld(p, style);
      } else {
        WriteHeld(p, style.Delimiter());
      }
  }

  lemma {:induction false} RunHeld(cls: Classes, s: string, i: nat, p: Parser)
    requires p.Valid() && i <= |s|
    ensures HeldBy(Run(cls, s, i, p)) == HeldBy(p) + Typed(cls, s, i)
    decreases |s| - i
  {
    hide HeldBy, Step, ConstructAt, NextAt, TypedAt;
    if i < |s| {
      StepHeld(cls, s, i, p);
      RunHeld(cls, s, NextAt(cls, s, i), Step(cls, s, i, p));
      assert HeldBy(p) + TypedAt(cls, s, i) + Typed(cls, s, NextAt(cls, s, i)) == HeldBy(p) + Typed(cls, s, i);
    } else {
      assert HeldBy(p) + "" == HeldBy(p);
    }
  }

  lemma {:induction false} UnwindHeld(stack: seq<Frame>)
    requires stack != [] && stack[0].style.None?
    ensures Shown(Unwind(stack)) == Held(stack)
    decreases |stack|
  {
    hide Shown, Held;
    if |stack| == 1 {
      HeldOn([], stack[0]);
      NoneHeld();
      assert [] + [stack[0]] == stack;
      assert "" + ("" + Shown(stack[0].nodes)) == Shown(stack[0].nodes);
    } else {
      var n := |stack| - 2;
      var parent, delim := stack[n], Text(stack[n + 1].Delimiter());
      ShownJoin(parent.nodes, [delim]);
      ShownOne(delim);
      ShownJoin(parent.nodes + [delim], stack[n + 1].nodes);
      var joined := parent.(nodes := parent.nodes + [delim] + stack[n + 1].nodes);
      var a, b := stack[..n + 1], stack[..n];
      HeldOn(b, joined);
      HeldOn(b, parent);
      HeldOn(a, stack[n + 1]);
      assert a == b + [parent] && stack == a + [stack[n + 1]];
      assert joined.Delimiter() == parent.Delimiter();
      JoinedHeld(Held(b), parent.Delimiter(), Shown(parent.nodes), delim.text, Shown(stack[n + 1].nodes));
      UnwindHeld(b + [joined]);
    }
  }

  lemma JoinedHeld(held: string, delim: string, nodes: string, next: string, more: string)
    ensures held + (delim + (nodes + next + more)) == held + (delim + nodes) + (next + more)
  {
  }

  lemma NoneHeld()
    ensures Held([]) == "" && HeldBy(EMPTY) == ""
  {
  }

  lemma {:induction false} RunStyles(cls: Classes, s: string, i: nat, p: Parser)
    requires p.Valid() && i <= |s| && p.stack[0].style.None?
    ensures Run(cls, s, i, p).stack[0].style.None?
    decreases |s| - i
  {
    if i < |s| {
      StepStyle(cls, s, i, p);
      hide Step, NextAt;
      RunStyles(cls, s, NextAt(cls, s, i), Step(cls, s, i, p));
    }
  }

  lemma StepStyle(cls: Classes, s: string, i: nat, p: Parser)
    requires p.Valid() && i < |s| && p.stack[0].style.None?
    ensures Step(cls, s, i, p).stack[0].style.None?
  {
    hide ConstructAt, CanOpen, CanClose;
  }

  /** So a line without a backslash is shown as it is. */
  lemma {:induction false} PlainTyped(cls: Classes, s: string, i: nat)
    requires i <= |s| && '\\' !in s
    ensures Typed(cls, s, i) == s[i..]
    decreases |s| - i
  {
    hide ConstructAt, NextAt;
    if i < |s| {
      var n := NextAt(cls, s, i);
      assert s[i] in s;
      EscapesOnly(cls, s, i);
      PlainTyped(cls, s, n);
      assert s[i..] == s[i..n] + s[n..];
    }
  }

  lemma EscapesOnly(cls: Classes, s: string, i: nat)
    requires i < |s|
    ensures ConstructAt(cls, s, i).Escaped? ==> s[i] == '\\'
  {
    hide LinkEnd, ReferenceAt, Find;
  }
}
