/** Where a line's tree has its styles, and that the parser makes one only where
    its delimiters may stand. ChatStyles states what comes of it. */
module ChatDelimiters {
  import opened Common
  import opened ChatGrammar
  import opened ChatTyped

  /** Of the text typed, from o to e inside its two marks, a style may be made. */
  predicate Styles(cls: Classes, typed: string, o: nat, e: nat, style: Style)
    requires o <= e <= |typed|
  {
    var w := |style.Delimiter()|;
    && (o < e ==> !cls.space(typed[o]) && !cls.space(typed[e - 1]))
    && (style.Italic? ==> Clear(cls, typed, o - w) && Clear(cls, typed, e + w + 1))
  }

  /** No word character is the k-th, counted from one. */
  predicate Clear(cls: Classes, typed: string, k: int) {
    0 < k <= |typed| ==> !cls.Word(typed[k - 1])
  }

  /** Every style in the nodes, shown from o on, may be made there. */
  predicate Set(cls: Classes, typed: string, o: nat, nodes: seq<Inline>)
    decreases nodes
  {
    nodes == [] ||
    (&& (match nodes[0]
         case Styled(style, children) =>
           var i := o + |style.Delimiter()|;
           && i + |Shown(children)| <= |typed| && Styles(cls, typed, i, i + |Shown(children)|, style)
           && Set(cls, typed, i, children)
         case _ => true)
     && Set(cls, typed, o + |ShownNode(nodes[0])|, nodes[1..]))
  }

  lemma {:induction false} SetJoin(cls: Classes, typed: string, o: nat, a: seq<Inline>, b: seq<Inline>)
    ensures Set(cls, typed, o, a + b) <==> Set(cls, typed, o, a) && Set(cls, typed, o + |Shown(a)|, b)
    decreases |a|
  {
    hide Styles, ShownNode;
    if a == [] {
      assert a + b == b;
    } else {
      assert (a + b)[1..] == a[1..] + b;
      SetJoin(cls, typed, o + |ShownNode(a[0])|, a[1..], b);
    }
  }

  lemma SetText(cls: Classes, typed: string, o: nat, node: Inline)
    requires !node.Styled?
    ensures Set(cls, typed, o, [node])
  {
    hide ShownNode;
    var nodes := [node];
    assert nodes[0] == node && Set(cls, typed, o + |ShownNode(node)|, nodes[1..]);
  }

  lemma SetStyled(cls: Classes, typed: string, o: nat, style: Style, children: seq<Inline>)
    requires var i := o + |style.Delimiter()|;
             i + |Shown(children)| <= |typed| && Styles(cls, typed, i, i + |Shown(children)|, style) && Set(cls, typed, i, children)
    ensures Set(cls, typed, o, [Styled(style, children)])
  {
    hide ShownNode, Styles, Shown;
    var nodes := [Styled(style, children)];
    assert Set(cls, typed, o + |ShownNode(nodes[0])|, nodes[1..]);
  }

  lemma {:induction false} SetMerge(cls: Classes, typed: string, o: nat, nodes: seq<Inline>)
    requires Set(cls, typed, o, nodes)
    ensures Set(cls, typed, o, Merge(nodes))
    decreases |nodes|
  {
    hide Styles, Shown;
    if nodes != [] {
      var rest := Merge(nodes[1..]);
      SetMerge(cls, typed, o + |ShownNode(nodes[0])|, nodes[1..]);
      if nodes[0].Text? && rest != [] && rest[0].Text? {
        assert Merge(nodes)[1..] == rest[1..];
      } else {
        assert Merge(nodes)[1..] == rest;
      }
    }
  }

  // ----- the parser's stack -----

  /** Where the k-th frame's nodes are shown. */
  function Offset(stack: seq<Frame>, k: nat): nat
    requires k < |stack|
  {
    |Held(stack[..k])| + |stack[k].Delimiter()|
  }

  /** A delimiter was opened before o. */
  predicate Opened(cls: Classes, typed: string, o: nat, style: Style) {
    o < |typed| && !cls.space(typed[o]) && (style.Italic? ==> Clear(cls, typed, o - |style.Delimiter()|))
  }

  predicate FrameSet(cls: Classes, typed: string, o: nat, frame: Frame) {
    Set(cls, typed, o, frame.nodes) && (frame.style.Some? ==> Opened(cls, typed, o, frame.style.value))
  }

  ghost predicate StackSet(cls: Classes, typed: string, stack: seq<Frame>) {
    forall k :: 0 <= k < |stack| ==> FrameSet(cls, typed, Offset(stack, k), stack[k])
  }

  lemma SetBelow(cls: Classes, typed: string, stack: seq<Frame>, frame: Frame)
    ensures StackSet(cls, typed, stack + [frame]) <==>
            StackSet(cls, typed, stack) && FrameSet(cls, typed, |Held(stack)| + |frame.Delimiter()|, frame)
  {
    hide Held, FrameSet;
    var more := stack + [frame];
    assert more[..|stack|] == stack;
    forall k | 0 <= k < |stack| ensures Offset(more, k) == Offset(stack, k) {
      assert more[..k] == stack[..k];
    }
    assert Offset(more, |stack|) == |Held(stack)| + |frame.Delimiter()|;
    if StackSet(cls, typed, more) {
      forall k | 0 <= k < |stack| ensures FrameSet(cls, typed, Offset(stack, k), stack[k]) {
        assert FrameSet(cls, typed, Offset(more, k), more[k]);
      }
      assert FrameSet(cls, typed, Offset(more, |stack|), more[|stack|]);
    }
  }

  /** One more node at the end of the innermost frame. */
  lemma NodeSet(cls: Classes, typed: string, p: Parser, node: Inline)
    requires p.Valid() && StackSet(cls, typed, p.stack) && Set(cls, typed, |Held(p.stack)|, [node])
    ensures StackSet(cls, typed, p.WithNode(node).stack)
  {
    hide Set, Shown, Opened, Held;
    var top := p.Top();
    var below, frame := p.stack[..top], p.stack[top];
    assert p.stack == below + [frame] && p.WithNode(node).stack == below + [frame.(nodes := frame.nodes + [node])];
    SetBelow(cls, typed, below, frame);
    HeldOn(below, frame);
    SetJoin(cls, typed, |Held(below)| + |frame.Delimiter()|, frame.nodes, [node]);
    SetBelow(cls, typed, below, frame.(nodes := frame.nodes + [node]));
  }

  lemma FlushSet(cls: Classes, typed: string, p: Parser)
    requires p.Valid() && StackSet(cls, typed, p.stack)
    ensures StackSet(cls, typed, p.Flush().stack)
  {
    hide StackSet, Set, Held;
    if p.text != "" {
      SetText(cls, typed, |Held(p.stack)|, Text(p.text));
      NodeSet(cls, typed, p, Text(p.text));
    }
  }

  lemma AddSet(cls: Classes, typed: string, p: Parser, node: Inline)
    requires p.Valid() && StackSet(cls, typed, p.stack) && Set(cls, typed, |HeldBy(p)|, [node])
    ensures StackSet(cls, typed, p.Add(node).stack)
  {
    hide StackSet, Set, Held;
    FlushSet(cls, typed, p);
    FlushHeld(p);
    NodeSet(cls, typed, p.Flush(), node);
  }

  lemma OpenSet(cls: Classes, typed: string, p: Parser, style: Style)
    requires p.Valid() && StackSet(cls, typed, p.stack) && Opened(cls, typed, |HeldBy(p)| + |style.Delimiter()|, style)
    ensures StackSet(cls, typed, p.Open(style).stack)
  {
    hide StackSet, Opened, Held;
    FlushSet(cls, typed, p);
    FlushHeld(p);
    SetBelow(cls, typed, p.Flush().stack, Frame(Some(style), []));
  }

  lemma CloseSet(cls: Classes, typed: string, p: Parser)
    requires |p.stack| > 1 && p.stack[p.Top()].style.Some? && StackSet(cls, typed, p.stack)
    requires var e := |HeldBy(p)|;
             var style := p.stack[p.Top()].style.value;
             0 < e <= |typed| && !cls.space(typed[e - 1]) && (style.Italic? ==> Clear(cls, typed, e + |style.Delimiter()| + 1))
    ensures StackSet(cls, typed, p.Close().stack)
  {
    hide StackSet, Set, Held, Shown, Clear, FrameSet;
    FlushSet(cls, typed, p);
    FlushHeld(p);
    var q := p.Flush();
    var top := q.Top();
    var below, frame, style := q.stack[..top], q.stack[top], p.stack[top].style.value;
    assert q.stack == below + [frame] && frame.style == Some(style);
    SetBelow(cls, typed, below, frame);
    HeldOn(below, frame);
    var o := |Held(below)| + |style.Delimiter()|;
    FrameParts(cls, typed, o, frame);
    SetMerge(cls, typed, o, frame.nodes);
    ShownMerge(frame.nodes);
    assert Styles(cls, typed, o, o + |Shown(frame.nodes)|, style);
    SetStyled(cls, typed, |Held(below)|, style, Merge(frame.nodes));
    AddSet(cls, typed, Parser(below, ""), Styled(style, Merge(frame.nodes)));
  }

  lemma FrameParts(cls: Classes, typed: string, o: nat, frame: Frame)
    requires FrameSet(cls, typed, o, frame)
    ensures Set(cls, typed, o, frame.nodes) && (frame.style.Some? ==> Opened(cls, typed, o, frame.style.value))
  {
  }

  // ----- characters, as typed and in the line -----

  lemma FirstTyped(cls: Classes, s: string, i: nat)
    requires cls.Valid() && i < |s|
    ensures TypedAt(cls, s, i) != ""
    ensures var c := TypedAt(cls, s, i)[0]; (cls.space(c) ==> cls.space(s[i])) && (cls.Word(c) ==> cls.Word(s[i]))
    ensures TypedAt(cls, s, i)[|TypedAt(cls, s, i)| - 1] == s[NextAt(cls, s, i) - 1]
  {
    hide LinkEnd, ReferenceAt, Find;
    var n := NextAt(cls, s, i);
    if ConstructAt(cls, s, i).Escaped? {
      assert Punctuation(s[i + 1]);
    } else {
      assert s[i..n][0] == s[i] && s[i..n][|s[i..n]| - 1] == s[n - 1];
    }
  }

  /** At position i, `typed` has been read up to where the parser stands. */
  ghost predicate Stands(cls: Classes, typed: string, s: string, i: nat, p: Parser) {
    && i <= |s| && typed == HeldBy(p) + Typed(cls, s, i)
    && (i == 0 <==> HeldBy(p) == "") && (i > 0 ==> HeldBy(p)[|HeldBy(p)| - 1] == s[i - 1])
  }

  lemma NextStands(cls: Classes, typed: string, s: string, i: nat, p: Parser)
    requires cls.Valid() && p.Valid() && i < |s| && Stands(cls, typed, s, i, p)
    ensures Stands(cls, typed, s, NextAt(cls, s, i), Step(cls, s, i, p))
  {
    hide HeldBy, Step, TypedAt, ConstructAt, NextAt;
    FirstTyped(cls, s, i);
    StepHeld(cls, s, i, p);
    var t, next := TypedAt(cls, s, i), NextAt(cls, s, i);
    assert Typed(cls, s, i) == t + Typed(cls, s, next);
    assert HeldBy(p) + (t + Typed(cls, s, next)) == HeldBy(p) + t + Typed(cls, s, next);
    assert (HeldBy(p) + t)[|HeldBy(p) + t| - 1] == t[|t| - 1];
  }

  /** What stands after the delimiter at i, as typed. */
  lemma AfterDelim(cls: Classes, typed: string, s: string, i: nat, p: Parser, style: Style)
    requires cls.Valid() && p.Valid() && i < |s| && Stands(cls, typed, s, i, p) && ConstructAt(cls, s, i) == Delim(style)
    ensures var e, j := |HeldBy(p)| + |style.Delimiter()|, i + |style.Delimiter()|;
            && j == NextAt(cls, s, i) <= |s| && e <= |typed| && (j == |s| <==> e == |typed|)
            && (j < |s| ==> (cls.space(typed[e]) ==> cls.space(s[j])) && (cls.Word(typed[e]) ==> cls.Word(s[j])))
  {
    hide HeldBy, ConstructAt, TypedAt;
    NodeTyped(cls, s, i);
    DelimNext(cls, s, i, style);
    var delim, j := style.Delimiter(), i + |style.Delimiter()|;
    assert Typed(cls, s, i) == delim + Typed(cls, s, j);
    assert typed == HeldBy(p) + delim + Typed(cls, s, j);
    if j < |s| {
      FirstTyped(cls, s, j);
      assert typed[|HeldBy(p)| + |delim|] == Typed(cls, s, j)[0] == TypedAt(cls, s, j)[0];
    }
  }

  lemma DelimNext(cls: Classes, s: string, i: nat, style: Style)
    requires i < |s| && ConstructAt(cls, s, i) == Delim(style)
    ensures NextAt(cls, s, i) == i + |style.Delimiter()|
  {
    hide ConstructAt;
  }

  /** A delimiter that may open has no space after it, as typed. */
  lemma OpensTyped(cls: Classes, typed: string, s: string, i: nat, p: Parser, style: Style)
    requires cls.Valid() && p.Valid() && i < |s| && Stands(cls, typed, s, i, p) && ConstructAt(cls, s, i) == Delim(style)
    requires i + |style.Delimiter()| <= |s| && CanOpen(cls, s, i, style)
    ensures Opened(cls, typed, |HeldBy(p)| + |style.Delimiter()|, style)
  {
    hide ConstructAt, HeldBy, Typed;
    AfterDelim(cls, typed, s, i, p, style);
    assert i > 0 ==> typed[|HeldBy(p)| - 1] == s[i - 1];
  }

  lemma ClosesTyped(cls: Classes, typed: string, s: string, i: nat, p: Parser, style: Style)
    requires cls.Valid() && p.Valid() && i < |s| && Stands(cls, typed, s, i, p) && ConstructAt(cls, s, i) == Delim(style)
    requires i + |style.Delimiter()| <= |s| && CanClose(cls, s, i, style)
    ensures var e := |HeldBy(p)|;
            0 < e <= |typed| && !cls.space(typed[e - 1]) && (style.Italic? ==> Clear(cls, typed, e + |style.Delimiter()| + 1))
  {
    hide ConstructAt, HeldBy, Typed;
    AfterDelim(cls, typed, s, i, p, style);
    assert typed[|HeldBy(p)| - 1] == s[i - 1];
  }

  lemma DelimitSet(cls: Classes, typed: string, s: string, i: nat, p: Parser, style: Style)
    requires cls.Valid() && p.Valid() && i < |s| && Stands(cls, typed, s, i, p) && ConstructAt(cls, s, i) == Delim(style)
    requires StackSet(cls, typed, p.stack)
    ensures StackSet(cls, typed, Step(cls, s, i, p).stack)
  {
    hide StackSet, ConstructAt, HeldBy, Stands, CanOpen, CanClose, Opened, Clear;
    if Closes(cls, s, i, style, p) {
      ClosesTyped(cls, typed, s, i, p, style);
      CloseSet(cls, typed, p);
    } else if CanOpen(cls, s, i, style) && p.Top() < 2 {
      OpensTyped(cls, typed, s, i, p, style);
      OpenSet(cls, typed, p, style);
    }
  }

  lemma StepSet(cls: Classes, typed: string, s: string, i: nat, p: Parser)
    requires cls.Valid() && p.Valid() && i < |s| && Stands(cls, typed, s, i, p) && StackSet(cls, typed, p.stack)
    ensures StackSet(cls, typed, Step(cls, s, i, p).stack)
  {
    hide StackSet, ConstructAt, Set, HeldBy, Stands, Delimit;
    match ConstructAt(cls, s, i)
    case Span(code) =>
      SetText(cls, typed, |HeldBy(p)|, Code(code));
      AddSet(cls, typed, p, Code(code));
    case Url(url) =>
      SetText(cls, typed, |HeldBy(p)|, Link(url));
      AddSet(cls, typed, p, Link(url));
    case Member(m) =>
      SetText(cls, typed, |HeldBy(p)|, Reference(m));
      AddSet(cls, typed, p, Reference(m));
    case Delim(style) => DelimitSet(cls, typed, s, i, p, style);
    case _ =>
  }

  lemma {:induction false} RunSet(cls: Classes, typed: string, s: string, i: nat, p: Parser)
    requires cls.Valid() && p.Valid() && Stands(cls, typed, s, i, p) && StackSet(cls, typed, p.stack)
    ensures StackSet(cls, typed, Run(cls, s, i, p).stack)
    decreases |s| - i
  {
    hide StackSet, NextAt, Step, HeldBy, Typed;
    if i < |s| {
      StepSet(cls, typed, s, i, p);
      NextStands(cls, typed, s, i, p);
      RunSet(cls, typed, s, NextAt(cls, s, i), Step(cls, s, i, p));
    }
  }

  /** A frame that nothing closed becomes text in the one below it. */
  lemma JoinedSet(cls: Classes, typed: string, b: seq<Frame>, parent: Frame, top: Frame)
    requires StackSet(cls, typed, b + [parent] + [top])
    ensures StackSet(cls, typed, b + [parent.(nodes := parent.nodes + [Text(top.Delimiter())] + top.nodes)])
  {
    hide Set, Held, Shown;
    var delim := Text(top.Delimiter());
    SetBelow(cls, typed, b + [parent], top);
    SetBelow(cls, typed, b, parent);
    HeldOn(b, parent);
    var o := |Held(b)| + |parent.Delimiter()|;
    SetText(cls, typed, o + |Shown(parent.nodes)|, delim);
    SetJoin(cls, typed, o, parent.nodes, [delim]);
    ShownJoin(parent.nodes, [delim]);
    ShownOne(delim);
    SetJoin(cls, typed, o, parent.nodes + [delim], top.nodes);
    SetBelow(cls, typed, b, parent.(nodes := parent.nodes + [delim] + top.nodes));
  }

  lemma {:induction false} UnwindSet(cls: Classes, typed: string, stack: seq<Frame>)
    requires stack != [] && stack[0].style.None? && StackSet(cls, typed, stack)
    ensures Set(cls, typed, 0, Unwind(stack))
    decreases |stack|
  {
    hide Set, Held, Shown, StackSet;
    if |stack| == 1 {
      BottomSet(cls, typed, stack);
    } else {
      var n := |stack| - 2;
      var parent, top, b := stack[n], stack[n + 1], stack[..n];
      assert stack == b + [parent] + [top];
      JoinedSet(cls, typed, b, parent, top);
      UnwindSet(cls, typed, b + [parent.(nodes := parent.nodes + [Text(top.Delimiter())] + top.nodes)]);
    }
  }

  lemma BottomSet(cls: Classes, typed: string, stack: seq<Frame>)
    requires |stack| == 1 && stack[0].style.None? && StackSet(cls, typed, stack)
    ensures Set(cls, typed, 0, stack[0].nodes)
  {
    hide Set, Held, Shown;
    assert FrameSet(cls, typed, Offset(stack, 0), stack[0]);
    assert stack[..0] == [];
    NoneHeld();
  }

  lemma EmptySet(cls: Classes, typed: string)
    ensures StackSet(cls, typed, EMPTY.stack)
  {
  }
}
