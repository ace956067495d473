module ChatNormalForm {
  /** Every line parses to one shape: no empty text, no texts side by side, and
      bold and italic nested at most two deep, however the line was typed. */

  import opened ChatGrammar

  lemma {:induction false} NodeDeeper(node: Inline, depth: nat, more: nat)
    requires NodeOk(node, depth) && depth <= more
    ensures NodeOk(node, more)
    decreases depth
  {
    if node.Styled? {
      var inner: nat := depth - 1;
      assert Tidy(node.children, inner) && Raw(node.children, inner);
      forall k | 0 <= k < |node.children| ensures NodeOk(node.children[k], more - 1) {
        assert NodeOk(node.children[k], inner);
        NodeDeeper(node.children[k], inner, more - 1);
      }
    }
  }

  lemma RawDeeper(nodes: seq<Inline>, depth: nat, more: nat)
    requires Raw(nodes, depth) && depth <= more
    ensures Raw(nodes, more)
  {
    forall k | 0 <= k < |nodes| ensures NodeOk(nodes[k], more) {
      NodeDeeper(nodes[k], depth, more);
    }
  }

  lemma {:induction false} MergeTidy(nodes: seq<Inline>, depth: nat)
    requires Raw(nodes, depth)
    ensures Tidy(Merge(nodes), depth)
  {
    if nodes != [] {
      assert Raw(nodes[1..], depth);
      MergeTidy(nodes[1..], depth);
      hide NodeOk;
      var rest, merged := Merge(nodes[1..]), Merge(nodes);
      if nodes[0].Text? && rest != [] && rest[0].Text? {
        assert NodeOk(nodes[0], depth) && NodeOk(rest[0], depth);
        assert NodeOk(Text(nodes[0].text + rest[0].text), depth) by { JoinedText(nodes[0], rest[0], depth); }
        assert forall k :: 0 < k < |merged| ==> merged[k] == rest[k];
      } else {
        assert forall k :: 0 < k < |merged| ==> merged[k] == rest[k - 1];
      }
    }
  }

  lemma JoinedText(a: Inline, b: Inline, depth: nat)
    requires a.Text? && b.Text? && NodeOk(a, depth)
    ensures NodeOk(Text(a.text + b.text), depth)
  {
  }

  /** What holds of the stack between constructs. */
  ghost predicate StackOk(stack: seq<Frame>) {
    && 1 <= |stack| <= 3
    && (forall k :: 0 <= k < |stack| ==> (stack[k].style.Some? <==> k > 0))
    && (forall k :: 0 <= k < |stack| ==> Raw(stack[k].nodes, 2 - k))
  }

  lemma NodeAdded(p: Parser, node: Inline)
    requires StackOk(p.stack) && NodeOk(node, 2 - p.Top())
    ensures StackOk(p.WithNode(node).stack)
  {
    hide NodeOk;
    var nodes := p.stack[p.Top()].nodes;
    assert Raw(nodes, 2 - p.Top());
    assert Raw(nodes + [node], 2 - p.Top());
  }

  lemma FlushOk(p: Parser)
    requires StackOk(p.stack)
    ensures StackOk(p.Flush().stack)
  {
    if p.text != "" {
      NodeAdded(p, Text(p.text));
    }
  }

  lemma AddOk(p: Parser, node: Inline)
    requires StackOk(p.stack) && NodeOk(node, 2 - p.Top())
    ensures StackOk(p.Add(node).stack)
  {
    FlushOk(p);
    NodeAdded(p.Flush(), node);
  }

  lemma CloseOk(p: Parser)
    requires StackOk(p.stack) && p.Top() > 0
    ensures StackOk(p.Close().stack)
  {
    FlushOk(p);
    var q := p.Flush();
    var top := q.Top();
    MergeTidy(q.stack[top].nodes, 2 - top);
    assert NodeOk(Styled(p.stack[top].style.value, Merge(q.stack[top].nodes)), 2 - (top - 1));
    hide NodeOk, Raw;
    assert StackOk(q.stack[..top]);
    AddOk(Parser(q.stack[..top], ""), Styled(p.stack[top].style.value, Merge(q.stack[top].nodes)));
  }

  lemma OpenOk(p: Parser, style: Style)
    requires StackOk(p.stack) && p.Top() < 2
    ensures StackOk(p.Open(style).stack)
  {
    FlushOk(p);
    assert Raw([], 2 - |p.stack|);
    hide Raw;
  }

  lemma StepOk(cls: Classes, s: string, i: nat, p: Parser)
    requires StackOk(p.stack) && i < |s|
    ensures StackOk(Step(cls, s, i, p).stack)
  {
    match ConstructAt(cls, s, i)
    case Span(code) => AddOk(p, Code(code));
    case Member(id) => AddOk(p, Reference(id));
    case Url(url) => AddOk(p, Link(url));
    case Delim(style) =>
      if Closes(cls, s, i, style, p) {
        CloseOk(p);
      } else if CanOpen(cls, s, i, style) && p.Top() < 2 {
        OpenOk(p, style);
      }
    case _ =>
  }

  lemma {:induction false} RunOk(cls: Classes, s: string, i: nat, p: Parser)
    requires StackOk(p.stack) && i <= |s|
    ensures StackOk(Run(cls, s, i, p).stack)
    decreases |s| - i
  {
    if i < |s| {
      StepOk(cls, s, i, p);
      RunOk(cls, s, NextAt(cls, s, i), Step(cls, s, i, p));
    }
  }

  lemma {:induction false} UnwindRaw(stack: seq<Frame>)
    requires StackOk(stack)
    ensures Raw(Unwind(stack), 2)
    decreases |stack|
  {
    var top := |stack| - 1;
    if top > 0 {
      var parent := stack[top - 1];
      var nodes := parent.nodes + [Text(stack[top].Delimiter())] + stack[top].nodes;
      assert NodeOk(Text(stack[top].Delimiter()), 2 - (top - 1));
      RawDeeper(stack[top].nodes, 2 - top, 2 - (top - 1));
      hide NodeOk;
      assert Raw(parent.nodes, 2 - (top - 1));
      assert Raw(nodes, 2 - (top - 1));
      var rest := stack[..top - 1] + [parent.(nodes := nodes)];
      assert forall k :: 0 <= k < |rest| ==> Raw(rest[k].nodes, 2 - k);
      UnwindRaw(rest);
    }
  }

  /** Every parsed line is in normal form. */
  lemma InlinesAreTidy(cls: Classes, line: string)
    ensures Tidy(Inlines(cls, line), 2)
  {
    assert StackOk(EMPTY.stack);
    RunOk(cls, line, 0, EMPTY);
    FlushOk(Run(cls, line, 0, EMPTY));
    var stack := Run(cls, line, 0, EMPTY).Flush().stack;
    UnwindRaw(stack);
    MergeTidy(Unwind(stack), 2);
  }

  /** Normal form is what merging leaves alone. */
  lemma {:induction false} TidyIsMerged(nodes: seq<Inline>, depth: nat)
    requires Tidy(nodes, depth)
    ensures Merge(nodes) == nodes
  {
    if nodes != [] {
      hide NodeOk;
      assert Tidy(nodes[1..], depth);
      TidyIsMerged(nodes[1..], depth);
      assert nodes == [nodes[0]] + nodes[1..];
    }
  }
}
