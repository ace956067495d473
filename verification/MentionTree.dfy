module MentionTree {
  /** Constructs and the parsed tree: a line's tree holds one reference node for
      each reference the parser reads in the line, in their order. */

  import opened Common
  import opened ChatGrammar
  import opened MentionReading
  import opened Mentions
  import P = Payload

  /** The members a tree refers to, one for each reference node at any depth,
      in order. */
  function References(nodes: seq<Inline>): seq<P.ID>
    decreases nodes
  {
    if nodes == [] then []
    else
      (match nodes[0]
       case Reference(member) => [member]
       case Styled(_, children) => References(children)
       case _ => [])
      + References(nodes[1..])
  }

  lemma {:induction false} ReferencesJoin(a: seq<Inline>, b: seq<Inline>)
    ensures References(a + b) == References(a) + References(b)
  {
    if a == [] {
      assert a + b == b;
    } else {
      assert (a + b)[1..] == a[1..] + b;
      ReferencesJoin(a[1..], b);
    }
  }

  lemma {:induction false} ReferencesMerge(nodes: seq<Inline>)
    ensures References(Merge(nodes)) == References(nodes)
  {
    if nodes != [] {
      ReferencesMerge(nodes[1..]);
      var rest := Merge(nodes[1..]);
      if nodes[0].Text? && rest != [] && rest[0].Text? {
        assert Merge(nodes)[1..] == rest[1..];
      } else {
        assert Merge(nodes)[1..] == rest;
      }
    }
  }

  /** What the frames of the stack hold, from the line itself up. */
  function Held(stack: seq<Frame>): seq<P.ID> {
    if stack == [] then [] else Held(stack[..|stack| - 1]) + References(stack[|stack| - 1].nodes)
  }

  lemma HeldOn(stack: seq<Frame>, frame: Frame)
    ensures Held(stack + [frame]) == Held(stack) + References(frame.nodes)
  {
    assert (stack + [frame])[..|stack|] == stack;
  }

  /** What a node adds at the end. */
  function Added(node: Inline): seq<P.ID> {
    References([node])
  }

  lemma Adds(node: Inline)
    ensures Added(node) == match node case Reference(m) => [m] case Styled(_, children) => References(children) case _ => []
  {
    var nodes := [node];
    assert nodes[0] == node && References(nodes[1..]) == [];
  }

  lemma NodeHeld(p: Parser, node: Inline)
    requires p.Valid()
    ensures Held(p.WithNode(node).stack) == Held(p.stack) + Added(node)
  {
    hide References;
    var top := p.Top();
    ReferencesJoin(p.stack[top].nodes, [node]);
    assert p.WithNode(node).stack[..top] == p.stack[..top];
  }

  lemma FlushHeld(p: Parser)
    requires p.Valid()
    ensures Held(p.Flush().stack) == Held(p.stack)
  {
    hide Held;
    if p.text != "" {
      Adds(Text(p.text));
      NodeHeld(p, Text(p.text));
    }
  }

  lemma AddHeld(p: Parser, node: Inline)
    requires p.Valid()
    ensures Held(p.Add(node).stack) == Held(p.stack) + Added(node)
  {
    hide Held, References;
    FlushHeld(p);
    NodeHeld(p.Flush(), node);
  }

  lemma CloseHeld(p: Parser)
    requires |p.stack| > 1 && p.stack[p.Top()].style.Some?
    ensures Held(p.Close().stack) == Held(p.stack)
  {
    hide References, Added;
    FlushHeld(p);
    var q := p.Flush();
    var top := q.Top();
    ReferencesMerge(q.stack[top].nodes);
    Adds(Styled(p.stack[top].style.value, Merge(q.stack[top].nodes)));
    AddHeld(Parser(q.stack[..top], ""), Styled(p.stack[top].style.value, Merge(q.stack[top].nodes)));
  }

  lemma OpenHeld(p: Parser, style: Style)
    requires p.Valid()
    ensures Held(p.Open(style).stack) == Held(p.stack)
  {
    hide Held;
    FlushHeld(p);
    HeldOn(p.Flush().stack, Frame(Some(style), []));
  }

  /** What the construct at i refers to. */
  function Named(cls: Classes, s: string, i: nat): seq<P.ID>
    requires i < |s|
  {
    match ConstructAt(cls, s, i)
    case Member(id) => [id]
    case _ => []
  }

  lemma StepHeld(cls: Classes, s: string, i: nat, p: Parser)
    requires p.Valid() && i < |s|
    ensures Held(Step(cls, s, i, p).stack) == Held(p.stack) + Named(cls, s, i)
  {
    hide Held, ConstructAt, CanOpen, CanClose;
    match ConstructAt(cls, s, i)
    case Span(code) =>
      Adds(Code(code));
      AddHeld(p, Code(code));
    case Url(url) =>
      Adds(Link(url));
      AddHeld(p, Link(url));
    case Member(m) =>
      Adds(Reference(m));
      AddHeld(p, Reference(m));
    case Delim(style) =>
      if Closes(cls, s, i, style, p) {
        CloseHeld(p);
      } else if CanOpen(cls, s, i, style) && p.Top() < 2 {
        OpenHeld(p, style);
      }
    case _ =>
  }

  /** The members the constructs from i up to position `end` refer to, in order. */
  function Read(cls: Classes, s: string, i: nat, end: nat): seq<P.ID>
    requires i <= |s|
    decreases |s| - i
  {
    if i == |s| || end <= i then [] else Named(cls, s, i) + Read(cls, s, NextAt(cls, s, i), end)
  }

  lemma {:induction false} RunHeld(cls: Classes, s: string, i: nat, p: Parser)
    requires p.Valid() && i <= |s|
    ensures Held(Run(cls, s, i, p).stack) == Held(p.stack) + Read(cls, s, i, |s|)
    decreases |s| - i
  {
    hide Held, Step, ConstructAt, NextAt, Named;
    if i < |s| {
      StepHeld(cls, s, i, p);
      RunHeld(cls, s, NextAt(cls, s, i), Step(cls, s, i, p));
    }
  }

  lemma HeldBelow(stack: seq<Frame>)
    requires |stack| > 1
    ensures var n := |stack| - 2;
            Held(stack) == Held(stack[..n]) + References(stack[n].nodes) + References(stack[n + 1].nodes)
  {
    hide References;
    var n := |stack| - 2;
    HeldOn(stack[..n], stack[n]);
    assert stack[..n + 1] == stack[..n] + [stack[n]];
  }

  lemma {:induction false} UnwindHeld(stack: seq<Frame>)
    requires stack != []
    ensures References(Unwind(stack)) == Held(stack)
    decreases |stack|
  {
    hide References, Held;
    if |stack| == 1 {
      HeldOn([], stack[0]);
      NoneHeld();
      assert [] + [stack[0]] == stack;
    } else {
      var n := |stack| - 2;
      var parent, delim := stack[n], Text(stack[n + 1].Delimiter());
      Adds(delim);
      ReferencesJoin(parent.nodes, [delim]);
      ReferencesJoin(parent.nodes + [delim], stack[n + 1].nodes);
      var joined := parent.(nodes := parent.nodes + [delim] + stack[n + 1].nodes);
      HeldOn(stack[..n], joined);
      HeldBelow(stack);
      UnwindHeld(stack[..n] + [joined]);
    }
  }

  lemma NoneHeld()
    ensures Held([]) == [] && Held(EMPTY.stack) == []
  {
  }

  /** For every line: its tree's reference nodes are the references read in
      the line, in order, and no others. */
  lemma TreeReferences(cls: Classes, line: string)
    ensures References(Inlines(cls, line)) == Read(cls, line, 0, |line|)
  {
    hide References, Run, Unwind, Merge, Read;
    var p := Run(cls, line, 0, EMPTY);
    RunHeld(cls, line, 0, EMPTY);
    FlushHeld(p);
    UnwindHeld(p.Flush().stack);
    ReferencesMerge(Unwind(p.Flush().stack));
    NoneHeld();
  }

  /** What is read up to a construct comes before what it refers to, and that
      before what is read from a later one on. */
  lemma {:induction false} ReadUpTo(cls: Classes, s: string, i: nat, at: nat, end: nat)
    requires i <= |s| && at < end <= |s| && Reaches(cls, s, i, at)
    ensures Read(cls, s, i, at) + Named(cls, s, at) <= Read(cls, s, i, end)
    decreases |s| - i
  {
    hide NextAt, Named, Reaches;
    ReachesUp(cls, s, i, at);
    if i < at {
      ReachesNext(cls, s, i, at);
      var n := NextAt(cls, s, i);
      ReadUpTo(cls, s, n, at, end);
      assert Read(cls, s, i, at) == Named(cls, s, i) + Read(cls, s, n, at);
    }
  }

  /** The reference node of the construct at `at`: as many come before it as
      are read before. */
  function Node(cls: Classes, f: string, at: nat): nat {
    |Read(cls, f, 0, at)|
  }

  lemma NodeAt(cls: Classes, f: string, ins: Inserted)
    requires ReadsBack(cls, f, ins)
    ensures ins.at < |f| && Named(cls, f, ins.at) == [ins.member] && Reaches(cls, f, 0, ins.at)
  {
    hide Reaches, ItalicClosesAt;
  }

  lemma OwnNode(cls: Classes, f: string, ins: Inserted)
    requires ReadsBack(cls, f, ins)
    ensures var refs := References(Inlines(cls, f));
            Node(cls, f, ins.at) < |refs| && refs[Node(cls, f, ins.at)] == ins.member
  {
    hide ReadsBack, References, Inlines, Read, Named, Reaches;
    NodeAt(cls, f, ins);
    TreeReferences(cls, f);
    ReadUpTo(cls, f, 0, ins.at, |f|);
  }

  lemma NodesRise(cls: Classes, f: string, ins: Inserted, later: Inserted)
    requires ReadsBack(cls, f, ins) && ReadsBack(cls, f, later) && ins.at < later.at
    ensures Node(cls, f, ins.at) < Node(cls, f, later.at)
  {
    hide ReadsBack, Read, Named, Reaches;
    NodeAt(cls, f, ins);
    NodeAt(cls, f, later);
    ReadUpTo(cls, f, 0, ins.at, later.at);
  }

  ghost predicate Rising(refs: seq<Inserted>, from: nat) {
    && (forall k :: 0 <= k < |refs| ==> from <= refs[k].at)
    && forall j, k :: 0 <= j < k < |refs| ==> refs[j].at < refs[k].at
  }

  lemma AfterLonger(cls: Classes, s: string, t: Token, lookup: string -> Option<P.ID>, from: nat, done: string)
    requires from <= t.start < t.end <= |s|
    ensures |After(cls, s, t, lookup, from, done)| > |done| + t.start - from
  {
    hide Escapes;
    var r := |done| + t.start - from;
    match lookup(s[t.start + 1..t.end])
    case None => assert |done + s[from..t.end]| == r + t.end - t.start;
    case Some(id) => assert |ReferenceText(id)| > 0;
  }

  lemma {:induction false} InsertionsRise(cls: Classes, s: string, tokens: seq<Token>, lookup: string -> Option<P.ID>, from: nat, done: string)
    requires from <= |s|
    ensures Rising(Convert(cls, s, tokens, lookup, from, done).refs, |done|)
    decreases |tokens|
  {
    hide After;
    if tokens != [] && from <= tokens[0].start < tokens[0].end <= |s| {
      var t := tokens[0];
      AfterLonger(cls, s, t, lookup, from, done);
      InsertionsRise(cls, s, tokens[1..], lookup, t.end, After(cls, s, t, lookup, from, done));
    }
  }

  /** Every reference put into a line has a reference node of its own in the
      converted line's tree, for that member and in the same order. */
  lemma InsertedReferencesAreInTheTree(cls: Classes, line: string, tokens: seq<Token>, lookup: string -> Option<P.ID>,
                                       reserved: string -> bool)
    requires cls.Valid() && Handles(cls, line, tokens, 0, reserved)
    ensures var c := Convert(cls, line, tokens, lookup, 0, "");
            var tree := References(Inlines(cls, c.text));
            && (forall k :: 0 <= k < |c.refs| ==>
                  Node(cls, c.text, c.refs[k].at) < |tree| && tree[Node(cls, c.text, c.refs[k].at)] == c.refs[k].member)
            && forall j, k :: 0 <= j < k < |c.refs| ==> Node(cls, c.text, c.refs[j].at) < Node(cls, c.text, c.refs[k].at)
  {
    hide Convert, Handles, ReadsBack, References, Inlines, Node;
    var c := Convert(cls, line, tokens, lookup, 0, "");
    InsertedReferencesRead(cls, line, tokens, lookup, reserved);
    InsertionsRise(cls, line, tokens, lookup, 0, "");
    forall k | 0 <= k < |c.refs|
      ensures Node(cls, c.text, c.refs[k].at) < |References(Inlines(cls, c.text))|
              && References(Inlines(cls, c.text))[Node(cls, c.text, c.refs[k].at)] == c.refs[k].member
    {
      OwnNode(cls, c.text, c.refs[k]);
    }
    forall j, k | 0 <= j < k < |c.refs|
      ensures Node(cls, c.text, c.refs[j].at) < Node(cls, c.text, c.refs[k].at)
    {
      NodesRise(cls, c.text, c.refs[j], c.refs[k]);
    }
  }
}
