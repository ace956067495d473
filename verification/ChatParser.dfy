module ChatParser {
  /** The chat_v1 parser as a program (internal/conversation/chatv1.go): a stack
      that each construct updates, text nodes merged in place, and a table of
      closing fences. Each part computes exactly what ChatGrammar and ChatBlocks
      define. */

  import opened Common
  import opened ChatGrammar
  import opened ChatBlocks

  // ----- merging text in place -----

  lemma MergeTwo(a: string, b: string, rest: seq<Inline>)
    ensures Merge([Text(a), Text(b)] + rest) == Merge([Text(a + b)] + rest)
  {
    var all := [Text(a), Text(b)] + rest;
    assert all[1..] == [Text(b)] + rest && all[1..][1..] == rest;
    assert ([Text(a + b)] + rest)[1..] == rest;
    if Merge(rest) != [] && Merge(rest)[0].Text? {
      assert (a + b) + Merge(rest)[0].text == a + (b + Merge(rest)[0].text);
    }
  }

  lemma MergeFirst(nodes: seq<Inline>)
    requires nodes != []
    ensures Merge(nodes) != [] && (Merge(nodes)[0].Text? <==> nodes[0].Text?)
  {
  }

  /** A node with no text beside it to join stays. */
  lemma MergeApart(node: Inline, rest: seq<Inline>)
    requires !(node.Text? && rest != [] && rest[0].Text?)
    ensures Merge([node] + rest) == [node] + Merge(rest)
  {
    assert ([node] + rest)[1..] == rest;
    if rest != [] {
      MergeFirst(rest);
    }
  }

  /** With i nodes read, `merged` is settled and `text` is collected, if any. */
  ghost predicate Progress(nodes: seq<Inline>, i: nat, pending: bool, text: string, merged: seq<Inline>)
    requires i <= |nodes|
  {
    && (!pending ==> text == "")
    && Merge(nodes) == merged + Merge(if pending then [Text(text)] + nodes[i..] else nodes[i..])
  }

  lemma ProgressStarts(nodes: seq<Inline>)
    ensures Progress(nodes, 0, false, "", [])
  {
    assert nodes[0..] == nodes && [] + Merge(nodes) == Merge(nodes);
  }

  lemma ProgressOther(nodes: seq<Inline>, i: nat, text: string, merged: seq<Inline>)
    requires i < |nodes| && !nodes[i].Text? && Progress(nodes, i, false, text, merged)
    ensures Progress(nodes, i + 1, false, text, merged + [nodes[i]])
  {
    MergeApart(nodes[i], nodes[i + 1..]);
    assert nodes[i..] == [nodes[i]] + nodes[i + 1..];
    assert merged + ([nodes[i]] + Merge(nodes[i + 1..])) == (merged + [nodes[i]]) + Merge(nodes[i + 1..]);
  }

  lemma ProgressText(nodes: seq<Inline>, i: nat, pending: bool, text: string, merged: seq<Inline>)
    requires i < |nodes| && nodes[i].Text? && Progress(nodes, i, pending, text, merged)
    ensures Progress(nodes, i + 1, true, text + nodes[i].text, merged)
  {
    assert nodes[i..] == [nodes[i]] + nodes[i + 1..];
    if pending {
      MergeTwo(text, nodes[i].text, nodes[i + 1..]);
      assert [Text(text)] + nodes[i..] == [Text(text), Text(nodes[i].text)] + nodes[i + 1..];
    } else {
      assert text + nodes[i].text == nodes[i].text;
    }
  }

  lemma ProgressEnds(nodes: seq<Inline>, i: nat, text: string, merged: seq<Inline>)
    requires i <= |nodes| && (i < |nodes| ==> !nodes[i].Text?) && Progress(nodes, i, true, text, merged)
    ensures Progress(nodes, i, false, "", merged + [Text(text)])
  {
    MergeApart(Text(text), nodes[i..]);
    assert merged + ([Text(text)] + Merge(nodes[i..])) == (merged + [Text(text)]) + Merge(nodes[i..]);
  }

  lemma ProgressDone(nodes: seq<Inline>, text: string, merged: seq<Inline>)
    requires Progress(nodes, |nodes|, false, text, merged)
    ensures merged == Merge(nodes)
  {
    assert merged + [] == merged;
  }

  /** mergeText: the merged nodes take the front of the array they came in. */
  method MergeText(nodes: array<Inline>) returns (m: nat)
    modifies nodes
    ensures m <= nodes.Length && nodes[..m] == Merge(old(nodes[..]))
  {
    hide Progress, Merge;
    ghost var was := nodes[..];
    var i, text, pending := 0, "", false;
    m := 0;
    ProgressStarts(was);
    while i < nodes.Length
      invariant m <= i <= nodes.Length && (pending ==> m < i < nodes.Length && was[i].Text?)
      invariant forall k :: i <= k < nodes.Length ==> nodes[k] == was[k]
      invariant Progress(was, i, pending, text, nodes[..m])
    {
      var node := nodes[i];
      ghost var merged := nodes[..m];
      if !node.Text? {
        ProgressOther(was, i, text, merged);
        nodes[m] := node;
        m := m + 1;
        assert nodes[..m] == merged + [node];
      } else {
        ProgressText(was, i, pending, text, merged);
        text, pending := text + node.text, true;
        if i + 1 == nodes.Length || !nodes[i + 1].Text? {
          ProgressEnds(was, i + 1, text, merged);
          nodes[m] := Text(text);
          m := m + 1;
          assert nodes[..m] == merged + [Text(text)];
          text, pending := "", false;
        }
      }
      i := i + 1;
    }
    ProgressDone(was, text, nodes[..m]);
  }

  method Merged(nodes: seq<Inline>) returns (merged: seq<Inline>)
    ensures merged == Merge(nodes)
  {
    var a := new Inline[|nodes|](k requires 0 <= k < |nodes| => nodes[k]);
    assert a[..] == nodes;
    var m := MergeText(a);
    merged := a[..m];
  }

  // ----- one line -----

  class InlineParser {
    const cls: Classes
    const line: string
    var stack: seq<Frame>
    var text: string
    var literal: bool

    ghost function View(): Parser
      reads this
    {
      Parser(stack, text)
    }

    constructor (cls: Classes, line: string)
      ensures View() == EMPTY && this.cls == cls && this.line == line
    {
      this.cls, this.line, stack, text, literal := cls, line, [Frame(None, [])], "", false;
    }

    method WriteText(more: string)
      modifies this`text
      ensures View() == old(View()).Write(more)
    {
      text := text + more;
    }

    method Flush()
      requires stack != []
      modifies this`stack, this`text
      ensures View() == old(View()).Flush()
    {
      if |text| > 0 {
        var top := stack[|stack| - 1];
        stack := stack[|stack| - 1 := top.(nodes := top.nodes + [Text(text)])];
        text := "";
      }
    }

    method Add(node: Inline)
      requires stack != []
      modifies this`stack, this`text
      ensures View() == old(View()).Add(node)
    {
      Flush();
      var top := stack[|stack| - 1];
      stack := stack[|stack| - 1 := top.(nodes := top.nodes + [node])];
    }

    /** delimiter: closes the innermost open one of its kind, else opens one
        unless two are open, else is text. */
    method Delimiter(i: nat, style: Style)
      requires stack != [] && i + |style.Delimiter()| <= |line|
      modifies this
      ensures View() == Delimit(cls, line, i, style, old(View())) && literal
    {
      literal := true;
      var j := i + |style.Delimiter()|;
      var hasBefore, hasAfter := i > 0, j < |line|;
      var canOpen := hasAfter && !cls.space(line[j]);
      var canClose := hasBefore && !cls.space(line[i - 1]);
      if style.Italic? {
        canOpen := canOpen && (!hasBefore || !cls.Word(line[i - 1]));
        canClose := canClose && (!hasAfter || !cls.Word(line[j]));
      }
      assert canOpen == CanOpen(cls, line, i, style) && canClose == CanClose(cls, line, i, style);
      hide CanOpen, CanClose;
      var top := |stack| - 1;
      if canClose && top > 0 && stack[top].style == Some(style) {
        Flush();
        var frame := stack[top];
        stack := stack[..top];
        var children := Merged(frame.nodes);
        Add(Styled(style, children));
      } else if canOpen && top < 2 {
        Flush();
        stack := stack + [Frame(Some(style), [])];
      } else {
        text := text + style.Delimiter();
      }
    }

    /** step: reads the construct at i, and says where the next one starts. */
    method Step(i: nat) returns (next: nat)
      requires stack != [] && i < |line|
      modifies this
      ensures View() == ChatGrammar.Step(cls, line, i, old(View())) && next == NextAt(cls, line, i)
      ensures literal <==> old(literal) || ConstructAt(cls, line, i).Literal()
    {
      var c := line[i];
      if c == '\\' && i + 1 < |line| && Punctuation(line[i + 1]) {
        WriteText([line[i + 1]]);
        return i + 2;
      }
      if c == '`' {
        var end := Find(line, '`', i + 1);
        if i + 1 < end < |line| {
          Add(Code(line[i + 1..end]));
          return end + 1;
        }
      } else if c == '<' {
        var id := ReferenceAt(line, i);
        if id.Some? {
          Add(Reference(id.value));
          return i + 39;
        }
      } else if c == 'h' {
        var end := LinkEnd(cls, line, i);
        if end > i {
          Add(Link(line[i..end]));
          return end;
        }
      } else if StartsAt(line, i, "**") {
        Delimiter(i, Bold);
        return i + 2;
      } else if c == '_' {
        Delimiter(i, Italic);
        return i + 1;
      }
      assert "**"[0] == '*';
      literal := true;
      WriteText([c]);
      return i + 1;
    }
  }

  /** parseInline: reads the line construct by construct, makes delimiters left
      open literal, and merges. */
  method ParseInline(cls: Classes, line: string) returns (nodes: seq<Inline>)
    ensures nodes == Inlines(cls, line)
  {
    var p := new InlineParser(cls, line);
    var i := 0;
    while i < |line|
      invariant i <= |line| && p.stack != [] && p.cls == cls && p.line == line
      invariant Run(cls, line, 0, EMPTY) == Run(cls, line, i, p.View())
    {
      p.literal := false;
      i := p.Step(i);
    }
    p.Flush();
    ghost var parsed := p.stack;
    var top := |p.stack| - 1;
    while top > 0
      invariant 0 <= top == |p.stack| - 1 && Unwind(parsed) == Unwind(p.stack)
    {
      var frame, parent := p.stack[top], p.stack[top - 1];
      p.stack := p.stack[..top - 1] + [parent.(nodes := parent.nodes + [Text(frame.Delimiter())] + frame.nodes)];
      top := top - 1;
    }
    nodes := Merged(p.stack[0].nodes);
  }

  /** closesItalic: whether the '_' at i closes an italic when the line is read. */
  method ClosesItalic(cls: Classes, line: string, i: nat) returns (closes: bool)
    requires i < |line|
    ensures closes == ItalicClosesAt(cls, line, i)
  {
    var p := new InlineParser(cls, line);
    var j := 0;
    while j < i
      invariant j <= |line| && p.stack != [] && p.cls == cls && p.line == line
      invariant ItalicClosesAt(cls, line, i) == ItalicClosesFrom(cls, line, j, i, p.View())
    {
      j := p.Step(j);
    }
    if j != i || line[i] != '_' {
      return false;
    }
    var depth := |p.stack|;
    var next := p.Step(i);
    closes := |p.stack| < depth;
  }

  // ----- a body -----

  /** For each line, where the next line that closes a fence is, counting itself. */
  method ClosingTable(lines: seq<string>) returns (closing: array<nat>)
    ensures fresh(closing) && closing.Length == |lines| + 1
    ensures forall i :: 0 <= i <= |lines| ==> closing[i] == FirstFence(lines, i)
  {
    closing := new nat[|lines| + 1](_ => |lines|);
    var i := |lines|;
    while i > 0
      invariant 0 <= i <= |lines|
      invariant forall k :: i <= k <= |lines| ==> closing[k] == FirstFence(lines, k)
    {
      i := i - 1;
      closing[i] := closing[i + 1];
      if lines[i] == FENCE {
        closing[i] := i;
      }
    }
  }

  lemma CodeFrom(cls: Classes, lines: seq<string>, i: nat, blocks: seq<Block>)
    requires i < |lines| && OpensCode(lines, i)
    ensures var end := FirstFence(lines, i + 1);
            BlocksFrom(cls, lines, i, blocks)
              == BlocksFrom(cls, lines, end + 1, blocks + [CodeBlock(lines[i + 1..end], FenceOpening(lines[i]).value)])
  {
  }

  lemma LineFrom(cls: Classes, lines: seq<string>, i: nat, blocks: seq<Block>)
    requires i < |lines| && !OpensCode(lines, i)
    ensures BlocksFrom(cls, lines, i, blocks)
         == BlocksFrom(cls, lines, i + 1, WithLine(blocks, Quoted(lines[i]), Inlines(cls, Content(lines[i]))))
  {
  }

  /** ParseChatV1: with the table, an opening line costs one lookup; the blocks
      are those found by searching for each closing fence anew. */
  method ParseChatV1(cls: Classes, body: string) returns (blocks: seq<Block>)
    ensures blocks == Parse(cls, body)
  {
    var lines := Lines(body);
    var closing := ClosingTable(lines);
    hide FenceOpening, FirstFence, Inlines, WithLine, Lines, BlocksFrom, Content;
    blocks := [];
    var i := 0;
    while i < |lines|
      invariant 0 <= i <= |lines| && Parse(cls, body) == BlocksFrom(cls, lines, i, blocks)
      invariant forall k :: 0 <= k <= |lines| ==> closing[k] == FirstFence(lines, k)
    {
      var language := FenceOpening(lines[i]);
      var end := closing[i + 1];
      assert end == FirstFence(lines, i + 1);
      if language.Some? && end < |lines| {
        CodeFrom(cls, lines, i, blocks);
        blocks := blocks + [CodeBlock(lines[i + 1..end], language.value)];
        i := end + 1;
      } else {
        LineFrom(cls, lines, i, blocks);
        var nodes := ParseInline(cls, Content(lines[i]));
        blocks := WithLine(blocks, Quoted(lines[i]), nodes);
        i := i + 1;
      }
    }
    assert BlocksFrom(cls, lines, i, blocks) == blocks by { NoLinesLeft(cls, lines, blocks); }
  }

  lemma NoLinesLeft(cls: Classes, lines: seq<string>, blocks: seq<Block>)
    ensures BlocksFrom(cls, lines, |lines|, blocks) == blocks
  {
  }
}
