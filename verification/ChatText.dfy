module ChatText {
  /** Text extraction and escaping (internal/conversation/text.go, chatv1.go):
      an escaped text parses to one text block of nothing but itself, and
      extracting that gives the text back, line breaks included. */

  import opened Common
  import opened ChatGrammar
  import opened ChatBlocks
  import P = Payload

  datatype Segment = Said(text: string) | Named(member: P.ID)

  datatype Extract = Extract(segments: seq<Segment>, text: string)
  {
    function Flush(): Extract {
      if text == "" then this else Extract(segments + [Said(text)], "")
    }

    function Say(more: string): Extract {
      this.(text := text + more)
    }
  }

  function FromInlines(nodes: seq<Inline>, x: Extract): Extract
    decreases nodes
  {
    if nodes == [] then x
    else
      var y := match nodes[0]
        case Styled(_, children) => FromInlines(children, x)
        case Reference(id) => var f := x.Flush(); f.(segments := f.segments + [Named(id)])
        case Text(text) => x.Say(text)
        case Code(code) => x.Say(code)
        case Link(url) => x.Say(url);
      FromInlines(nodes[1..], y)
  }

  /** Line breaks inside a block stay. */
  function FromLines(lines: seq<seq<Inline>>, j: nat, x: Extract): Extract
    requires j <= |lines|
    decreases |lines| - j
  {
    if j == |lines| then x
    else FromLines(lines, j + 1, FromInlines(lines[j], if j > 0 then x.Say("\n") else x))
  }

  /** Blocks are set apart by a line break each. */
  function FromBlocks(blocks: seq<Block>, i: nat, x: Extract): Extract
    requires i <= |blocks|
    decreases |blocks| - i
  {
    if i == |blocks| then x
    else
      var y := if i > 0 then x.Say("\n") else x;
      FromBlocks(blocks, i + 1,
        match blocks[i]
        case CodeBlock(code, _) => y.Say(Join(code))
        case TextBlock(lines) => FromLines(lines, 0, y)
        case QuoteBlock(lines) => FromLines(lines, 0, y))
  }

  function Extracted(blocks: seq<Block>): seq<Segment> {
    FromBlocks(blocks, 0, Extract([], "")).Flush().segments
  }

  function EscapedChar(c: char): string {
    if Punctuation(c) then ['\\', c] else [c]
  }

  function Escape(text: string): string {
    if text == "" then "" else EscapedChar(text[0]) + Escape(text[1..])
  }

  /** EscapeChatV1's loop over the text. */
  method EscapeChatV1(text: string) returns (escaped: string)
    ensures escaped == Escape(text)
  {
    escaped := "";
    for i := 0 to |text|
      invariant escaped + Escape(text[i..]) == Escape(text)
    {
      if Punctuation(text[i]) {
        escaped := escaped + ['\\'];
      }
      escaped := escaped + [text[i]];
      assert text[i..][1..] == text[i + 1..];
    }
    assert text[|text|..] == "";
  }

  lemma {:induction false} EscapeJoin(a: string, b: string)
    ensures Escape(a + b) == Escape(a) + Escape(b)
  {
    if a == "" {
      assert a + b == b;
    } else {
      EscapeJoin(a[1..], b);
      assert (a + b)[1..] == a[1..] + b;
    }
  }

  /** Every piece of punctuation in an escaped text follows a backslash or is one. */
  lemma {:induction false} EscapedGuards(text: string, k: nat)
    requires k < |Escape(text)| && Punctuation(Escape(text)[k]) && Escape(text)[k] != '\\'
    ensures k > 0 && Escape(text)[k - 1] == '\\'
  {
    var width := |EscapedChar(text[0])|;
    if k >= width {
      EscapedGuards(text[1..], k - width);
    }
  }

  /** No link starts in an escaped text: its scheme would need a bare colon. */
  lemma NoLink(cls: Classes, pre: string, text: string)
    ensures var s, i := pre + Escape(text), |pre|; SchemeAt(s, i) == 0 && LinkEnd(cls, s, i) == i
  {
    var s, i := pre + Escape(text), |pre|;
    assert "http://"[3] == 'p' && "http://"[4] == ':' && "https://"[4] == 's' && "https://"[5] == ':';
    if StartsAt(s, i, "http://") {
      assert Escape(text)[4] == ':' && Escape(text)[3] == 'p';
      EscapedGuards(text, 4);
    }
    if StartsAt(s, i, "https://") {
      assert Escape(text)[5] == ':' && Escape(text)[4] == 's';
      EscapedGuards(text, 5);
    }
  }

  /** At the start of what is left of an escaped text stands its next character. */
  lemma EscapedConstruct(cls: Classes, pre: string, text: string)
    requires text != ""
    ensures var s, i := pre + Escape(text), |pre|;
            && i < |s| && ConstructAt(cls, s, i) == (if Punctuation(text[0]) then Escaped(text[0]) else Plain(text[0]))
            && NextAt(cls, s, i) == |pre + EscapedChar(text[0])|
  {
    var s, i := pre + Escape(text), |pre|;
    NoLink(cls, pre, text);
    assert s[i] == Escape(text)[0];
    assert "**"[0] == '*';
    assert Punctuation(text[0]) ==> s[i + 1] == Escape(text)[1] == text[0];
  }

  /** A literal character is written and passed over. */
  lemma RunOver(cls: Classes, s: string, i: nat, p: Parser)
    requires p.Valid() && i < |s| && (ConstructAt(cls, s, i).Escaped? || ConstructAt(cls, s, i).Plain?)
    ensures Run(cls, s, i, p) == Run(cls, s, NextAt(cls, s, i), p.Write([ConstructAt(cls, s, i).c]))
  {
    hide ConstructAt;
  }

  lemma Rewritten(p: Parser, text: string)
    requires text != ""
    ensures p.Write([text[0]]).Write(text[1..]) == p.Write(text)
  {
    assert (p.text + [text[0]]) + text[1..] == p.text + text;
  }

  lemma {:induction false} EscapedRun(cls: Classes, pre: string, text: string, p: Parser)
    requires p.Valid()
    ensures Run(cls, pre + Escape(text), |pre|, p) == p.Write(text)
    decreases |text|
  {
    if text == "" {
      assert pre + Escape(text) == pre && p.Write(text) == p;
    } else {
      var head, s := EscapedChar(text[0]), pre + Escape(text);
      EscapedConstruct(cls, pre, text);
      assert s == (pre + head) + Escape(text[1..]);
      hide Run, ConstructAt, NextAt, Escape;
      RunOver(cls, s, |pre|, p);
      EscapedRun(cls, pre + head, text[1..], p.Write([text[0]]));
      Rewritten(p, text);
    }
  }

  function Literal(line: string): seq<Inline> {
    if line == "" then [] else [Text(line)]
  }

  lemma EscapedLine(cls: Classes, line: string)
    ensures Inlines(cls, Escape(line)) == Literal(line)
  {
    assert "" + Escape(line) == Escape(line);
    assert "" + line == line;
    hide Run, Escape;
    EscapedRun(cls, "", line, EMPTY);
    LiteralStack(line);
  }

  lemma LiteralStack(line: string)
    ensures Merge(Unwind(EMPTY.Write(line).Flush().stack)) == Literal(line)
  {
    var p := EMPTY.Write(line);
    assert p.text == line;
    if line != "" {
      assert p.Flush().stack == [Frame(None, [Text(line)])] by { assert [] + [Text(line)] == [Text(line)]; }
      assert [Text(line)][1..] == [];
    }
  }

  function Escapes(lines: seq<string>): seq<string> {
    seq(|lines|, k requires 0 <= k < |lines| => Escape(lines[k]))
  }

  lemma {:induction false} NoBreak(line: string)
    requires '\n' !in line
    ensures '\n' !in Escape(line)
  {
    if line != "" {
      NoBreak(line[1..]);
      assert line[0] in line && forall c :: c in line[1..] ==> c in line;
    }
  }

  lemma LinesAfter(a: string, b: string)
    requires '\n' !in a
    ensures Lines(a + "\n" + b) == [a] + Lines(b)
  {
    var s := a + "\n" + b;
    var n := Find(s, '\n', 0);
    assert s[|a|] == '\n' && forall k :: 0 <= k < |a| ==> s[k] == a[k] && a[k] in a;
    assert n == |a| && s[..n] == a && s[n + 1..] == b;
  }

  lemma OneLine(a: string)
    requires '\n' !in a
    ensures Lines(a) == [a]
  {
    assert forall k :: 0 <= k < |a| ==> a[k] in a;
  }

  lemma EscapedBreak(a: string, b: string)
    ensures Escape(a + "\n" + b) == Escape(a) + "\n" + Escape(b)
  {
    EscapeJoin(a, "\n" + b);
    assert a + "\n" + b == a + ("\n" + b) && ("\n" + b)[1..] == b;
    assert Escape("\n" + b) == "\n" + Escape(b);
    assert Escape(a) + ("\n" + Escape(b)) == Escape(a) + "\n" + Escape(b);
  }

  /** Escaping keeps the lines apart. */
  lemma {:induction false} EscapedLines(text: string)
    ensures Lines(Escape(text)) == Escapes(Lines(text))
    decreases |text|
  {
    var n := Find(text, '\n', 0);
    if n == |text| {
      NoBreak(text);
      OneLine(Escape(text));
      assert Escapes([text]) == [Escape(text)];
    } else {
      var a, b := text[..n], text[n + 1..];
      assert text == a + "\n" + b;
      EscapedLines(b);
      EscapedLinesAfter(a, b);
    }
  }

  lemma EscapedLinesAfter(a: string, b: string)
    requires '\n' !in a && Lines(Escape(b)) == Escapes(Lines(b))
    ensures Lines(Escape(a + "\n" + b)) == Escapes(Lines(a + "\n" + b))
  {
    hide Lines, Escape;
    EscapedBreak(a, b);
    NoBreak(a);
    LinesAfter(a, b);
    LinesAfter(Escape(a), Escape(b));
    assert Escapes([a] + Lines(b)) == [Escape(a)] + Escapes(Lines(b));
  }

  /** An escaped line starts neither a fence nor a quote. */
  lemma EscapedIsText(line: string)
    ensures FenceOpening(Escape(line)).None? && !Quoted(Escape(line)) && Content(Escape(line)) == Escape(line)
  {
    var e := Escape(line);
    assert line != "" ==> e[0] == EscapedChar(line[0])[0];
    assert FENCE[0] == '`';
  }

  function Literals(lines: seq<string>): seq<seq<Inline>> {
    seq(|lines|, k requires 0 <= k < |lines| => Literal(lines[k]))
  }

  lemma TextLine(cls: Classes, lines: seq<string>, i: nat, blocks: seq<Block>)
    requires i < |lines|
    ensures BlocksFrom(cls, Escapes(lines), i, blocks)
         == BlocksFrom(cls, Escapes(lines), i + 1, WithLine(blocks, false, Literal(lines[i])))
  {
    hide Inlines, Escape, WithLine, FenceOpening, Content, Quoted, Literal;
    EscapedIsText(lines[i]);
    EscapedLine(cls, lines[i]);
  }

  lemma OneMoreLine(lines: seq<string>, i: nat)
    requires i < |lines|
    ensures WithLine([TextBlock(Literals(lines[..i]))], false, Literal(lines[i])) == [TextBlock(Literals(lines[..i + 1]))]
  {
    assert Literals(lines[..i]) + [Literal(lines[i])] == Literals(lines[..i + 1]);
  }

  lemma {:induction false} EscapedBlocks(cls: Classes, lines: seq<string>, i: nat)
    requires 0 < i <= |lines|
    ensures BlocksFrom(cls, Escapes(lines), i, [TextBlock(Literals(lines[..i]))]) == [TextBlock(Literals(lines))]
    decreases |lines| - i
  {
    if i == |lines| {
      assert lines[..i] == lines;
    } else {
      hide BlocksFrom, Escapes;
      TextLine(cls, lines, i, [TextBlock(Literals(lines[..i]))]);
      OneMoreLine(lines, i);
      EscapedBlocks(cls, lines, i + 1);
    }
  }

  /** The text of the lines from j on, each after a line break. */
  function Broken(lines: seq<string>, j: nat): string
    requires j <= |lines|
    decreases |lines| - j
  {
    if j == |lines| then "" else "\n" + lines[j] + Broken(lines, j + 1)
  }

  lemma {:induction false} JoinBroken(lines: seq<string>, j: nat)
    requires j < |lines|
    ensures Join(lines[j..]) == lines[j] + Broken(lines, j + 1)
    decreases |lines| - j
  {
    if j + 1 < |lines| {
      JoinBroken(lines, j + 1);
      assert lines[j..][1..] == lines[j + 1..];
    }
  }

  lemma SayTwice(x: Extract, a: string, b: string)
    ensures x.Say(a).Say(b) == x.Say(a + b)
  {
    assert (x.text + a) + b == x.text + (a + b);
  }

  lemma ExtractLiteral(line: string, x: Extract)
    ensures FromInlines(Literal(line), x) == x.Say(line)
  {
    if line == "" {
      assert x.Say("") == x;
    } else {
      assert Literal(line)[1..] == [];
    }
  }

  lemma {:induction false} ExtractLiterals(lines: seq<string>, j: nat, x: Extract)
    requires 0 < j <= |lines|
    ensures FromLines(Literals(lines), j, x) == x.Say(Broken(lines, j))
    decreases |lines| - j
  {
    if j == |lines| {
      assert x.Say("") == x;
    } else {
      var y := x.Say("\n" + lines[j]);
      ExtractLiteral(lines[j], x.Say("\n"));
      SayTwice(x, "\n", lines[j]);
      ExtractLiterals(lines, j + 1, y);
      SayTwice(x, "\n" + lines[j], Broken(lines, j + 1));
    }
  }

  /** Escaped text parses to one text block holding nothing but the text, line
      by line, and extraction gives the text back exactly. */
  lemma EscapeRoundTrip(cls: Classes, text: string)
    ensures Parse(cls, Escape(text)) == [TextBlock(Literals(Lines(text)))]
    ensures Extracted(Parse(cls, Escape(text))) == if text == "" then [] else [Said(text)]
  {
    var lines := Lines(text);
    hide BlocksFrom, Lines, Escape, Extracted;
    EscapedLines(text);
    TextLine(cls, lines, 0, []);
    assert Literals(lines[..1]) == [Literal(lines[0])];
    assert WithLine([], false, Literal(lines[0])) == [TextBlock(Literals(lines[..1]))];
    EscapedBlocks(cls, lines, 1);
    ExtractText(lines);
    JoinLines(text);
  }

  lemma ExtractText(lines: seq<string>)
    requires lines != []
    ensures Extracted([TextBlock(Literals(lines))]) == if Join(lines) == "" then [] else [Said(Join(lines))]
  {
    var x := Extract([], "");
    ExtractLiteral(lines[0], x);
    ExtractLiterals(lines, 1, x.Say(lines[0]));
    SayTwice(x, lines[0], Broken(lines, 1));
    JoinBroken(lines, 0);
    assert lines[0..] == lines && x.Say(Join(lines)).text == Join(lines);
    hide FromInlines;
    assert FromLines(Literals(lines), 0, x) == x.Say(Join(lines));
    assert FromBlocks([TextBlock(Literals(lines))], 0, x) == x.Say(Join(lines));
  }
}
