/** Blocks written out line by line, and how they are read back block by block;
    what is a link as a whole, and what extraction takes from a node.
    ChatDocument states what comes of it. */
module ChatPages {
  import opened Common
  import opened ChatGrammar
  import opened ChatBlocks
  import opened ChatPrint
  import opened ChatPrinter
  import opened ChatText
  import opened MentionReading
  import P = Payload

  // ----- links -----

  /** A scheme, a host that starts with a letter or a digit, and nothing that
      ends a link or is trimmed from it. */
  predicate PlainUrl(cls: Classes, url: string) {
    var n := SchemeAt(url, 0);
    && 0 < n < |url| && (cls.letter(url[n]) || cls.digit(url[n]))
    && (forall k :: n <= k < |url| ==> !EndsUrl(cls, url[k]) && url[k] != '@')
    && !Trimmable(url[|url| - 1]) && url[|url| - 1] != ')'
  }

  lemma PlainUrlIsLink(cls: Classes, url: string)
    requires cls.Valid() && PlainUrl(cls, url)
    ensures LinkEnd(cls, url, 0) == |url|
  {
    var n := SchemeAt(url, 0);
    assert UrlEnd(cls, url, n) == |url|;
    var end := AuthorityEnd(cls, url, n);
    assert end > n && HostAt(url, n, end) == n;
  }

  // ----- writing blocks -----

  function TextLines(lines: seq<seq<Inline>>): seq<string> {
    seq(|lines|, k requires 0 <= k < |lines| => Print(lines[k]))
  }

  function QuoteLines(lines: seq<seq<Inline>>): seq<string> {
    seq(|lines|, k requires 0 <= k < |lines| => "> " + Print(lines[k]))
  }

  function PrintBlock(block: Block): seq<string> {
    match block
    case TextBlock(lines) => TextLines(lines)
    case QuoteBlock(lines) => QuoteLines(lines)
    case CodeBlock(code, language) => [FENCE + language] + code + [FENCE]
  }

  function PrintBlocks(blocks: seq<Block>): seq<string> {
    if blocks == [] then [] else PrintBlock(blocks[0]) + PrintBlocks(blocks[1..])
  }

  ghost predicate LineFits(cls: Classes, nodes: seq<Inline>) {
    Tidy(nodes, 2) && Fits(cls, "", nodes, "", [])
  }

  ghost predicate BlockFits(cls: Classes, block: Block) {
    match block
    case TextBlock(lines) => lines != [] && forall k :: 0 <= k < |lines| ==> LineFits(cls, lines[k])
    case QuoteBlock(lines) => lines != [] && forall k :: 0 <= k < |lines| ==> LineFits(cls, lines[k])
    case CodeBlock(code, language) =>
      && |language| <= 20 && (forall k :: 0 <= k < |language| ==> LanguageChar(language[k]))
      && forall k :: 0 <= k < |code| ==> code[k] != FENCE
  }

  /** Blocks of one kind side by side would be one block, but for code. */
  predicate Apart(a: Block, b: Block) {
    !(a.TextBlock? && b.TextBlock?) && !(a.QuoteBlock? && b.QuoteBlock?)
  }

  ghost predicate BlocksFit(cls: Classes, blocks: seq<Block>) {
    && (forall k :: 0 <= k < |blocks| ==> BlockFits(cls, blocks[k]))
    && (forall j, k :: 0 <= j && k == j + 1 < |blocks| ==> Apart(blocks[j], blocks[k]))
  }

  // ----- lines -----

  lemma PrintedIsText(cls: Classes, nodes: seq<Inline>)
    requires LineFits(cls, nodes)
    ensures !Quoted(Print(nodes)) && FenceOpening(Print(nodes)).None? && Content(Print(nodes)) == Print(nodes)
  {
    var line := Print(nodes);
    if nodes != [] {
      assert NodeOk(nodes[0], 2) && NodeFits(cls, "", nodes[0], Print(nodes[1..]) + "", []);
      FirstChars(cls, nodes[0], Print(nodes[1..]) + "", 2);
      assert line == PrintNode(nodes[0]) + Print(nodes[1..]);
      assert FENCE[0] == '`' && FENCE[1] == '`';
    }
  }

  /** What a node starts with is neither a quote marker nor a fence. */
  lemma FirstChars(cls: Classes, node: Inline, after: string, depth: nat)
    requires NodeOk(node, depth) && NodeFits(cls, "", node, after, [])
    ensures var line := PrintNode(node); line != "" && line[0] != '>' && (line[0] == '`' ==> |line| > 1 && line[1] != '`')
  {
    hide Fits, LinkEnd, MayFollow, Tidy;
    match node
    case Text(text) => assert Escape(text)[0] == EscapedChar(text[0])[0];
    case Styled(style, _) => assert style.Delimiter()[0] == '*' || style.Delimiter()[0] == '_';
    case Link(url) => LinkStartsWithH(cls, url);
    case Reference(member) => assert ReferenceText(member)[0] == '<';
    case Code(code) => assert code[0] in code;
  }

  lemma TextRead(cls: Classes, lines: seq<string>, i: nat, nodes: seq<Inline>, blocks: seq<Block>)
    requires cls.Valid() && i < |lines| && lines[i] == Print(nodes) && LineFits(cls, nodes)
    ensures BlocksFrom(cls, lines, i, blocks) == BlocksFrom(cls, lines, i + 1, WithLine(blocks, false, nodes))
  {
    PrintedIsText(cls, nodes);
    PrintedReads(cls, nodes);
    hide Inlines, Print, WithLine, FenceOpening, Content, Quoted;
  }

  lemma QuoteRead(cls: Classes, lines: seq<string>, i: nat, nodes: seq<Inline>, blocks: seq<Block>)
    requires cls.Valid() && i < |lines| && lines[i] == "> " + Print(nodes) && LineFits(cls, nodes)
    ensures BlocksFrom(cls, lines, i, blocks) == BlocksFrom(cls, lines, i + 1, WithLine(blocks, true, nodes))
  {
    PrintedReads(cls, nodes);
    assert FENCE[0] == '`';
    assert Content(lines[i]) == Print(nodes);
    assert Quoted(lines[i]) && FenceOpening(lines[i]).None?;
    hide Inlines, Print, WithLine, FenceOpening, Content, Quoted;
  }

  lemma CodeRead(cls: Classes, lines: seq<string>, i: nat, code: seq<string>, language: string, blocks: seq<Block>)
    requires BlockFits(cls, CodeBlock(code, language)) && i + |code| + 2 <= |lines|
    requires lines[i..i + |code| + 2] == PrintBlock(CodeBlock(code, language))
    ensures BlocksFrom(cls, lines, i, blocks) == BlocksFrom(cls, lines, i + |code| + 2, blocks + [CodeBlock(code, language)])
  {
    hide Inlines, WithLine, Content, Quoted, PrintBlock, FenceOpening;
    CodeThere(lines, i, code, language);
    LanguageOpens(language);
    var end := i + 1 + |code|;
    assert FirstFence(lines, i + 1) == end;
    assert lines[i + 1..end] == code;
  }

  lemma CodeThere(lines: seq<string>, i: nat, code: seq<string>, language: string)
    requires i + |code| + 2 <= |lines| && lines[i..i + |code| + 2] == PrintBlock(CodeBlock(code, language))
    ensures lines[i] == FENCE + language && lines[i + 1 + |code|] == FENCE
    ensures forall k :: i + 1 <= k < i + 1 + |code| ==> lines[k] == code[k - i - 1]
  {
    var part := PrintBlock(CodeBlock(code, language));
    assert lines[i] == part[0] && lines[i + 1 + |code|] == part[|code| + 1];
    forall k | i + 1 <= k < i + 1 + |code| ensures lines[k] == code[k - i - 1] {
      assert lines[k] == part[k - i];
    }
  }

  lemma LanguageOpens(language: string)
    requires |language| <= 20 && forall k :: 0 <= k < |language| ==> LanguageChar(language[k])
    ensures FenceOpening(FENCE + language) == Some(language)
  {
    var line := FENCE + language;
    assert line[3..] == language;
    assert forall k :: 3 <= k < |line| ==> line[k] == language[k - 3];
  }

  // ----- blocks -----

  /** The lines of one block, from its j-th on; the ones before are read. */
  lemma {:induction false} TextsRead(cls: Classes, lines: seq<string>, i: nat, nodes: seq<seq<Inline>>, j: nat, quote: bool, blocks: seq<Block>)
    requires cls.Valid() && 0 < j <= |nodes| && (forall k :: 0 <= k < |nodes| ==> LineFits(cls, nodes[k])) && i + |nodes| <= |lines|
    requires lines[i..i + |nodes|] == if quote then QuoteLines(nodes) else TextLines(nodes)
    ensures BlocksFrom(cls, lines, i + j, blocks + [MakeBlock(quote, nodes[..j])])
         == BlocksFrom(cls, lines, i + |nodes|, blocks + [MakeBlock(quote, nodes)])
    decreases |nodes| - j
  {
    hide LineFits, BlocksFrom, Print, WithLine, QuoteLines, TextLines;
    if j == |nodes| {
      assert nodes[..j] == nodes;
    } else {
      LineThere(cls, lines, i, nodes, j, quote);
      var so := blocks + [MakeBlock(quote, nodes[..j])];
      if quote {
        QuoteRead(cls, lines, i + j, nodes[j], so);
      } else {
        TextRead(cls, lines, i + j, nodes[j], so);
      }
      LineAdded(blocks, quote, nodes, j);
      TextsRead(cls, lines, i, nodes, j + 1, quote, blocks);
    }
  }

  function MakeBlock(quote: bool, lines: seq<seq<Inline>>): Block {
    if quote then QuoteBlock(lines) else TextBlock(lines)
  }

  lemma LineThere(cls: Classes, lines: seq<string>, i: nat, nodes: seq<seq<Inline>>, j: nat, quote: bool)
    requires j < |nodes| && i + |nodes| <= |lines|
    requires lines[i..i + |nodes|] == if quote then QuoteLines(nodes) else TextLines(nodes)
    ensures lines[i + j] == if quote then "> " + Print(nodes[j]) else Print(nodes[j])
  {
    hide Print;
    assert lines[i..i + |nodes|][j] == lines[i + j];
  }

  lemma LineAdded(blocks: seq<Block>, quote: bool, nodes: seq<seq<Inline>>, j: nat)
    requires j < |nodes|
    ensures WithLine(blocks + [MakeBlock(quote, nodes[..j])], quote, nodes[j]) == blocks + [MakeBlock(quote, nodes[..j + 1])]
  {
    assert nodes[..j] + [nodes[j]] == nodes[..j + 1];
    assert (blocks + [MakeBlock(quote, nodes[..j])])[..|blocks|] == blocks;
  }

  lemma FirstLine(blocks: seq<Block>, quote: bool, nodes: seq<seq<Inline>>)
    requires nodes != [] && (blocks == [] || Apart(blocks[|blocks| - 1], MakeBlock(quote, nodes)))
    ensures WithLine(blocks, quote, nodes[0]) == blocks + [MakeBlock(quote, nodes[..1])]
  {
    assert nodes[..1] == [nodes[0]];
  }

  lemma LinesRead(cls: Classes, lines: seq<string>, i: nat, quote: bool, nodes: seq<seq<Inline>>, blocks: seq<Block>)
    requires cls.Valid() && nodes != [] && (forall k :: 0 <= k < |nodes| ==> LineFits(cls, nodes[k])) && i + |nodes| <= |lines|
    requires lines[i..i + |nodes|] == if quote then QuoteLines(nodes) else TextLines(nodes)
    requires blocks == [] || Apart(blocks[|blocks| - 1], MakeBlock(quote, nodes))
    ensures BlocksFrom(cls, lines, i, blocks) == BlocksFrom(cls, lines, i + |nodes|, blocks + [MakeBlock(quote, nodes)])
  {
    hide LineFits, BlocksFrom, Print, WithLine, QuoteLines, TextLines;
    LineThere(cls, lines, i, nodes, 0, quote);
    if quote {
      QuoteRead(cls, lines, i, nodes[0], blocks);
    } else {
      TextRead(cls, lines, i, nodes[0], blocks);
    }
    FirstLine(blocks, quote, nodes);
    TextsRead(cls, lines, i, nodes, 1, quote, blocks);
  }

  lemma BlockRead(cls: Classes, lines: seq<string>, i: nat, block: Block, blocks: seq<Block>)
    requires cls.Valid() && BlockFits(cls, block) && i + |PrintBlock(block)| <= |lines|
    requires lines[i..i + |PrintBlock(block)|] == PrintBlock(block)
    requires blocks == [] || Apart(blocks[|blocks| - 1], block)
    ensures BlocksFrom(cls, lines, i, blocks) == BlocksFrom(cls, lines, i + |PrintBlock(block)|, blocks + [block])
  {
    hide LineFits, BlocksFrom, Print;
    match block
    case CodeBlock(code, language) => CodeRead(cls, lines, i, code, language, blocks);
    case QuoteBlock(nodes) => LinesRead(cls, lines, i, true, nodes, blocks);
    case TextBlock(nodes) => LinesRead(cls, lines, i, false, nodes, blocks);
  }

  lemma {:induction false} BlocksRead(cls: Classes, before: seq<string>, rest: seq<Block>, blocks: seq<Block>)
    requires cls.Valid() && BlocksFit(cls, rest) && (blocks == [] || rest == [] || Apart(blocks[|blocks| - 1], rest[0]))
    ensures BlocksFrom(cls, before + PrintBlocks(rest), |before|, blocks) == blocks + rest
    decreases |rest|
  {
    hide BlockFits, PrintBlock, BlocksFrom, Apart;
    if rest == [] {
      assert before + PrintBlocks(rest) == before && blocks + rest == blocks;
      NothingLeft(cls, before, blocks);
    } else {
      var part, more := PrintBlock(rest[0]), rest[1..];
      var lines := before + PrintBlocks(rest);
      assert lines == before + part + PrintBlocks(more);
      assert lines[|before|..|before| + |part|] == part;
      BlockRead(cls, lines, |before|, rest[0], blocks);
      FitsAfter(cls, rest);
      BlocksRead(cls, before + part, more, blocks + [rest[0]]);
      assert blocks + [rest[0]] + more == blocks + rest;
    }
  }

  lemma NothingLeft(cls: Classes, lines: seq<string>, blocks: seq<Block>)
    ensures BlocksFrom(cls, lines, |lines|, blocks) == blocks
  {
  }

  lemma FitsAfter(cls: Classes, blocks: seq<Block>)
    requires blocks != [] && BlocksFit(cls, blocks)
    ensures BlocksFit(cls, blocks[1..]) && BlockFits(cls, blocks[0])
    ensures |blocks| > 1 ==> Apart(blocks[0], blocks[1..][0])
  {
    hide BlockFits, Apart;
    var rest := blocks[1..];
    forall j, k | 0 <= j && k == j + 1 < |rest| ensures Apart(rest[j], rest[k]) {
      assert Apart(blocks[j + 1], blocks[k + 1]);
    }
  }

  lemma {:induction false} JoinedLines(lines: seq<string>)
    requires lines != [] && forall k :: 0 <= k < |lines| ==> '\n' !in lines[k]
    ensures Lines(Join(lines)) == lines
  {
    if |lines| == 1 {
      OneLine(lines[0]);
    } else {
      hide Lines;
      JoinedLines(lines[1..]);
      LinesAfter(lines[0], Join(lines[1..]));
    }
  }

  lemma SomeLines(cls: Classes, blocks: seq<Block>)
    requires blocks != [] && BlocksFit(cls, blocks)
    ensures PrintBlocks(blocks) != []
  {
    assert BlockFits(cls, blocks[0]);
    hide LineFits;
  }

  // ----- extraction -----

  lemma {:induction false} ExtractJoin(a: seq<Inline>, b: seq<Inline>, x: Extract)
    ensures FromInlines(a + b, x) == FromInlines(b, FromInlines(a, x))
    decreases |a|
  {
    if a == [] {
      assert a + b == b;
    } else {
      assert (a + b)[1..] == a[1..] + b;
      ExtractFirst(a, x);
      ExtractFirst(a + b, x);
      hide FromInlines;
      ExtractJoin(a[1..], b, FromInlines([a[0]], x));
    }
  }

  lemma ExtractFirst(nodes: seq<Inline>, x: Extract)
    requires nodes != []
    ensures FromInlines(nodes, x) == FromInlines(nodes[1..], FromInlines([nodes[0]], x))
  {
    var first := [nodes[0]];
    assert first[0] == nodes[0] && first[1..] == [];
    assert forall y :: FromInlines(first[1..], y) == y;
  }

  lemma OnePrinted(node: Inline)
    ensures PrintBlocks([TextBlock([[node]])]) == [PrintNode(node)]
  {
    hide PrintNode;
    var blocks, nodes := [TextBlock([[node]])], [node];
    assert Print(nodes) == PrintNode(node) by {
      assert nodes[1..] == [] && PrintNode(node) + "" == PrintNode(node);
    }
    assert TextLines([nodes]) == [Print(nodes)];
    assert PrintBlocks(blocks[1..]) == [];
  }

  lemma OneExtracted(node: Inline, text: string)
    requires text != ""
    requires node == Text(text) || node == Code(text) || node == Link(text)
             || node == Styled(Bold, [Text(text)]) || node == Styled(Italic, [Text(text)])
    ensures Extracted([TextBlock([[node]])]) == [Said(text)]
  {
    var x, nodes, blocks := Extract([], ""), [node], [TextBlock([[node]])];
    assert "" + text == text;
    ExtractLiteral(text, x);
    assert x.Say(text) == Extract([], text) && Literal(text) == [Text(text)];
    ExtractFirst(nodes, x);
    assert nodes[1..] == [] && FromInlines(nodes, x) == Extract([], text);
    assert FromLines([nodes], 0, x) == Extract([], text);
    assert FromBlocks(blocks, 0, x) == Extract([], text);
  }
}
