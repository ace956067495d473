/** Blocks (internal/conversation/chatv1.go): a body's lines grouped into
    text, quotes and fenced code. Whether a fence closes is asked of the rest
    of the body; ChatParser answers it from a table. */
module ChatBlocks {
  import opened Common
  import opened ChatGrammar

  datatype Block =
    | TextBlock(lines: seq<seq<Inline>>)
    | QuoteBlock(lines: seq<seq<Inline>>)
    | CodeBlock(code: seq<string>, language: string)

  /** strings.Split(body, "\n"). */
  function Lines(body: string): (lines: seq<string>)
    ensures lines != []
    decreases |body|
  {
    var n := Find(body, '\n', 0);
    if n == |body| then [body] else [body[..n]] + Lines(body[n + 1..])
  }

  /** strings.Join(lines, "\n"). */
  function Join(lines: seq<string>): string {
    if lines == [] then "" else if |lines| == 1 then lines[0] else lines[0] + "\n" + Join(lines[1..])
  }

  const FENCE := "```"

  predicate LanguageChar(c: char) {
    Alphanumeric(c) || c == '+' || c == '-' || c == '#' || c == '.'
  }

  /** The language of an opening fence, if the line is one. */
  function FenceOpening(line: string): Option<string> {
    if StartsAt(line, 0, FENCE) && |line| - 3 <= 20 && forall k :: 3 <= k < |line| ==> LanguageChar(line[k])
    then Some(line[3..]) else None
  }

  /** Where a code block whose content starts at line i is closed, or the
      number of lines if nothing closes it. */
  function FirstFence(lines: seq<string>, i: nat): (r: nat)
    requires i <= |lines|
    ensures i <= r <= |lines|
    ensures (r < |lines| ==> lines[r] == FENCE) && forall k :: i <= k < r ==> lines[k] != FENCE
    decreases |lines| - i
  {
    if i == |lines| || lines[i] == FENCE then i else FirstFence(lines, i + 1)
  }

  predicate OpensCode(lines: seq<string>, i: nat)
    requires i < |lines|
  {
    FenceOpening(lines[i]).Some? && FirstFence(lines, i + 1) < |lines|
  }

  predicate Quoted(line: string) {
    line != "" && line[0] == '>'
  }

  /** How much of a line is its quote marker. */
  function Marker(line: string): (m: nat)
    ensures m <= |line|
  {
    if !Quoted(line) then 0 else if |line| > 1 && line[1] == ' ' then 2 else 1
  }

  function Content(line: string): string {
    line[Marker(line)..]
  }

  predicate SameKind(block: Block, quote: bool) {
    if quote then block.QuoteBlock? else block.TextBlock?
  }

  /** A line joins the block before it if that is of its kind. */
  function WithLine(blocks: seq<Block>, quote: bool, line: seq<Inline>): seq<Block> {
    if blocks != [] && SameKind(blocks[|blocks| - 1], quote) then
      var last := blocks[|blocks| - 1];
      blocks[..|blocks| - 1] + [last.(lines := last.lines + [line])]
    else blocks + [if quote then QuoteBlock([line]) else TextBlock([line])]
  }

  /** Reads on from line i. */
  function BlocksFrom(cls: Classes, lines: seq<string>, i: nat, blocks: seq<Block>): seq<Block>
    requires i <= |lines|
    decreases |lines| - i
  {
    if i == |lines| then blocks
    else if OpensCode(lines, i) then
      var end := FirstFence(lines, i + 1);
      BlocksFrom(cls, lines, end + 1, blocks + [CodeBlock(lines[i + 1..end], FenceOpening(lines[i]).value)])
    else
      BlocksFrom(cls, lines, i + 1, WithLine(blocks, Quoted(lines[i]), Inlines(cls, Content(lines[i]))))
  }

  function Parse(cls: Classes, body: string): seq<Block> {
    BlocksFrom(cls, Lines(body), 0, [])
  }

  lemma {:induction false} JoinLines(body: string)
    ensures Join(Lines(body)) == body
    decreases |body|
  {
    var n := Find(body, '\n', 0);
    if n < |body| {
      JoinLines(body[n + 1..]);
      assert body == body[..n] + "\n" + body[n + 1..];
      assert ([body[..n]] + Lines(body[n + 1..]))[1..] == Lines(body[n + 1..]);
    }
  }

  lemma {:induction false} LinesHaveNoBreak(body: string)
    ensures forall k :: 0 <= k < |Lines(body)| ==> '\n' !in Lines(body)[k]
    decreases |body|
  {
    var n := Find(body, '\n', 0);
    if n < |body| {
      LinesHaveNoBreak(body[n + 1..]);
    }
  }
}
