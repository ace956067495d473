module ChatDocument {
  /** What a whole body means: blocks written out line by line read back as
      those blocks, and extraction takes from them what their marks enclose. */

  import opened Common
  import opened ChatGrammar
  import opened ChatBlocks
  import opened ChatPrint
  import opened ChatPrinter
  import opened ChatText
  import opened MentionReading
  import P = Payload
  import opened ChatPages

  /** What a body means: well set blocks, written out, are what Parse reads. */
  lemma PrintedBlocksRead(cls: Classes, blocks: seq<Block>)
    requires cls.Valid() && blocks != [] && BlocksFit(cls, blocks)
    requires forall k :: 0 <= k < |PrintBlocks(blocks)| ==> '\n' !in PrintBlocks(blocks)[k]
    ensures Parse(cls, Join(PrintBlocks(blocks))) == blocks
  {
    hide BlocksFrom, PrintBlock;
    assert PrintBlocks(blocks) != [] by { SomeLines(cls, blocks); }
    hide BlocksFit, PrintBlocks, Lines;
    JoinedLines(PrintBlocks(blocks));
    BlocksRead(cls, [], blocks, []);
    assert [] + PrintBlocks(blocks) == PrintBlocks(blocks) && [] + blocks == blocks;
  }

  /** A line of one node whose printed form has no break is extracted to what
      the node encloses: a text, code, a link, or a styled text. */
  lemma NodeIsExtracted(cls: Classes, node: Inline, text: string)
    requires cls.Valid() && LineFits(cls, [node]) && '\n' !in PrintNode(node) && text != ""
    requires node == Text(text) || node == Code(text) || node == Link(text)
             || node == Styled(Bold, [Text(text)]) || node == Styled(Italic, [Text(text)])
    ensures Extracted(Parse(cls, PrintNode(node))) == [Said(text)]
  {
    var blocks := [TextBlock([[node]])];
    assert PrintBlocks(blocks) == [PrintNode(node)] by { OnePrinted(node); }
    assert BlocksFit(cls, blocks);
    PrintedBlocksRead(cls, blocks);
    hide Parse, LineFits, PrintBlocks;
    assert Join([PrintNode(node)]) == PrintNode(node);
    OneExtracted(node, text);
  }
}
