module ChatPrint {
  /** What a line's markup means: a tree written out, its texts escaped and its
      styles, code, links and references marked, reads back as that tree. */

  import opened Common
  import opened ChatGrammar
  import opened ChatNormalForm
  import opened ChatText
  import opened MentionReading
  import P = Payload
  import opened ChatPrinter

  /** What a line's markup means: well set, every tree in normal form, written
      out, is what the parser reads. */
  lemma PrintedReads(cls: Classes, nodes: seq<Inline>)
    requires cls.Valid() && Tidy(nodes, 2) && Fits(cls, "", nodes, "", [])
    ensures Inlines(cls, Print(nodes)) == nodes
  {
    var line := Print(nodes);
    assert "" + line + "" == line && "" + line == line;
    assert HasOpen(EMPTY, []) && Sets(nodes, "");
    hide Run, Fits, Print;
    NodesRead(cls, "", nodes, "", [], 2, EMPTY);
    AfterFlush(EMPTY, nodes, 2);
    var p := After(EMPTY, nodes).Flush();
    assert p == With(EMPTY, nodes);
    assert p.stack == [Frame(None, nodes)] by { assert [] + nodes == nodes; }
    hide Tidy;
    TidyIsMerged(nodes, 2);
    assert Run(cls, line, 0, EMPTY) == After(EMPTY, nodes) by { RunEnds(cls, line, After(EMPTY, nodes)); }
  }
}
