module ChatShown {
  /** What no line loses: its tree, with the marks of its styles, code and
      references put back, is the line without the backslashes of its escapes. */

  import opened Common
  import opened ChatGrammar
  import opened MentionReading
  import P = Payload
  import opened ChatTyped

  /** For every line: nothing typed is lost, made up or moved. The tree with
      its marks is what was typed, but for the backslashes of escapes. */
  lemma LinesAreShown(cls: Classes, line: string)
    ensures Shown(Inlines(cls, line)) == Typed(cls, line, 0)
  {
    hide Shown, Run, Unwind, Merge, Typed, Held;
    var p := Run(cls, line, 0, EMPTY);
    NoneHeld();
    RunHeld(cls, line, 0, EMPTY);
    RunStyles(cls, line, 0, EMPTY);
    FlushHeld(p);
    assert p.Flush().stack[0].style.None?;
    UnwindHeld(p.Flush().stack);
    ShownMerge(Unwind(p.Flush().stack));
    assert "" + Typed(cls, line, 0) == Typed(cls, line, 0);
  }

  lemma LinesAreShownAsTyped(cls: Classes, line: string)
    requires '\\' !in line
    ensures Shown(Inlines(cls, line)) == line
  {
    LinesAreShown(cls, line);
    PlainTyped(cls, line, 0);
  }
}
