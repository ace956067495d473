module ChatStyles {
  /** When a delimiter counts: whatever a line's tree has as bold or italic
      begins and ends at characters that are no spaces, and an italic stands
      clear of word characters, as they were typed. */

  import opened Common
  import opened ChatGrammar
  import opened ChatTyped
  import opened ChatDelimiters

  /** For every line: each bold or italic of its tree begins and ends at
      characters that are no spaces, and no word character touches an italic
      from outside. */
  lemma StylesAreSet(cls: Classes, line: string)
    requires cls.Valid()
    ensures Set(cls, Typed(cls, line, 0), 0, Inlines(cls, line))
  {
    hide Run, Set, Unwind, Merge, Typed;
    var typed, p := Typed(cls, line, 0), Run(cls, line, 0, EMPTY);
    NoneHeld();
    assert "" + typed == typed;
    assert StackSet(cls, typed, EMPTY.stack) by { EmptySet(cls, typed); }
    RunSet(cls, typed, line, 0, EMPTY);
    RunStyles(cls, line, 0, EMPTY);
    FlushSet(cls, typed, p);
    assert p.Flush().stack[0].style.None?;
    UnwindSet(cls, typed, p.Flush().stack);
    SetMerge(cls, typed, 0, Unwind(p.Flush().stack));
  }
}
