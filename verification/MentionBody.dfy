/** Typed handles of a whole body (internal/conversation/mentions.go,
    replaceHandles): conversion keeps every line, quote and code block where
    it was, so each converted line is read on its own. */
module MentionBody {
  import opened Common
  import opened ChatGrammar
  import opened ChatBlocks
  import opened MentionReading
  import opened Mentions
  import opened MentionScan
  import P = Payload

  /** Who a handle names, and which handles nobody can have. */
  datatype Directory = Directory(lookup: string -> Option<P.ID>, reserved: string -> bool)

  function ConvertContent(cls: Classes, content: string, dir: Directory): Converted {
    Convert(cls, content, TypedHandles(cls, content, dir.reserved), dir.lookup, 0, "")
  }

  /** A quote marker stays, the content is converted. */
  function ConvertLine(cls: Classes, line: string, dir: Directory): string {
    line[..Marker(line)] + ConvertContent(cls, Content(line), dir).text
  }

  /** From line i on; code is left alone. */
  function ConvertLines(cls: Classes, lines: seq<string>, i: nat, dir: Directory): (r: seq<string>)
    requires i <= |lines|
    ensures |r| == |lines| - i
    decreases |lines| - i
  {
    if i == |lines| then []
    else if OpensCode(lines, i) then
      lines[i..FirstFence(lines, i + 1) + 1] + ConvertLines(cls, lines, FirstFence(lines, i + 1) + 1, dir)
    else [ConvertLine(cls, lines[i], dir)] + ConvertLines(cls, lines, i + 1, dir)
  }

  function ConvertBody(cls: Classes, body: string, dir: Directory): string {
    Join(ConvertLines(cls, Lines(body), 0, dir))
  }

  // ----- one line -----

  /** Without a reference put in, nothing changes; with one, both texts have an '@'. */
  lemma {:induction false} ConvertChanges(cls: Classes, s: string, tokens: seq<Token>, lookup: string -> Option<P.ID>,
                                          from: nat, done: string, reserved: string -> bool)
    requires from <= |s| && Handles(cls, s, tokens, from, reserved)
    ensures var c := Convert(cls, s, tokens, lookup, from, done);
            if c.refs == [] then c.text == done + s[from..]
            else '@' in s && '@' in c.text
    decreases |tokens|
  {
    hide Convert, Handles, IsHandle, After;
    if tokens == [] {
      ConvertRest(cls, s, lookup, from, done);
    } else {
      var t := tokens[0];
      FoundText(cls, s, tokens, lookup, from, done, reserved);
      FirstHandle(cls, s, tokens, from, reserved);
      ConvertRefs(cls, s, tokens, lookup, from, done);
      var next := After(cls, s, t, lookup, from, done);
      ConvertChanges(cls, s, tokens[1..], lookup, t.end, next, reserved);
      if lookup(s[t.start + 1..t.end]).None? {
        AfterNobody(cls, s, t, lookup, from, done);
        assert s[from..t.end] + s[t.end..] == s[from..];
        assert (done + s[from..t.end]) + s[t.end..] == done + s[from..];
      } else {
        ReferenceBegun(cls, s, t, lookup, from, done, lookup(s[t.start + 1..t.end]).value);
        var f := Convert(cls, s, tokens, lookup, from, done).text;
        var at := |done| + t.start - from + 1;
        assert f[at] == next[at] == '@';
      }
    }
  }

  lemma ReferenceBegun(cls: Classes, s: string, t: Token, lookup: string -> Option<P.ID>, from: nat, done: string, id: P.ID)
    requires from <= t.start < t.end <= |s| && lookup(s[t.start + 1..t.end]) == Some(id)
    ensures var next, at := After(cls, s, t, lookup, from, done), |done| + t.start - from;
            at + 1 < |next| && next[at] == '<' && next[at + 1] == '@' && next[..at] == done + s[from..t.start]
  {
    hide Escapes;
    AfterFound(cls, s, t, lookup, from, done, id);
    var r := WithReference(s, from, done, t, id);
    assert ReferenceText(id)[0] == '<' && ReferenceText(id)[1] == '@';
    assert r[|done + s[from..t.start]|] == '<' && r[|done + s[from..t.start]| + 1] == '@';
  }

  /** A line keeps its first character, unless a reference replaces its '@'. */
  lemma ConvertFirst(cls: Classes, s: string, tokens: seq<Token>, lookup: string -> Option<P.ID>, reserved: string -> bool)
    requires Handles(cls, s, tokens, 0, reserved)
    ensures var text := Convert(cls, s, tokens, lookup, 0, "").text;
            (text == "" <==> s == "") && (s != "" ==> text[0] == s[0] || (s[0] == '@' && text[0] == '<'))
  {
    hide Handles, IsHandle, After, Convert;
    ConvertStarts(cls, s, tokens, lookup, 0, "", reserved);
    var text := Convert(cls, s, tokens, lookup, 0, "").text;
    assert "" + s[0..Copied(s, tokens)] == s[0..Copied(s, tokens)];
    if tokens == [] {
      ConvertRest(cls, s, lookup, 0, "");
    } else if Copied(s, tokens) > 0 {
      assert text[0] == s[0..Copied(s, tokens)][0];
    } else {
      FoundText(cls, s, tokens, lookup, 0, "", reserved);
      FirstHandle(cls, s, tokens, 0, reserved);
      var t := tokens[0];
      var next := After(cls, s, t, lookup, 0, "");
      if lookup(s[t.start + 1..t.end]).None? {
        AfterNobody(cls, s, t, lookup, 0, "");
        assert text[0] == next[0] == s[0];
      } else {
        ReferenceBegun(cls, s, t, lookup, 0, "", lookup(s[t.start + 1..t.end]).value);
        assert text[0] == next[0] == '<';
      }
    }
  }

  lemma ReferenceHasNoBreak(id: P.ID)
    ensures '\n' !in ReferenceText(id)
  {
    P.FormatIsCanonical(id);
    forall k | 0 <= k < 39 ensures ReferenceText(id)[k] != '\n' {
      if 2 <= k < 38 {
        assert ReferenceText(id)[k] == P.Format(id)[k - 2];
        assert P.Dash(k - 2) || P.HexValue(P.Format(id)[k - 2]).Some?;
      }
    }
  }

  lemma AfterNoBreak(cls: Classes, s: string, t: Token, lookup: string -> Option<P.ID>, from: nat, done: string)
    requires from <= t.start < t.end <= |s| && '\n' !in s && '\n' !in done
    ensures '\n' !in After(cls, s, t, lookup, from, done)
  {
    hide Escapes, ReferenceText;
    assert forall c :: c in s[from..t.start] || c in s[from..t.end] ==> c in s;
    if lookup(s[t.start + 1..t.end]).Some? {
      ReferenceHasNoBreak(lookup(s[t.start + 1..t.end]).value);
    }
  }

  lemma {:induction false} ConvertNoBreak(cls: Classes, s: string, tokens: seq<Token>, lookup: string -> Option<P.ID>,
                                          from: nat, done: string, reserved: string -> bool)
    requires from <= |s| && Handles(cls, s, tokens, from, reserved) && '\n' !in s && '\n' !in done
    ensures '\n' !in Convert(cls, s, tokens, lookup, from, done).text
    decreases |tokens|
  {
    hide Convert, Handles, IsHandle, After;
    if tokens == [] {
      ConvertRest(cls, s, lookup, from, done);
      assert forall c :: c in s[from..] ==> c in s;
    } else {
      FoundText(cls, s, tokens, lookup, from, done, reserved);
      AfterNoBreak(cls, s, tokens[0], lookup, from, done);
      ConvertNoBreak(cls, s, tokens[1..], lookup, tokens[0].end, After(cls, s, tokens[0], lookup, from, done), reserved);
    }
  }

  lemma ContentFacts(cls: Classes, c: string, dir: Directory)
    ensures var conv := ConvertContent(cls, c, dir);
            && (conv.text == "" <==> c == "")
            && (c != "" ==> conv.text[0] == c[0] || (c[0] == '@' && conv.text[0] == '<'))
            && (if conv.refs == [] then conv.text == c else '@' in c && '@' in conv.text)
            && ('\n' !in c ==> '\n' !in conv.text)
  {
    hide Convert, TypedHandles, Handles;
    var tokens := TypedHandles(cls, c, dir.reserved);
    TypedHandlesAreHandles(cls, c, dir.reserved);
    ConvertFirst(cls, c, tokens, dir.lookup, dir.reserved);
    ConvertChanges(cls, c, tokens, dir.lookup, 0, "", dir.reserved);
    assert "" + c[0..] == c;
    if '\n' !in c {
      ConvertNoBreak(cls, c, tokens, dir.lookup, 0, "", dir.reserved);
    }
  }

  lemma LineIs(cls: Classes, line: string, dir: Directory)
    ensures ConvertLine(cls, line, dir) == line[..Marker(line)] + ConvertContent(cls, Content(line), dir).text
    ensures line == line[..Marker(line)] + Content(line)
  {
    hide ConvertContent;
  }

  /** What a conversion may do to a line as a whole: it stays a quote or not
      with the same marker, and a fence or an opening fence or not. */
  lemma LineKept(cls: Classes, line: string, dir: Directory)
    ensures var l := ConvertLine(cls, line, dir);
            && Quoted(l) == Quoted(line) && Marker(l) == Marker(line)
            && Content(l) == ConvertContent(cls, Content(line), dir).text
            && (l == FENCE <==> line == FENCE) && FenceOpening(l) == FenceOpening(line)
            && ('\n' !in line ==> '\n' !in l)
  {
    hide *;
    var l, c := ConvertLine(cls, line, dir), Content(line);
    ContentFacts(cls, c, dir);
    LineIs(cls, line, dir);
    MarkerKept(line, ConvertContent(cls, c, dir).text);
    if '@' in line && '@' in l {
      NotAFence(line);
      NotAFence(l);
    }
  }

  lemma MarkerKept(line: string, text: string)
    requires var c := Content(line);
             (text == "" <==> c == "") && (c != "" ==> text[0] == c[0] || (c[0] == '@' && text[0] == '<'))
    ensures var l := line[..Marker(line)] + text;
            Quoted(l) == Quoted(line) && Marker(l) == Marker(line) && Content(l) == text
  {
    var l := line[..Marker(line)] + text;
    if Marker(line) == 0 {
      assert l == text && Content(line) == line;
    } else {
      assert l[0] == '>';
      assert Marker(line) == 1 && text != "" ==> l[1] == text[0] && Content(line)[0] == line[1];
      assert Marker(line) == 2 ==> l[1] == ' ';
    }
  }

  lemma NotAFence(line: string)
    requires '@' in line
    ensures line != FENCE && FenceOpening(line).None?
  {
    var k :| 0 <= k < |line| && line[k] == '@';
    assert FENCE[0] == '`' && FENCE[1] == '`' && FENCE[2] == '`';
    assert StartsAt(line, 0, FENCE) ==> line[0] == '`' && line[1] == '`' && line[2] == '`';
  }

  // ----- the whole body -----

  /** Line by line, c is what became of the lines. */
  ghost predicate Kept(cls: Classes, lines: seq<string>, c: seq<string>, dir: Directory) {
    |c| == |lines| && forall k :: 0 <= k < |lines| ==> c[k] == lines[k] || c[k] == ConvertLine(cls, lines[k], dir)
  }

  lemma {:induction false} ConvertLinesKept(cls: Classes, lines: seq<string>, i: nat, dir: Directory)
    requires i <= |lines|
    ensures var c := ConvertLines(cls, lines, i, dir);
            forall k :: i <= k < |lines| ==> c[k - i] == lines[k] || c[k - i] == ConvertLine(cls, lines[k], dir)
    decreases |lines| - i
  {
    hide ConvertLine, FenceOpening;
    if i < |lines| {
      var c := ConvertLines(cls, lines, i, dir);
      var next := if OpensCode(lines, i) then FirstFence(lines, i + 1) + 1 else i + 1;
      ConvertLinesKept(cls, lines, next, dir);
      var rest := ConvertLines(cls, lines, next, dir);
      forall k | i <= k < |lines| ensures c[k - i] == lines[k] || c[k - i] == ConvertLine(cls, lines[k], dir) {
        if k >= next {
          assert c[k - i] == rest[k - next];
        }
      }
    }
  }

  lemma KeptLine(cls: Classes, lines: seq<string>, c: seq<string>, dir: Directory, k: nat)
    requires Kept(cls, lines, c, dir) && k < |lines|
    ensures (c[k] == FENCE <==> lines[k] == FENCE) && FenceOpening(c[k]) == FenceOpening(lines[k])
    ensures Quoted(c[k]) == Quoted(lines[k]) && ('\n' !in lines[k] ==> '\n' !in c[k])
  {
    hide ConvertLine, FenceOpening, Quoted;
    LineKept(cls, lines[k], dir);
  }

  lemma {:induction false} SameFences(cls: Classes, lines: seq<string>, c: seq<string>, dir: Directory, i: nat)
    requires Kept(cls, lines, c, dir) && i <= |lines|
    ensures FirstFence(c, i) == FirstFence(lines, i)
    decreases |lines| - i
  {
    hide ConvertLine, FenceOpening;
    if i < |lines| {
      KeptLine(cls, lines, c, dir, i);
      SameFences(cls, lines, c, dir, i + 1);
    }
  }

  /** The converted body's blocks: those of the original, code unchanged, and
      every other line read from its converted content. */
  function Rebuilt(cls: Classes, lines: seq<string>, i: nat, blocks: seq<Block>, dir: Directory): seq<Block>
    requires i <= |lines|
    decreases |lines| - i
  {
    if i == |lines| then blocks
    else if OpensCode(lines, i) then
      var end := FirstFence(lines, i + 1);
      Rebuilt(cls, lines, end + 1, blocks + [CodeBlock(lines[i + 1..end], FenceOpening(lines[i]).value)], dir)
    else
      var content := ConvertContent(cls, Content(lines[i]), dir).text;
      Rebuilt(cls, lines, i + 1, WithLine(blocks, Quoted(lines[i]), Inlines(cls, content)), dir)
  }

  lemma ConvertedCode(cls: Classes, lines: seq<string>, c: seq<string>, i: nat, dir: Directory)
    requires i < |lines| == |c| && c[i..] == ConvertLines(cls, lines, i, dir) && OpensCode(lines, i)
    ensures var end := FirstFence(lines, i + 1);
            c[i..end + 1] == lines[i..end + 1] && c[end + 1..] == ConvertLines(cls, lines, end + 1, dir)
  {
    hide FenceOpening, ConvertLine;
    var end := FirstFence(lines, i + 1);
    var rest := ConvertLines(cls, lines, end + 1, dir);
    assert c[i..] == lines[i..end + 1] + rest;
    assert c[i..end + 1] == c[i..][..end + 1 - i] && c[end + 1..] == c[i..][end + 1 - i..];
  }

  lemma ConvertedNext(cls: Classes, lines: seq<string>, c: seq<string>, i: nat, dir: Directory)
    requires i < |lines| == |c| && c[i..] == ConvertLines(cls, lines, i, dir) && !OpensCode(lines, i)
    ensures c[i] == ConvertLine(cls, lines[i], dir) && c[i + 1..] == ConvertLines(cls, lines, i + 1, dir)
  {
    hide FenceOpening, ConvertLine;
    assert c[i] == c[i..][0] && c[i + 1..] == c[i..][1..];
  }

  lemma {:induction false} RebuiltFrom(cls: Classes, lines: seq<string>, c: seq<string>, i: nat, blocks: seq<Block>, dir: Directory)
    requires Kept(cls, lines, c, dir) && i <= |lines| && c[i..] == ConvertLines(cls, lines, i, dir)
    ensures BlocksFrom(cls, c, i, blocks) == Rebuilt(cls, lines, i, blocks, dir)
    decreases |lines| - i
  {
    hide ConvertLines, ConvertLine, ConvertContent, FenceOpening, FirstFence, Inlines, WithLine, Content, Quoted, Kept;
    KeptLength(cls, lines, c, dir);
    if i < |lines| {
      KeptLine(cls, lines, c, dir, i);
      SameFences(cls, lines, c, dir, i + 1);
      if OpensCode(lines, i) {
        ConvertedCode(cls, lines, c, i, dir);
        var end := FirstFence(lines, i + 1);
        Inner(c, i, end);
        Inner(lines, i, end);
        RebuiltFrom(cls, lines, c, end + 1, blocks + [CodeBlock(lines[i + 1..end], FenceOpening(lines[i]).value)], dir);
      } else {
        ConvertedNext(cls, lines, c, i, dir);
        LineKept(cls, lines[i], dir);
        var content := ConvertContent(cls, Content(lines[i]), dir).text;
        RebuiltFrom(cls, lines, c, i + 1, WithLine(blocks, Quoted(lines[i]), Inlines(cls, content)), dir);
      }
    }
  }

  lemma Inner(s: seq<string>, i: nat, end: nat)
    requires i < end < |s|
    ensures s[i + 1..end] == s[i..end + 1][1..end - i]
  {
    var outer := s[i..end + 1];
    var a, b := s[i + 1..end], outer[1..end - i];
    forall k | 0 <= k < |a| ensures a[k] == b[k] {
      assert b[k] == outer[k + 1] == s[i + (k + 1)];
    }
  }

  lemma KeptLength(cls: Classes, lines: seq<string>, c: seq<string>, dir: Directory)
    requires Kept(cls, lines, c, dir)
    ensures |c| == |lines|
  {
    hide ConvertLine;
  }

  lemma {:induction false} LinesJoin(lines: seq<string>)
    requires lines != [] && forall k :: 0 <= k < |lines| ==> '\n' !in lines[k]
    ensures Lines(Join(lines)) == lines
  {
    if |lines| == 1 {
      NoBreakNoSplit(lines[0]);
    } else {
      LinesJoin(lines[1..]);
      BreakSplits(lines[0], Join(lines[1..]));
    }
  }

  lemma NoBreakNoSplit(a: string)
    requires '\n' !in a
    ensures Lines(a) == [a]
  {
    assert forall k :: 0 <= k < |a| ==> a[k] in a;
  }

  lemma BreakSplits(a: string, b: string)
    requires '\n' !in a
    ensures Lines(a + "\n" + b) == [a] + Lines(b)
  {
    var s := a + "\n" + b;
    var n := Find(s, '\n', 0);
    assert s[|a|] == '\n' && forall k :: 0 <= k < |a| ==> s[k] == a[k] && a[k] in a;
    assert n == |a| && s[..n] == a && s[n + 1..] == b;
  }

  /** The converted body parses to the blocks of the original, each line of
      text or quote read from its converted content. */
  lemma ConvertedBodyReads(cls: Classes, body: string, dir: Directory)
    ensures Parse(cls, ConvertBody(cls, body, dir)) == Rebuilt(cls, Lines(body), 0, [], dir)
  {
    hide Lines, Join, ConvertLines, BlocksFrom, Rebuilt, Kept, ConvertLine;
    var lines := Lines(body);
    var c := ConvertLines(cls, lines, 0, dir);
    assert Kept(cls, lines, c, dir) by { AllKept(cls, lines, dir); }
    LinesHaveNoBreak(body);
    forall k | 0 <= k < |c| ensures '\n' !in c[k] {
      KeptLine(cls, lines, c, dir, k);
    }
    LinesJoin(c);
    assert c[0..] == c;
    RebuiltFrom(cls, lines, c, 0, [], dir);
  }

  lemma AllKept(cls: Classes, lines: seq<string>, dir: Directory)
    ensures Kept(cls, lines, ConvertLines(cls, lines, 0, dir), dir)
  {
    hide ConvertLines, ConvertLine;
    ConvertLinesKept(cls, lines, 0, dir);
    var c := ConvertLines(cls, lines, 0, dir);
    assert forall k :: 0 <= k < |lines| ==> c[k - 0] == c[k];
  }

  /** And in each such content every reference is read as it was meant. */
  lemma ConvertedContentsRead(cls: Classes, body: string, dir: Directory, n: nat)
    requires cls.Valid() && n < |Lines(body)|
    ensures var c := ConvertContent(cls, Content(Lines(body)[n]), dir);
            forall k :: 0 <= k < |c.refs| ==> ReadsBack(cls, c.text, c.refs[k])
  {
    hide Lines, Convert, TypedHandles, ReadsBack, Handles, Content;
    var content := Content(Lines(body)[n]);
    TypedHandlesAreHandles(cls, content, dir.reserved);
    var tokens := TypedHandles(cls, content, dir.reserved);
    InsertedReferencesRead(cls, content, tokens, dir.lookup, dir.reserved);
    assert ConvertContent(cls, content, dir) == Convert(cls, content, tokens, dir.lookup, 0, "");
  }
}
