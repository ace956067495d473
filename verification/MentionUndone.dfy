module MentionUndone {
  /** Converting typed handles changes nothing else: with every inserted
      reference replaced by the handle that was typed, and the escape that was
      put after it taken out, the converted line is the typed one. */

  import opened Common
  import opened ChatGrammar
  import opened ChatBlocks
  import opened MentionReading
  import opened Mentions
  import opened MentionScan
  import opened MentionBody
  import opened MentionTree
  import P = Payload

  /** The typed handles that name somebody, '@' included. */
  function Found(s: string, tokens: seq<Token>, lookup: string -> Option<P.ID>): seq<string> {
    if tokens == [] || !(tokens[0].start < tokens[0].end <= |s|) then []
    else
      (if lookup(s[tokens[0].start + 1..tokens[0].end]).Some? then [s[tokens[0].start..tokens[0].end]] else [])
      + Found(s, tokens[1..], lookup)
  }

  /** Where the line goes on after a reference and the escape put after it. */
  function Resumes(f: string, ins: Inserted): nat {
    var next := ins.at + 39;
    if ins.underscore && next < |f| && f[next] == '\\' then next + 1 else next
  }

  /** The line from `from` on with handles in place of the references. */
  function Restored(f: string, refs: seq<Inserted>, handles: seq<string>, from: nat): string
    decreases |refs|
  {
    if refs == [] || handles == [] || !(from <= refs[0].at && refs[0].at + 39 <= |f|) then
      if from <= |f| then f[from..] else ""
    else f[from..refs[0].at] + handles[0] + Restored(f, refs[1..], handles[1..], Resumes(f, refs[0]))
  }

  /** What stands before the next reference is copied. */
  lemma RestoredEarlier(f: string, refs: seq<Inserted>, handles: seq<string>, a: nat, b: nat)
    requires a <= b <= |f| && (refs != [] ==> b <= refs[0].at)
    ensures Restored(f, refs, handles, a) == f[a..b] + Restored(f, refs, handles, b)
  {
    assert f[a..] == f[a..b] + f[b..];
    if refs != [] && handles != [] && refs[0].at + 39 <= |f| {
      var rest := Restored(f, refs[1..], handles[1..], Resumes(f, refs[0]));
      assert f[a..refs[0].at] == f[a..b] + f[b..refs[0].at];
      assert f[a..refs[0].at] + handles[0] + rest == f[a..b] + (f[b..refs[0].at] + handles[0] + rest);
    }
  }

  lemma RestoredRest(f: string, from: nat)
    requires from <= |f|
    ensures Restored(f, [], [], from) == f[from..]
  {
  }

  lemma RestoredNext(f: string, ins: Inserted, refs: seq<Inserted>, handle: string, handles: seq<string>, from: nat)
    requires from <= ins.at && ins.at + 39 <= |f|
    ensures Restored(f, [ins] + refs, [handle] + handles, from) == f[from..ins.at] + handle + Restored(f, refs, handles, Resumes(f, ins))
  {
  }

  /** Each reference is for the member whose handle was typed there. */
  ghost predicate Name(refs: seq<Inserted>, handles: seq<string>, lookup: string -> Option<P.ID>) {
    |refs| == |handles| && forall k :: 0 <= k < |refs| ==> handles[k] != "" && lookup(handles[k][1..]) == Some(refs[k].member)
  }

  lemma NameMore(ins: Inserted, handle: string, refs: seq<Inserted>, handles: seq<string>, lookup: string -> Option<P.ID>)
    requires Name(refs, handles, lookup) && handle != "" && lookup(handle[1..]) == Some(ins.member)
    ensures Name([ins] + refs, [handle] + handles, lookup)
  {
  }

  lemma FoundHere(s: string, tokens: seq<Token>, lookup: string -> Option<P.ID>)
    requires tokens != [] && tokens[0].start < tokens[0].end <= |s|
    ensures var t := tokens[0];
            && s[t.start..t.end] != "" && s[t.start..t.end][1..] == s[t.start + 1..t.end]
            && Found(s, tokens, lookup)
               == (if lookup(s[t.start + 1..t.end]).Some? then [s[t.start..t.end]] + Found(s, tokens[1..], lookup) else Found(s, tokens[1..], lookup))
  {
  }

  /** Where the reading goes on after a reference is where the line was then. */
  lemma ResumesThere(cls: Classes, s: string, tokens: seq<Token>, lookup: string -> Option<P.ID>, from: nat, done: string,
                     reserved: string -> bool, id: P.ID)
    requires cls.Valid() && from <= |s| && tokens != [] && Handles(cls, s, tokens, from, reserved)
    requires from <= tokens[0].start < tokens[0].end <= |s| && lookup(s[tokens[0].start + 1..tokens[0].end]) == Some(id)
    ensures var t, f, next := tokens[0], Convert(cls, s, tokens, lookup, from, done).text, After(cls, s, tokens[0], lookup, from, done);
            var at := |done| + t.start - from;
            && at + 39 <= |next| <= |f| && f[|done|..at] == s[from..t.start]
            && Resumes(f, Inserted(at, id, Underscored(s, t))) == |next|
  {
    hide Handles, IsHandle, Convert, After, Escapes, ReferenceText;
    FoundText(cls, s, tokens, lookup, from, done, reserved);
    AfterFound(cls, s, tokens[0], lookup, from, done, id);
    NextHandleIsLater(cls, s, tokens[1..], tokens[0], reserved);
    var t, f, next := tokens[0], Convert(cls, s, tokens, lookup, from, done).text, After(cls, s, tokens[0], lookup, from, done);
    var r := WithReference(s, from, done, t, id);
    assert |r| == |done| + t.start - from + 39;
    assert f[|done|..|done| + t.start - from] == s[from..t.start] by { Prefix(done, s[from..t.start], f, next, r); }
    if Escapes(cls, s, t, r) {
      assert next == r + "\\" && f[|r|] == next[|r|];
      assert Underscored(s, t) by { EscapesUnderscores(cls, s, t, r); }
    } else if Underscored(s, t) {
      UnderscoreFollows(s, f, r, t.end, Copied(s, tokens[1..]));
    }
  }

  lemma EscapesUnderscores(cls: Classes, s: string, t: Token, r: string)
    requires t.end <= |s| && Escapes(cls, s, t, r)
    ensures Underscored(s, t)
  {
  }

  lemma Prefix(done: string, piece: string, f: string, next: string, r: string)
    requires done + piece <= r <= next <= f
    ensures f[|done|..|done| + |piece|] == piece
  {
    var d := done + piece;
    forall k | 0 <= k < |piece| ensures f[|done| + k] == piece[k] {
      assert d[|done| + k] == piece[k] && r[|done| + k] == d[|done| + k];
    }
  }

  lemma UnderscoreFollows(s: string, f: string, r: string, end: nat, copied: nat)
    requires end < copied <= |s| && s[end] == '_' && r + s[end..copied] <= f
    ensures |r| < |f| && f[|r|] == '_'
  {
    var g := r + s[end..copied];
    assert g[|r|] == '_';
  }

  lemma {:induction false} Undone(cls: Classes, s: string, tokens: seq<Token>, lookup: string -> Option<P.ID>, from: nat, done: string,
                                  reserved: string -> bool)
    requires cls.Valid() && from <= |s| && Handles(cls, s, tokens, from, reserved)
    ensures var c, handles := Convert(cls, s, tokens, lookup, from, done), Found(s, tokens, lookup);
            Name(c.refs, handles, lookup) && Restored(c.text, c.refs, handles, |done|) == s[from..]
    decreases |tokens|
  {
    hide Convert, Handles, IsHandle, After, Found, Name, Resumes, Underscored, Restored;
    if tokens == [] {
      ConvertRest(cls, s, lookup, from, done);
      NothingFound(s, lookup);
      RestoredRest(done + s[from..], |done|);
      assert (done + s[from..])[|done|..] == s[from..];
    } else {
      FoundText(cls, s, tokens, lookup, from, done, reserved);
      var t, found := tokens[0], lookup(s[tokens[0].start + 1..tokens[0].end]);
      ConvertRefs(cls, s, tokens, lookup, from, done);
      FoundHere(s, tokens, lookup);
      var next := After(cls, s, t, lookup, from, done);
      var rest := Convert(cls, s, tokens[1..], lookup, t.end, next);
      Undone(cls, s, tokens[1..], lookup, t.end, next, reserved);
      if found.None? {
        InsertionsRise(cls, s, tokens[1..], lookup, t.end, next);
        AfterNobody(cls, s, t, lookup, from, done);
        Prefix(done, s[from..t.end], rest.text, next, next);
        RestoredEarlier(rest.text, rest.refs, Found(s, tokens[1..], lookup), |done|, |next|);
        assert s[from..t.end] + s[t.end..] == s[from..];
      } else {
        ResumesThere(cls, s, tokens, lookup, from, done, reserved, found.value);
        var ins := Inserted(|done| + t.start - from, found.value, Underscored(s, t));
        RestoredNext(rest.text, ins, rest.refs, s[t.start..t.end], Found(s, tokens[1..], lookup), |done|);
        NameMore(ins, s[t.start..t.end], rest.refs, Found(s, tokens[1..], lookup), lookup);
        assert s[from..] == s[from..t.start] + s[t.start..t.end] + s[t.end..];
      }
    }
  }

  lemma NothingFound(s: string, lookup: string -> Option<P.ID>)
    ensures Found(s, [], lookup) == [] && Name([], [], lookup)
  {
  }

  /** Every typed handle that names somebody becomes a reference to them, in
      order, and nothing else of the line changes: put the handles back, without
      the escapes after them, and it is the line as typed. */
  lemma ConversionIsUndone(cls: Classes, line: string, tokens: seq<Token>, lookup: string -> Option<P.ID>, reserved: string -> bool)
    requires cls.Valid() && Handles(cls, line, tokens, 0, reserved)
    ensures var c, handles := Convert(cls, line, tokens, lookup, 0, ""), Found(line, tokens, lookup);
            Name(c.refs, handles, lookup) && Restored(c.text, c.refs, handles, 0) == line
  {
    hide Convert, Handles, Found, Name, Restored;
    Undone(cls, line, tokens, lookup, 0, "", reserved);
    assert line[0..] == line;
  }
}
