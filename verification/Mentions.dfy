/** Typed handles (internal/conversation/mentions.go): where they are, and what
    becomes of a line when those the directory knows are written as
    references. The parser must read each of them as that member, and a '_'
    right after one must not become markup the author did not type. */
module Mentions {
  import opened Common
  import opened ChatGrammar
  import opened MentionReading
  import P = Payload

  // ----- handles -----

  /** Which positions, from construct start i on, the parser keeps as typed. */
  function Mask(cls: Classes, s: string, i: nat): (mask: seq<bool>)
    requires i <= |s|
    ensures |mask| == |s| - i
    decreases |s| - i
  {
    if i == |s| then []
    else seq(NextAt(cls, s, i) - i, _ => ConstructAt(cls, s, i).Literal()) + Mask(cls, s, NextAt(cls, s, i))
  }

  predicate HandleChar(c: char) {
    Alphanumeric(c) || c == '_' || c == '.' || c == '-'
  }

  /** org.ValidateHandle, as far as it can fail on handle characters. */
  predicate ValidHandle(handle: string, reserved: string -> bool) {
    && 2 <= |handle| <= 32 && ('a' <= handle[0] <= 'z' || 'A' <= handle[0] <= 'Z')
    && Alphanumeric(handle[|handle| - 1]) && (forall k :: 0 <= k < |handle| ==> HandleChar(handle[k]))
    && !reserved(handle)
  }

  /** A typed handle, '@' included. */
  datatype Token = Token(start: nat, end: nat)

  /** '@' at the start of a line's content, or after a space or '(', and a
      valid handle, all of it kept as typed by the parser. */
  ghost predicate IsHandle(cls: Classes, s: string, t: Token, reserved: string -> bool) {
    && t.start < t.end <= |s| && s[t.start] == '@' && MayFollow(cls, s, t.start)
    && ValidHandle(s[t.start + 1..t.end], reserved)
    && forall k :: t.start <= k < t.end ==> Mask(cls, s, 0)[k]
  }

  ghost predicate Handles(cls: Classes, s: string, tokens: seq<Token>, from: nat, reserved: string -> bool) {
    && (forall k :: 0 <= k < |tokens| ==> IsHandle(cls, s, tokens[k], reserved) && from <= tokens[k].start)
    && (forall k :: 0 < k < |tokens| ==> tokens[k - 1].end <= tokens[k].start)
  }

  /** A masked character other than '*' is a construct of its own. */
  lemma {:induction false} MaskReaches(cls: Classes, s: string, i: nat, j: nat)
    requires i <= j < |s| && Mask(cls, s, i)[j - i] && s[j] != '*'
    ensures Reaches(cls, s, i, j) && NextAt(cls, s, j) == j + 1
    decreases |s| - i
  {
    var n := NextAt(cls, s, i);
    hide NextAt, ConstructAt, Reaches;
    if i < j {
      ReachesNext(cls, s, i, j);
    }
    if j < n {
      LiteralWidth(cls, s, i);
      ReachesHere(cls, s, i);
    } else {
      MaskReaches(cls, s, n, j);
    }
  }

  lemma LiteralWidth(cls: Classes, s: string, i: nat)
    requires i < |s| && ConstructAt(cls, s, i).Literal()
    ensures NextAt(cls, s, i) == i + 1 || (NextAt(cls, s, i) == i + 2 && s[i] == '*' && s[i + 1] == '*')
  {
    assert "**"[0] == '*' && "**"[1] == '*';
  }

  /** A construct starts at a handle's '@' and right after its last letter. */
  lemma HandleReaches(cls: Classes, s: string, t: Token, reserved: string -> bool)
    requires IsHandle(cls, s, t, reserved)
    ensures Reaches(cls, s, 0, t.start) && Reaches(cls, s, 0, t.end) && Alphanumeric(s[t.end - 1])
    ensures forall k :: t.start <= k < t.end ==> s[k] != '`'
  {
    hide *;
    HandleChars(cls, s, t, reserved);
    MaskReaches(cls, s, 0, t.start);
    MaskReaches(cls, s, 0, t.end - 1);
    ReachesNext(cls, s, t.end - 1, t.end);
    ReachesHere(cls, s, t.end);
    ReachesOn(cls, s, 0, t.end - 1, t.end);
  }

  lemma HandleChars(cls: Classes, s: string, t: Token, reserved: string -> bool)
    requires IsHandle(cls, s, t, reserved)
    ensures t.start + 1 < t.end <= |s| && s[t.start] != '*' && s[t.end - 1] != '*' && Alphanumeric(s[t.end - 1])
    ensures Mask(cls, s, 0)[t.start] && Mask(cls, s, 0)[t.end - 1]
    ensures forall k :: t.start <= k < t.end ==> s[k] != '`'
  {
    hide Mask;
    var handle := s[t.start + 1..t.end];
    assert forall k :: t.start < k < t.end ==> s[k] == handle[k - t.start - 1];
    assert s[t.end - 1] == handle[|handle| - 1];
  }

  // ----- the converted line -----

  /** A reference put in: where, whose, and whether a '_' was typed after the
      handle. */
  datatype Inserted = Inserted(at: nat, member: P.ID, underscore: bool)

  datatype Converted = Converted(text: string, refs: seq<Inserted>)

  /** The line up to and including the reference for t. */
  function WithReference(s: string, from: nat, done: string, t: Token, id: P.ID): string
    requires from <= t.start <= |s|
  {
    done + s[from..t.start] + ReferenceText(id)
  }

  predicate Underscored(s: string, t: Token) {
    t.end < |s| && s[t.end] == '_'
  }

  /** Whether the '_' after a reference must be escaped: it would not close an
      italic of the line as converted so far and typed from there on. */
  predicate Escapes(cls: Classes, s: string, t: Token, r: string)
    requires t.end <= |s|
  {
    t.end < |s| && s[t.end] == '_' && !ItalicClosesAt(cls, r + s[t.end..], |r|)
  }

  /** What is done once t has been dealt with. */
  function After(cls: Classes, s: string, t: Token, lookup: string -> Option<P.ID>, from: nat, done: string): string
    requires from <= t.start < t.end <= |s|
  {
    match lookup(s[t.start + 1..t.end])
    case None => done + s[from..t.end]
    case Some(id) =>
      var r := WithReference(s, from, done, t, id);
      if Escapes(cls, s, t, r) then r + "\\" else r
  }

  /** Converts s from `from` on; `done` is what was before, converted. */
  function Convert(cls: Classes, s: string, tokens: seq<Token>, lookup: string -> Option<P.ID>, from: nat, done: string): Converted
    requires from <= |s|
    decreases |tokens|
  {
    if tokens == [] || !(from <= tokens[0].start < tokens[0].end <= |s|) then Converted(done + s[from..], [])
    else
      var t := tokens[0];
      var rest := Convert(cls, s, tokens[1..], lookup, t.end, After(cls, s, t, lookup, from, done));
      match lookup(s[t.start + 1..t.end])
      case None => rest
      case Some(id) => rest.(refs := [Inserted(|done| + t.start - from, id, Underscored(s, t))] + rest.refs)
  }

  /** What the reader of the converted line makes of an inserted reference: it
      is that member's, and a '_' typed after it still stands there, escaped
      unless it closes an italic. No other '_' comes after it. */
  ghost predicate ReadsBack(cls: Classes, f: string, ins: Inserted) {
    var next := ins.at + 39;
    && next <= |f| && Reaches(cls, f, 0, ins.at) && ConstructAt(cls, f, ins.at) == Member(ins.member)
    && (ins.underscore ==>
          next < |f| && if f[next] == '_' then ItalicClosesAt(cls, f, next) else next + 1 < |f| && f[next..next + 2] == "\\_")
    && (!ins.underscore ==> next == |f| || f[next] != '_')
  }

  // ----- what the converted text looks like -----

  /** How far the line is copied unchanged before the next handle. */
  function Copied(s: string, tokens: seq<Token>): nat {
    if tokens == [] then |s| else tokens[0].start
  }

  lemma TailHandles(cls: Classes, s: string, tokens: seq<Token>, from: nat, reserved: string -> bool)
    requires tokens != [] && Handles(cls, s, tokens, from, reserved)
    ensures IsHandle(cls, s, tokens[0], reserved) && from <= tokens[0].start < tokens[0].end <= |s|
    ensures Handles(cls, s, tokens[1..], tokens[0].end, reserved)
  {
    hide IsHandle;
    var rest := tokens[1..];
    assert forall k :: 0 <= k < |rest| ==> rest[k] == tokens[k + 1];
    forall k | 0 <= k < |rest| ensures tokens[0].end <= rest[k].start {
      Ascending(cls, s, tokens, from, reserved, k);
    }
    assert tokens[0].start < tokens[0].end <= |s| by { HandleSpan(cls, s, tokens[0], reserved); }
  }

  lemma HandleSpan(cls: Classes, s: string, t: Token, reserved: string -> bool)
    requires IsHandle(cls, s, t, reserved)
    ensures t.start < t.end <= |s|
  {
  }

  lemma {:induction false} Ascending(cls: Classes, s: string, tokens: seq<Token>, from: nat, reserved: string -> bool, k: nat)
    requires Handles(cls, s, tokens, from, reserved) && k + 1 < |tokens|
    ensures tokens[0].end <= tokens[k + 1].start
  {
    hide IsHandle;
    if k > 0 {
      Ascending(cls, s, tokens, from, reserved, k - 1);
      HandleSpan(cls, s, tokens[k], reserved);
    }
  }

  lemma AfterStarts(cls: Classes, s: string, t: Token, lookup: string -> Option<P.ID>, from: nat, done: string)
    requires from <= t.start < t.end <= |s|
    ensures done + s[from..t.start] <= After(cls, s, t, lookup, from, done)
  {
    hide Escapes, ReferenceText;
    assert s[from..t.start] <= s[from..t.end];
  }

  lemma ConvertStep(cls: Classes, s: string, tokens: seq<Token>, lookup: string -> Option<P.ID>, from: nat, done: string)
    requires tokens != [] && from <= tokens[0].start < tokens[0].end <= |s|
    ensures Convert(cls, s, tokens, lookup, from, done).text
         == Convert(cls, s, tokens[1..], lookup, tokens[0].end, After(cls, s, tokens[0], lookup, from, done)).text
  {
    hide After;
  }

  /** The converted text starts with what was done and what is copied next. */
  lemma {:induction false} ConvertStarts(cls: Classes, s: string, tokens: seq<Token>, lookup: string -> Option<P.ID>,
                                         from: nat, done: string, reserved: string -> bool)
    requires from <= |s| && Handles(cls, s, tokens, from, reserved)
    ensures from <= Copied(s, tokens) <= |s|
    ensures done + s[from..Copied(s, tokens)] <= Convert(cls, s, tokens, lookup, from, done).text
    decreases |tokens|
  {
    if tokens != [] {
      TailHandles(cls, s, tokens, from, reserved);
      ConvertStep(cls, s, tokens, lookup, from, done);
      hide Handles, IsHandle, After, Convert;
      AfterStarts(cls, s, tokens[0], lookup, from, done);
      ConvertStarts(cls, s, tokens[1..], lookup, tokens[0].end, After(cls, s, tokens[0], lookup, from, done), reserved);
    } else {
      assert s[from..] == s[from..|s|];
    }
  }

  lemma TickIn(s: string, i: nat)
    requires i <= |s|
    ensures HasTick(s, i) <==> '`' in s[i..]
  {
    var at := Find(s, '`', i);
    if at < |s| {
      assert s[i..][at - i] == '`';
    } else {
      assert forall k :: 0 <= k < |s[i..]| ==> s[i..][k] == s[i + k];
    }
  }

  lemma ReferenceHasNoTick(id: P.ID)
    ensures '`' !in ReferenceText(id)
  {
    P.FormatIsCanonical(id);
    forall k | 0 <= k < 39 ensures ReferenceText(id)[k] != '`' {
      if 2 <= k < 38 {
        assert ReferenceText(id)[k] == P.Format(id)[k - 2];
        assert P.Dash(k - 2) || P.HexValue(P.Format(id)[k - 2]).Some?;
      }
    }
  }

  /** A piece of the line without backticks changes nothing about them. */
  lemma TickSplit(s: string, from: nat, mid: nat, end: nat)
    requires from <= mid <= end <= |s| && forall k :: mid <= k < end ==> s[k] != '`'
    ensures '`' in s[from..] <==> '`' in s[from..mid] || '`' in s[end..]
  {
    assert s[from..] == s[from..mid] + s[mid..end] + s[end..];
  }

  lemma AfterTicks(cls: Classes, s: string, t: Token, lookup: string -> Option<P.ID>, from: nat, done: string) returns (more: string)
    requires from <= t.start < t.end <= |s| && forall k :: t.start <= k < t.end ==> s[k] != '`'
    ensures After(cls, s, t, lookup, from, done) == done + more && ('`' in more <==> '`' in s[from..t.start])
  {
    hide Escapes, ReferenceText;
    var found := lookup(s[t.start + 1..t.end]);
    if found.None? {
      more := s[from..t.end];
      assert more == s[from..t.start] + s[t.start..t.end];
    } else {
      ReferenceHasNoTick(found.value);
      var r := WithReference(s, from, done, t, found.value);
      var tail := if Escapes(cls, s, t, r) then "\\" else "";
      more := s[from..t.start] + ReferenceText(found.value) + tail;
      assert done + more == r + tail && r + "" == r;
    }
  }

  /** Conversion neither brings nor takes backticks. */
  lemma {:induction false} ConvertTicks(cls: Classes, s: string, tokens: seq<Token>, lookup: string -> Option<P.ID>,
                                        from: nat, done: string, reserved: string -> bool)
    requires from <= |s| && Handles(cls, s, tokens, from, reserved)
    ensures var text := Convert(cls, s, tokens, lookup, from, done).text;
            done <= text && ('`' in text[|done|..] <==> '`' in s[from..])
    decreases |tokens|
  {
    if tokens == [] {
      assert (done + s[from..])[|done|..] == s[from..];
    } else {
      TailHandles(cls, s, tokens, from, reserved);
      var t := tokens[0];
      HandleChars(cls, s, t, reserved);
      ConvertStep(cls, s, tokens, lookup, from, done);
      hide Handles, IsHandle, After, Mask, Convert;
      TickSplit(s, from, t.start, t.end);
      var more := AfterTicks(cls, s, t, lookup, from, done);
      ConvertTicks(cls, s, tokens[1..], lookup, t.end, done + more, reserved);
      Continued(done, more, Convert(cls, s, tokens[1..], lookup, t.end, done + more).text);
    }
  }

  lemma Continued(done: string, more: string, text: string)
    requires done + more <= text
    ensures done <= text && text[|done|..] == more + text[|done + more|..]
  {
  }

  // ----- how the converted line is read -----

  /** With s read up to `from` and `done` written, f goes on like s from b on:
      a construct starts in both, and links may start in both or neither. */
  ghost predicate Anchored(cls: Classes, s: string, f: string, from: nat, done: string, b: nat) {
    var d := |done| - from;
    && from <= |s| && done <= f && b <= |s| && 0 <= b + d <= |f|
    && Reaches(cls, s, 0, b) && Reaches(cls, f, 0, b + d)
    && (MayFollow(cls, s, b) <==> MayFollow(cls, f, b + d))
    && forall k :: b <= k < from ==> s[k] == f[k + d]
  }

  lemma AnchoredStart(cls: Classes, s: string, f: string)
    ensures Anchored(cls, s, f, 0, "", 0)
  {
    ReachesHere(cls, s, 0);
    ReachesHere(cls, f, 0);
  }

  /** A handle nobody has is just more of the line. */
  lemma AnchoredCopy(cls: Classes, s: string, f: string, from: nat, done: string, b: nat, to: nat)
    requires Anchored(cls, s, f, from, done, b) && from <= to <= |s| && done + s[from..to] <= f
    ensures Anchored(cls, s, f, to, done + s[from..to], b)
  {
    hide Reaches, MayFollow;
    var more := done + s[from..to];
    forall k | b <= k < to ensures s[k] == f[k + (|done| - from)] {
      if k >= from {
        assert more[|done| + (k - from)] == s[from..to][k - from] == s[k];
      }
    }
  }

  /** Up to the handle the lines are in step, and there stands the reference. */
  lemma AnchoredShift(cls: Classes, s: string, f: string, from: nat, done: string, b: nat, t: Token, id: P.ID, reserved: string -> bool)
    requires Anchored(cls, s, f, from, done, b) && IsHandle(cls, s, t, reserved)
    requires from <= t.start && b <= t.start && WithReference(s, from, done, t, id) <= f
    requires HasTick(f, |done| + t.start - from) ==> HasTick(s, t.start)
    ensures var d := |done| - from;
            && Shifted(cls, s, f, b, t.start, d) && 0 <= b + d <= |f| && b <= |s|
            && Reaches(cls, s, 0, b) && Reaches(cls, f, 0, b + d)
            && t.start + d + 39 == |WithReference(s, from, done, t, id)| <= |f|
            && forall k :: 0 <= k < 39 ==> f[t.start + d + k] == ReferenceText(id)[k]
  {
    hide Reaches, HasTick, MayFollow, ReferenceText, Mask, ValidHandle;
    var d := |done| - from;
    var r, at := WithReference(s, from, done, t, id), t.start + d;
    assert r[..at] == done + s[from..t.start];
    AnchoredCopy(cls, s, f, from, done, b, t.start);
    forall k | 0 <= k < 39 ensures f[at + k] == ReferenceText(id)[k] {
      assert f[at + k] == r[at + k];
    }
    StartsLess(id);
    assert f[at + 0] == '<';
  }

  /** The reference is read, and reading goes on after it. */
  lemma ReferenceRead(cls: Classes, s: string, f: string, from: nat, done: string, b: nat, t: Token, id: P.ID, reserved: string -> bool)
    requires cls.Valid() && Anchored(cls, s, f, from, done, b) && IsHandle(cls, s, t, reserved)
    requires from <= t.start && b <= t.start && WithReference(s, from, done, t, id) <= f
    requires HasTick(f, |done| + t.start - from) ==> HasTick(s, t.start)
    ensures var at := |done| + t.start - from;
            && at + 39 == |WithReference(s, from, done, t, id)| <= |f| && Reaches(cls, f, 0, at)
            && ConstructAt(cls, f, at) == Member(id) && Reaches(cls, f, 0, at + 39)
  {
    hide *;
    var d := |done| - from;
    var at := t.start + d;
    AnchoredShift(cls, s, f, from, done, b, t, id, reserved);
    HandleReaches(cls, s, t, reserved);
    HandleSpan(cls, s, t, reserved);
    ReachesBetween(cls, s, 0, b, t.start);
    ReachesShifted(cls, s, f, b, t.start, d);
    ReachesOn(cls, f, 0, b + d, at);
    MemberHere(cls, f, at, id);
    OneFurther(cls, f, at, at + 39);
  }

  lemma StartsLess(id: P.ID)
    ensures ReferenceText(id)[0] == '<' && ReferenceText(id)[38] == '>'
  {
  }

  lemma MemberHere(cls: Classes, f: string, at: nat, id: P.ID)
    requires at + 39 <= |f| && forall k :: 0 <= k < 39 ==> f[at + k] == ReferenceText(id)[k]
    ensures ConstructAt(cls, f, at) == Member(id) && NextAt(cls, f, at) == at + 39
  {
    ReferenceReads(f, at, id);
    StartsLess(id);
    assert f[at + 0] == '<';
    hide ReferenceAt, ReferenceText;
  }

  /** After a handle's last letter no link or handle may start; nor after the
      '>' that replaces it, or after a '_'. */
  lemma NothingFollows(cls: Classes, s: string, i: nat)
    requires cls.Valid() && 0 < i <= |s| && (Alphanumeric(s[i - 1]) || s[i - 1] == '>' || s[i - 1] == '_')
    ensures !MayFollow(cls, s, i)
  {
  }

  lemma FirstHandle(cls: Classes, s: string, tokens: seq<Token>, from: nat, reserved: string -> bool)
    requires tokens != [] && Handles(cls, s, tokens, from, reserved)
    ensures from <= tokens[0].start < |s| && MayFollow(cls, s, tokens[0].start) && s[tokens[0].start] == '@'
  {
    hide Mask, ValidHandle, MayFollow;
  }

  /** The next handle does not start right after this one, nor after a '_' there. */
  lemma NextHandleIsLater(cls: Classes, s: string, tokens: seq<Token>, t: Token, reserved: string -> bool)
    requires cls.Valid() && IsHandle(cls, s, t, reserved) && Handles(cls, s, tokens, t.end, reserved)
    ensures t.end <= Copied(s, tokens) <= |s| && (tokens != [] ==> t.end < Copied(s, tokens))
    ensures tokens != [] && s[t.end] == '_' ==> t.end + 1 < Copied(s, tokens)
  {
    hide Handles, IsHandle, MayFollow;
    HandleChars(cls, s, t, reserved);
    NothingFollows(cls, s, t.end);
    if tokens != [] {
      FirstHandle(cls, s, tokens, t.end, reserved);
      if s[t.end] == '_' {
        NothingFollows(cls, s, t.end + 1);
      }
    }
  }

  /** An unescaped '_' after a reference closes an italic of the final line
      too: what comes later does not matter to that. */
  lemma UnderscoreCloses(cls: Classes, s: string, tokens: seq<Token>, lookup: string -> Option<P.ID>, t: Token, r: string, reserved: string -> bool)
    requires cls.Valid() && IsHandle(cls, s, t, reserved) && Handles(cls, s, tokens, t.end, reserved)
    requires r != [] && r[|r| - 1] == '>' && !Escapes(cls, s, t, r)
    requires var f := Convert(cls, s, tokens, lookup, t.end, r).text; r <= f && Reaches(cls, f, 0, |r|)
    ensures var f := Convert(cls, s, tokens, lookup, t.end, r).text;
            |r| < |f| && f[|r|] == '_' ==> ItalicClosesAt(cls, f, |r|)
  {
    hide *;
    HandleSpan(cls, s, t, reserved);
    var f, g := Convert(cls, s, tokens, lookup, t.end, r).text, r + s[t.end..];
    ConvertTicks(cls, s, tokens, lookup, t.end, r, reserved);
    TickIn(f, |r|);
    TickIn(g, |r|);
    assert g[|r|..] == s[t.end..];
    if |r| < |f| && f[|r|] == '_' {
      UnderscoreSame(cls, s, tokens, lookup, t, r, reserved);
      EscapeRule(cls, s, t, r);
      AlikeIf(f, g, |r|);
      ItalicAgrees(cls, f, g, |r|);
    }
  }

  lemma EscapesUnderscore(cls: Classes, s: string, t: Token, r: string)
    requires t.end <= |s| && Escapes(cls, s, t, r)
    ensures Underscored(s, t)
  {
  }

  lemma EscapeRule(cls: Classes, s: string, t: Token, r: string)
    requires t.end < |s| && s[t.end] == '_' && !Escapes(cls, s, t, r)
    ensures ItalicClosesAt(cls, r + s[t.end..], |r|)
  {
    hide ItalicClosesAt;
  }

  lemma AlikeIf(f: string, g: string, r: nat)
    requires 0 < r <= |f| && r <= |g| && (forall k :: 0 <= k < r ==> f[k] == g[k])
    requires f[r - 1] == '>' && HasTick(f, r) == HasTick(g, r)
    ensures Alike(f, g, r)
  {
    hide HasTick;
  }

  /** A '_' there was typed there, and the character after it, too. */
  lemma UnderscoreSame(cls: Classes, s: string, tokens: seq<Token>, lookup: string -> Option<P.ID>, t: Token, r: string, reserved: string -> bool)
    requires cls.Valid() && IsHandle(cls, s, t, reserved) && Handles(cls, s, tokens, t.end, reserved) && t.end <= |s|
    requires var f := Convert(cls, s, tokens, lookup, t.end, r).text; r <= f && |r| < |f| && f[|r|] == '_'
    ensures var f, g := Convert(cls, s, tokens, lookup, t.end, r).text, r + s[t.end..];
            && t.end < |s| && s[t.end] == '_' && |r| < |g| && g[|r|] == '_'
            && (|r| + 1 == |f| <==> |r| + 1 == |g|) && (|r| + 1 < |f| ==> f[|r| + 1] == g[|r| + 1])
            && forall k :: 0 <= k < |r| ==> f[k] == g[k]
  {
    hide Convert, Handles, IsHandle;
    var f, g := Convert(cls, s, tokens, lookup, t.end, r).text, r + s[t.end..];
    NextHandleIsLater(cls, s, tokens, t, reserved);
    ConvertStarts(cls, s, tokens, lookup, t.end, r, reserved);
    if tokens == [] {
      ConvertRest(cls, s, lookup, t.end, r);
    } else {
      var copied := s[t.end..Copied(s, tokens)];
      assert f[|r|] == (r + copied)[|r|] == copied[0] == s[t.end];
      assert f[|r| + 1] == (r + copied)[|r| + 1] == copied[1] == s[t.end + 1];
    }
  }

  lemma ConvertRest(cls: Classes, s: string, lookup: string -> Option<P.ID>, from: nat, done: string)
    requires from <= |s|
    ensures Convert(cls, s, [], lookup, from, done) == Converted(done + s[from..], [])
  {
  }

  lemma TickAfter(cls: Classes, s: string, tokens: seq<Token>, lookup: string -> Option<P.ID>, from: nat, done: string, reserved: string -> bool)
    requires from <= |s| && tokens != [] && Handles(cls, s, tokens, from, reserved)
    ensures from <= tokens[0].start < |s|
    ensures var f := Convert(cls, s, tokens, lookup, from, done).text;
            |done| + tokens[0].start - from <= |f|
            && (HasTick(f, |done| + tokens[0].start - from) ==> HasTick(s, tokens[0].start))
  {
    TailHandles(cls, s, tokens, from, reserved);
    var t := tokens[0];
    var copied := done + s[from..t.start];
    ConvertStarts(cls, s, tokens, lookup, from, done, reserved);
    var f := Convert(cls, s, tokens, lookup, from, done).text;
    assert copied == copied + s[t.start..t.start];
    ConvertTicks(cls, s, tokens, lookup, t.start, copied, reserved) by { HandlesFrom(cls, s, tokens, from, reserved); }
    SameFromStart(cls, s, tokens, lookup, from, done);
    TickIn(f, |copied|);
    TickIn(s, t.start);
  }

  lemma HandlesFrom(cls: Classes, s: string, tokens: seq<Token>, from: nat, reserved: string -> bool)
    requires tokens != [] && Handles(cls, s, tokens, from, reserved)
    ensures Handles(cls, s, tokens, tokens[0].start, reserved)
  {
    hide IsHandle;
    forall k | 0 <= k < |tokens| ensures tokens[0].start <= tokens[k].start {
      if k > 0 {
        Ascending(cls, s, tokens, from, reserved, k - 1);
        HandleSpan(cls, s, tokens[0], reserved);
      }
    }
  }

  /** Copying up to the first handle first makes no difference. */
  lemma SameFromStart(cls: Classes, s: string, tokens: seq<Token>, lookup: string -> Option<P.ID>, from: nat, done: string)
    requires tokens != [] && from <= tokens[0].start < tokens[0].end <= |s|
    ensures Convert(cls, s, tokens, lookup, from, done).text
         == Convert(cls, s, tokens, lookup, tokens[0].start, done + s[from..tokens[0].start]).text
  {
    var t := tokens[0];
    var copied := done + s[from..t.start];
    assert copied + s[t.start..t.start] == copied;
    assert copied + s[t.start..t.end] == done + s[from..t.end] by { assert s[from..t.start] + s[t.start..t.end] == s[from..t.end]; }
    ConvertStep(cls, s, tokens, lookup, from, done);
    ConvertStep(cls, s, tokens, lookup, t.start, copied);
    hide Convert, Escapes, ReferenceText;
    assert After(cls, s, t, lookup, from, done) == After(cls, s, t, lookup, t.start, copied);
  }

  /** After the reference, reading goes on in step again. */
  lemma AnchoredAfter(cls: Classes, s: string, f: string, t: Token, r: string, tokens: seq<Token>, reserved: string -> bool)
    requires cls.Valid() && IsHandle(cls, s, t, reserved) && Handles(cls, s, tokens, t.end, reserved)
    requires r != [] && r[|r| - 1] == '>' && r <= f && Reaches(cls, f, 0, |r|)
    ensures Anchored(cls, s, f, t.end, r, t.end)
  {
    hide Reaches, MayFollow, IsHandle, Handles;
    HandleReaches(cls, s, t, reserved);
    HandleSpan(cls, s, t, reserved);
    NothingFollows(cls, s, t.end);
    NothingFollows(cls, f, |r|);
  }

  lemma OneFurther(cls: Classes, s: string, i: nat, j: nat)
    requires i < |s| && Reaches(cls, s, 0, i) && NextAt(cls, s, i) == j
    ensures Reaches(cls, s, 0, j)
  {
    hide Reaches, NextAt;
    ReachesNext(cls, s, i, j);
    ReachesHere(cls, s, j);
    ReachesOn(cls, s, 0, i, j);
  }

  lemma EscapedUnderscore(cls: Classes, f: string, i: nat)
    requires i + 2 <= |f| && f[i] == '\\' && f[i + 1] == '_'
    ensures NextAt(cls, f, i) == i + 2
  {
  }

  lemma TypedUnderscore(cls: Classes, s: string, i: nat)
    requires i < |s| && s[i] == '_'
    ensures NextAt(cls, s, i) == i + 1
  {
    UnderscoreIsItalic(cls, s, i);
    hide ConstructAt;
  }

  /** And after an escaped '_' too: the escape is one construct. */
  lemma AnchoredAfterEscape(cls: Classes, s: string, f: string, t: Token, r: string, reserved: string -> bool)
    requires cls.Valid() && IsHandle(cls, s, t, reserved) && t.end < |s| && s[t.end] == '_'
    requires r + "\\_" <= f && Reaches(cls, f, 0, |r|)
    ensures Anchored(cls, s, f, t.end, r + "\\", t.end + 1)
  {
    hide Reaches, NextAt, MayFollow, IsHandle;
    assert f[|r|] == (r + "\\_")[|r|] && f[|r| + 1] == (r + "\\_")[|r| + 1];
    HandleReaches(cls, s, t, reserved);
    TypedUnderscore(cls, s, t.end);
    EscapedUnderscore(cls, f, |r|);
    OneFurther(cls, s, t.end, t.end + 1);
    OneFurther(cls, f, |r|, |r| + 2);
    NothingFollows(cls, s, t.end + 1);
    NothingFollows(cls, f, |r| + 2);
    assert r + "\\" <= f;
  }

  lemma EndsGreater(s: string, from: nat, done: string, t: Token, id: P.ID)
    requires from <= t.start <= |s|
    ensures var r := WithReference(s, from, done, t, id); r != [] && r[|r| - 1] == '>'
  {
    StartsLess(id);
  }

  /** The final line starts with what is done after t and what is copied then. */
  lemma FoundText(cls: Classes, s: string, tokens: seq<Token>, lookup: string -> Option<P.ID>, from: nat, done: string, reserved: string -> bool)
    requires from <= |s| && tokens != [] && Handles(cls, s, tokens, from, reserved)
    ensures from <= tokens[0].start < tokens[0].end <= |s| && IsHandle(cls, s, tokens[0], reserved)
    ensures Handles(cls, s, tokens[1..], tokens[0].end, reserved)
    ensures tokens[0].end <= Copied(s, tokens[1..]) <= |s|
    ensures var next := After(cls, s, tokens[0], lookup, from, done);
            && Convert(cls, s, tokens, lookup, from, done).text
                 == Convert(cls, s, tokens[1..], lookup, tokens[0].end, next).text
            && next + s[tokens[0].end..Copied(s, tokens[1..])] <= Convert(cls, s, tokens, lookup, from, done).text
  {
    TailHandles(cls, s, tokens, from, reserved);
    ConvertStep(cls, s, tokens, lookup, from, done);
    hide Convert, After, Handles, IsHandle;
    ConvertStarts(cls, s, tokens[1..], lookup, tokens[0].end, After(cls, s, tokens[0], lookup, from, done), reserved);
  }

  lemma FoundEscaped(cls: Classes, s: string, f: string, t: Token, r: string, rest: seq<Token>, reserved: string -> bool)
    requires cls.Valid() && IsHandle(cls, s, t, reserved) && Handles(cls, s, rest, t.end, reserved)
    requires Escapes(cls, s, t, r) && Reaches(cls, f, 0, |r|)
    requires t.end <= Copied(s, rest) <= |s| && r + "\\" + s[t.end..Copied(s, rest)] <= f
    ensures Anchored(cls, s, f, t.end, r + "\\", t.end + 1) && (rest != [] ==> t.end + 1 <= rest[0].start)
    ensures |r| + 1 < |f| && f[|r|..|r| + 2] == "\\_"
  {
    hide Handles, IsHandle, Reaches, Anchored, ItalicClosesAt;
    NextHandleIsLater(cls, s, rest, t, reserved);
    var copied := s[t.end..Copied(s, rest)];
    assert copied[0] == '_';
    assert r + "\\_" <= r + "\\" + copied;
    AnchoredAfterEscape(cls, s, f, t, r, reserved);
    assert f[|r|..|r| + 2] == (r + "\\_")[|r|..];
  }

  /** Unescaped, the next character is the one typed next. */
  lemma NextTyped(cls: Classes, s: string, tokens: seq<Token>, lookup: string -> Option<P.ID>, t: Token, r: string, reserved: string -> bool)
    requires cls.Valid() && IsHandle(cls, s, t, reserved) && Handles(cls, s, tokens, t.end, reserved) && t.end <= |s|
    ensures var f := Convert(cls, s, tokens, lookup, t.end, r).text;
            if t.end == |s| then f == r else |r| < |f| && f[|r|] == s[t.end]
  {
    hide Convert, Handles, IsHandle;
    NextHandleIsLater(cls, s, tokens, t, reserved);
    ConvertStarts(cls, s, tokens, lookup, t.end, r, reserved);
    if tokens == [] {
      ConvertRest(cls, s, lookup, t.end, r);
    } else {
      var copied := s[t.end..Copied(s, tokens)];
      assert Convert(cls, s, tokens, lookup, t.end, r).text[|r|] == (r + copied)[|r|] == copied[0];
    }
  }

  lemma AfterFound(cls: Classes, s: string, t: Token, lookup: string -> Option<P.ID>, from: nat, done: string, id: P.ID)
    requires from <= t.start < t.end <= |s| && lookup(s[t.start + 1..t.end]) == Some(id)
    ensures var r := WithReference(s, from, done, t, id);
            After(cls, s, t, lookup, from, done) == if Escapes(cls, s, t, r) then r + "\\" else r
  {
    hide Escapes, WithReference;
  }

  lemma AfterNobody(cls: Classes, s: string, t: Token, lookup: string -> Option<P.ID>, from: nat, done: string)
    requires from <= t.start < t.end <= |s| && lookup(s[t.start + 1..t.end]).None?
    ensures After(cls, s, t, lookup, from, done) == done + s[from..t.end]
  {
  }

  /** One handle found: its reference is read, what follows is harmless, and
      reading goes on in step from b' on. */
  lemma FoundRead(cls: Classes, s: string, tokens: seq<Token>, lookup: string -> Option<P.ID>,
                  from: nat, done: string, b: nat, reserved: string -> bool, id: P.ID) returns (b': nat)
    requires cls.Valid() && from <= |s| && tokens != [] && Handles(cls, s, tokens, from, reserved)
    requires from <= tokens[0].start < tokens[0].end <= |s| && lookup(s[tokens[0].start + 1..tokens[0].end]) == Some(id)
    requires Anchored(cls, s, Convert(cls, s, tokens, lookup, from, done).text, from, done, b) && b <= tokens[0].start
    ensures var t, f := tokens[0], Convert(cls, s, tokens, lookup, from, done).text;
            && ReadsBack(cls, f, Inserted(|done| + t.start - from, id, Underscored(s, t)))
            && Anchored(cls, s, f, t.end, After(cls, s, t, lookup, from, done), b')
            && (tokens[1..] != [] ==> b' <= tokens[1].start)
  {
    hide Convert, After, Handles, IsHandle, Reaches, Anchored, ItalicClosesAt, ConstructAt, HasTick, Escapes, WithReference;
    var t, rest, f := tokens[0], tokens[1..], Convert(cls, s, tokens, lookup, from, done).text;
    var r := WithReference(s, from, done, t, id);
    AfterFound(cls, s, t, lookup, from, done, id);
    FoundText(cls, s, tokens, lookup, from, done, reserved);
    TickAfter(cls, s, tokens, lookup, from, done, reserved);
    EndsGreater(s, from, done, t, id);
    ReferenceRead(cls, s, f, from, done, b, t, id, reserved);
    if Escapes(cls, s, t, r) {
      b' := t.end + 1;
      assert Underscored(s, t) by { EscapesUnderscore(cls, s, t, r); }
      FoundEscaped(cls, s, f, t, r, rest, reserved);
    } else {
      b' := t.end;
      assert t.end <= |s|;
      NextHandleIsLater(cls, s, rest, t, reserved);
      UnderscoreCloses(cls, s, rest, lookup, t, r, reserved);
      NextTyped(cls, s, rest, lookup, t, r, reserved);
      AnchoredAfter(cls, s, f, t, r, rest, reserved);
    }
  }

  lemma ConvertRefs(cls: Classes, s: string, tokens: seq<Token>, lookup: string -> Option<P.ID>, from: nat, done: string)
    requires tokens != [] && from <= tokens[0].start < tokens[0].end <= |s|
    ensures var t := tokens[0];
            var rest := Convert(cls, s, tokens[1..], lookup, t.end, After(cls, s, t, lookup, from, done)).refs;
            Convert(cls, s, tokens, lookup, from, done).refs
              == match lookup(s[t.start + 1..t.end])
                 case None => rest
                 case Some(id) => [Inserted(|done| + t.start - from, id, Underscored(s, t))] + rest
  {
    hide After;
  }

  ghost predicate AllRead(cls: Classes, f: string, refs: seq<Inserted>) {
    forall k :: 0 <= k < |refs| ==> ReadsBack(cls, f, refs[k])
  }

  lemma {:induction false} AllReadFrom(cls: Classes, s: string, tokens: seq<Token>, lookup: string -> Option<P.ID>,
                                       from: nat, done: string, b: nat, reserved: string -> bool)
    requires cls.Valid() && from <= |s| && Handles(cls, s, tokens, from, reserved)
    requires Anchored(cls, s, Convert(cls, s, tokens, lookup, from, done).text, from, done, b)
    requires tokens != [] ==> b <= tokens[0].start
    ensures var c := Convert(cls, s, tokens, lookup, from, done); AllRead(cls, c.text, c.refs)
    decreases |tokens|
  {
    hide Convert, Handles, IsHandle, ReadsBack, Anchored, After;
    if tokens == [] {
      ConvertRest(cls, s, lookup, from, done);
    } else {
      FoundText(cls, s, tokens, lookup, from, done, reserved);
      var t, rest, f := tokens[0], tokens[1..], Convert(cls, s, tokens, lookup, from, done).text;
      var next, b' := After(cls, s, t, lookup, from, done), b;
      CopiedAscend(cls, s, rest, t.end, reserved);
      ConvertRefs(cls, s, tokens, lookup, from, done);
      if lookup(s[t.start + 1..t.end]).None? {
        AfterNobody(cls, s, t, lookup, from, done);
        AnchoredCopy(cls, s, f, from, done, b, t.end);
      } else {
        b' := FoundRead(cls, s, tokens, lookup, from, done, b, reserved, lookup(s[t.start + 1..t.end]).value);
      }
      AllReadFrom(cls, s, rest, lookup, t.end, next, b', reserved);
    }
  }

  lemma CopiedAscend(cls: Classes, s: string, tokens: seq<Token>, from: nat, reserved: string -> bool)
    requires Handles(cls, s, tokens, from, reserved)
    ensures tokens != [] ==> from <= tokens[0].start
  {
  }

  /** Every reference put into a line is read there as that member's, and a '_'
      right after one closes an italic if it is not escaped. */
  lemma InsertedReferencesRead(cls: Classes, line: string, tokens: seq<Token>, lookup: string -> Option<P.ID>, reserved: string -> bool)
    requires cls.Valid() && Handles(cls, line, tokens, 0, reserved)
    ensures var c := Convert(cls, line, tokens, lookup, 0, "");
            forall k :: 0 <= k < |c.refs| ==> ReadsBack(cls, c.text, c.refs[k])
  {
    AnchoredStart(cls, line, Convert(cls, line, tokens, lookup, 0, "").text);
    AllReadFrom(cls, line, tokens, lookup, 0, "", 0, reserved);
  }
}
