module ConversationTextExact {
  /** Which bodies are valid and what a quote shows, each said outright. */

  import opened Common
  import opened LineEnds
  import opened ConversationText

  ghost predicate AllSpace(t: Texts, s: string) {
    forall k :: 0 <= k < |s| ==> t.cls.space(s[k])
  }

  /** The body is what stands between the spaces around it. */
  ghost predicate Between(t: Texts, s: string, body: string, i: nat, j: nat) {
    i <= j <= |s| && s[i..j] == body && AllSpace(t, s[..i]) && AllSpace(t, s[j..])
  }

  /** A valid body of a text: no forbidden character, 1 to 4000 characters, no
      space at either end, and nothing but space left out around it. */
  ghost predicate BodyOf(t: Texts, s: string, body: string) {
    && (forall c :: c in s ==> !Forbidden(t, c))
    && 1 <= |body| <= 4000 && !t.cls.space(body[0]) && !t.cls.space(body[|body| - 1])
    && exists i: nat, j: nat :: Between(t, s, body, i, j)
  }

  lemma {:induction false} TrimLeftIs(t: Texts, s: string, i: nat)
    requires i < |s| && AllSpace(t, s[..i]) && !t.cls.space(s[i])
    ensures TrimLeft(t, s) == s[i..]
  {
    if i > 0 {
      assert s[..i][0] == s[0];
      assert s[1..][..i - 1] == s[..i][1..];
      TrimLeftIs(t, s[1..], i - 1);
      assert s[1..][i - 1..] == s[i..];
    }
  }

  lemma {:induction false} TrimRightIs(t: Texts, s: string, j: nat)
    requires 0 < j <= |s| && AllSpace(t, s[j..]) && !t.cls.space(s[j - 1])
    ensures TrimRight(t, s) == s[..j]
  {
    if j == |s| {
      assert s[..j] == s;
    } else {
      var shorter := s[..|s| - 1];
      assert s[j..][|s| - 1 - j] == s[|s| - 1];
      assert shorter[j..] == s[j..][..|s| - 1 - j];
      TrimRightIs(t, shorter, j);
      assert shorter[..j] == s[..j];
    }
  }

  lemma {:induction false} TrimLeftSpaces(t: Texts, s: string)
    ensures var r := TrimLeft(t, s); |r| <= |s| && AllSpace(t, s[..|s| - |r|])
  {
    if s != "" && t.cls.space(s[0]) {
      TrimLeftSpaces(t, s[1..]);
      var r := TrimLeft(t, s);
      assert s[..|s| - |r|] == [s[0]] + s[1..][..|s| - 1 - |r|];
    }
  }

  lemma {:induction false} TrimRightSpaces(t: Texts, s: string)
    ensures var r := TrimRight(t, s); |r| <= |s| && AllSpace(t, s[|r|..])
  {
    if s != "" && t.cls.space(s[|s| - 1]) {
      TrimRightSpaces(t, s[..|s| - 1]);
      var r := TrimRight(t, s);
      assert s[|r|..] == s[..|s| - 1][|r|..] + [s[|s| - 1]];
    }
  }

  /** Trimming is what leaves no space at either end. */
  lemma TrimIs(t: Texts, s: string, body: string, i: nat, j: nat)
    requires Between(t, s, body, i, j) && body != "" && !t.cls.space(body[0]) && !t.cls.space(body[|body| - 1])
    ensures Trim(t, s) == body
  {
    TrimLeftIs(t, s, i);
    assert s[i..][j - i..] == s[j..];
    TrimRightIs(t, s[i..], j - i);
    assert s[i..][..j - i] == s[i..j];
  }

  lemma TrimBetween(t: Texts, s: string) returns (i: nat, j: nat)
    ensures Between(t, s, Trim(t, s), i, j)
  {
    var left := TrimLeft(t, s);
    TrimLeftFacts(t, s);
    TrimRightFacts(t, left);
    TrimLeftSpaces(t, s);
    TrimRightSpaces(t, left);
    hide TrimLeft, TrimRight;
    i := |s| - |left|;
    j := i + |Trim(t, s)|;
    assert s[i..j] == left[..j - i] && s[j..] == left[j - i..];
  }

  /** The body that is stored is the typed one with its line ends unified and the
      space around it taken off, if that is a valid body; else there is none. */
  lemma ValidExactly(t: Texts, value: string, body: string)
    ensures Valid(t, value) == Some(body) <==> BodyOf(t, Unified(value), body)
  {
    Replacements(value);
    var s := Unified(value);
    TrimFacts(t, s);
    hide Trim, WithoutCr, WithoutCrlf, Unified, Forbidden, Between;
    if Valid(t, value) == Some(body) {
      var i, j := TrimBetween(t, s);
    }
    if BodyOf(t, s, body) {
      var i: nat, j: nat :| Between(t, s, body, i, j);
      TrimIs(t, s, body, i, j);
    }
  }

  /** A quote is the whole of what the original shows under a body's rules, or a
      part given under them that stands somewhere in it; else there is none. */
  lemma ExcerptExactly(t: Texts, names: Names, unknown: string, part: Option<string>, body: string, text: string)
    ensures var shown := Written(names, unknown, Segments(t, body));
            Excerpt(t, names, unknown, part, body) == Some(text) <==>
              if part.None? then BodyOf(t, Unified(shown), text)
              else BodyOf(t, Unified(part.value), text) && exists a, b :: shown == a + text + b
  {
    var shown := Written(names, unknown, Segments(t, body));
    hide Valid, BodyOf, Written, Segments, Unified;
    if part.None? {
      ValidExactly(t, shown, text);
    } else {
      ValidExactly(t, part.value, text);
      OccursIs(text, shown);
    }
  }

  lemma OccursIs(part: string, s: string)
    ensures Occurs(part, s) <==> exists a, b :: s == a + part + b
  {
    if Occurs(part, s) {
      var i :| 0 <= i <= |s| && OccursAt(part, s, i);
      assert s == s[..i] + part + s[i + |part|..];
    }
    if a, b :| s == a + part + b {
      assert OccursAt(part, s, |a|);
    }
  }
}
