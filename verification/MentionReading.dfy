/** Where constructs start, and when two lines are read alike: the facts about
    the grammar that rewriting typed handles rests on. */
module MentionReading {
  import opened Common
  import opened ChatGrammar
  import P = Payload

  /** Reading on from i, a construct starts at j. */
  predicate Reaches(cls: Classes, s: string, i: nat, j: nat)
    requires i <= |s|
    decreases |s| - i
  {
    i == j || (i < j && i < |s| && Reaches(cls, s, NextAt(cls, s, i), j))
  }

  lemma {:induction false} ReachesOn(cls: Classes, s: string, i: nat, j: nat, k: nat)
    requires i <= |s| && j <= |s| && Reaches(cls, s, i, j) && Reaches(cls, s, j, k)
    ensures Reaches(cls, s, i, k)
    decreases |s| - i
  {
    if i != j {
      ReachesOn(cls, s, NextAt(cls, s, i), j, k);
      ReachesUp(cls, s, j, k);
    }
  }

  lemma ReachesUp(cls: Classes, s: string, i: nat, j: nat)
    requires i <= |s| && Reaches(cls, s, i, j)
    ensures i <= j
  {
  }

  /** Of two places where constructs start, the later is reached from the earlier. */
  lemma {:induction false} ReachesBetween(cls: Classes, s: string, i: nat, b: nat, e: nat)
    requires i <= b <= e <= |s| && Reaches(cls, s, i, b) && Reaches(cls, s, i, e)
    ensures Reaches(cls, s, b, e)
    decreases b - i
  {
    if i < b {
      hide NextAt, Reaches;
      ReachesNext(cls, s, i, b);
      ReachesNext(cls, s, i, e);
      ReachesBetween(cls, s, NextAt(cls, s, i), b, e);
    }
  }

  lemma ReachesNext(cls: Classes, s: string, i: nat, j: nat)
    requires i < |s| && i < j
    ensures Reaches(cls, s, i, j) == Reaches(cls, s, NextAt(cls, s, i), j)
    ensures Reaches(cls, s, i, j) ==> NextAt(cls, s, i) <= j
  {
    if Reaches(cls, s, i, j) {
      ReachesUp(cls, s, NextAt(cls, s, i), j);
    }
  }

  lemma ReachesHere(cls: Classes, s: string, i: nat)
    requires i <= |s|
    ensures Reaches(cls, s, i, i)
  {
  }

  /** The text of a reference as Format writes it. */
  function ReferenceText(id: P.ID): (r: string)
    ensures |r| == 39
  {
    "<@" + P.Format(id) + ">"
  }

  lemma ReferenceReads(s: string, i: nat, id: P.ID)
    requires i + 39 <= |s| && forall k :: 0 <= k < 39 ==> s[i + k] == ReferenceText(id)[k]
    ensures ReferenceAt(s, i) == Some(id)
  {
    P.FormatIsCanonical(id);
    P.ParseFormat(id);
    var text, value := ReferenceText(id), s[i + 2..i + 38];
    assert text[0] == '<' && text[1] == '@' && text[38] == '>';
    forall k | 0 <= k < 36 ensures value[k] == P.Format(id)[k] {
      assert s[i + (k + 2)] == text[k + 2];
    }
    assert value == P.Format(id);
    forall k | i + 2 <= k < i + 38 ensures !P.Upper(s[k]) {
      assert s[k] == value[k - i - 2];
    }
  }

  /** Inside a reference there is no '<', '>', '`' or '@' but its own. */
  lemma ReferenceChars(s: string, i: nat, k: nat)
    requires ReferenceAt(s, i).Some? && i < k < i + 38
    ensures s[k] != '<' && s[k] != '>' && s[k] != '`' && (k > i + 1 ==> s[k] != '@')
  {
    if k > i + 1 {
      var value := s[i + 2..i + 38];
      assert s[k] == value[k - i - 2];
      assert P.Dash(k - i - 2) || P.HexValue(value[k - i - 2]).Some?;
    }
  }

  // ----- one construct, in two lines -----

  /** s from b up to e reads the same in f from b + d up to e + d. */
  ghost predicate Same(s: string, f: string, b: nat, e: nat, d: int) {
    && b <= e <= |s| && b + d >= 0 && e + d <= |f|
    && forall k :: b <= k < e ==> s[k] == f[k + d]
  }

  lemma CountSame(s: string, f: string, c: char, i: nat, j: nat, d: int)
    requires Same(s, f, i, j, d)
    ensures Count(s, c, i, j) == Count(f, c, i + d, j + d)
    decreases j
  {
    if i < j {
      CountSame(s, f, c, i, j - 1, d);
    }
  }

  lemma TrimmedSame(s: string, f: string, floor: nat, end: nat, unbalanced: int, d: int)
    requires Same(s, f, floor, end, d)
    ensures Trimmed(f, floor + d, end + d, unbalanced) == Trimmed(s, floor, end, unbalanced) + d
    decreases end
  {
    if end > floor {
      if s[end - 1] == ')' && unbalanced > 0 {
        TrimmedSame(s, f, floor, end - 1, unbalanced - 1, d);
      } else if Trimmable(s[end - 1]) {
        TrimmedSame(s, f, floor, end - 1, unbalanced, d);
      }
    }
  }

  lemma HostSame(s: string, f: string, i: nat, j: nat, d: int)
    requires Same(s, f, i, j, d)
    ensures HostAt(f, i + d, j + d) == HostAt(s, i, j) + d
    decreases j
  {
    if i < j && s[j - 1] != '@' {
      HostSame(s, f, i, j - 1, d);
    }
  }

  /** No link goes on past k. */
  predicate Stops(cls: Classes, s: string, k: nat)
    requires k <= |s|
  {
    k == |s| || EndsUrl(cls, s[k])
  }

  lemma HasHostSame(cls: Classes, s: string, f: string, i: nat, stop: nat, d: int)
    requires i <= stop <= |s| && i + d >= 0 && stop + d <= |f| && Same(s, f, i, stop, d)
    requires Stops(cls, s, stop) && Stops(cls, f, stop + d)
    ensures HasHost(cls, f, i + d) == HasHost(cls, s, i)
  {
    EndsSame(cls, s, f, i, stop, d);
    HostSame(s, f, i, AuthorityEnd(cls, s, i), d);
  }

  lemma TrimSame(s: string, f: string, i: nat, floor: nat, end: nat, d: int)
    requires i <= floor && Same(s, f, i, end, d) && floor <= end
    ensures Trimmed(f, floor + d, end + d, Count(f, ')', i + d, end + d) - Count(f, '(', i + d, end + d))
         == Trimmed(s, floor, end, Count(s, ')', i, end) - Count(s, '(', i, end)) + d
  {
    CountSame(s, f, ')', i, end, d);
    CountSame(s, f, '(', i, end, d);
    TrimmedSame(s, f, floor, end, Count(s, ')', i, end) - Count(s, '(', i, end), d);
  }

  lemma TrimmedLinkSame(cls: Classes, s: string, f: string, i: nat, floor: nat, stop: nat, d: int)
    requires i <= floor <= stop <= |s| && i + d >= 0 && stop + d <= |f| && Same(s, f, i, stop, d)
    requires Stops(cls, s, stop) && Stops(cls, f, stop + d)
    ensures TrimmedLink(cls, f, i + d, floor + d) == TrimmedLink(cls, s, i, floor) + d
  {
    EndsSame(cls, s, f, floor, stop, d);
    TrimSame(s, f, i, floor, UrlEnd(cls, s, floor), d);
  }

  /** A link that ends, before it is trimmed, at or before `stop` in both lines. */
  lemma LinkSame(cls: Classes, s: string, f: string, i: nat, stop: nat, d: int)
    requires i < stop <= |s| && i + d >= 0 && stop + d <= |f| && Same(s, f, i, stop, d)
    requires SchemeAt(s, i) > 0 && SchemeAt(f, i + d) == SchemeAt(s, i) && i + SchemeAt(s, i) <= stop
    requires MayFollow(cls, s, i) == MayFollow(cls, f, i + d)
    requires Stops(cls, s, stop) && Stops(cls, f, stop + d)
    ensures LinkEnd(cls, f, i + d) == LinkEnd(cls, s, i) + d
  {
    hide SchemeAt, MayFollow, HasHost, TrimmedLink, EndsUrl;
    var n := SchemeAt(s, i);
    HasHostSame(cls, s, f, i + n, stop, d);
    TrimmedLinkSame(cls, s, f, i, i + n, stop, d);
  }

  lemma EndsSame(cls: Classes, s: string, f: string, i: nat, stop: nat, d: int)
    requires i <= stop <= |s| && i + d >= 0 && stop + d <= |f| && Same(s, f, i, stop, d)
    requires Stops(cls, s, stop) && Stops(cls, f, stop + d)
    ensures AuthorityEnd(cls, f, i + d) == AuthorityEnd(cls, s, i) + d && AuthorityEnd(cls, s, i) <= stop
    ensures UrlEnd(cls, f, i + d) == UrlEnd(cls, s, i) + d && UrlEnd(cls, s, i) <= stop
    decreases stop - i
  {
    if i < stop {
      EndsSame(cls, s, f, i + 1, stop, d);
    }
  }

  lemma StartsSame(s: string, f: string, i: nat, e: nat, d: int, prefix: string)
    requires Same(s, f, i, e, d) && i < e
    requires i + |prefix| <= e || (e < |s| && e + d < |f| && s[e] !in prefix && f[e + d] !in prefix)
    ensures StartsAt(s, i, prefix) == StartsAt(f, i + d, prefix)
  {
    if i + |prefix| > e {
      assert prefix[e - i] in prefix;
    } else {
      forall k | 0 <= k < |prefix| ensures s[i + k] == prefix[k] <==> f[i + d + k] == prefix[k] {
        assert s[i + k] == f[(i + k) + d];
      }
    }
  }

  lemma ReferenceSame(s: string, f: string, i: nat, d: int)
    requires Same(s, f, i, i + 39, d)
    ensures ReferenceAt(s, i) == ReferenceAt(f, i + d)
  {
    assert s[i + 2..i + 38] == f[i + d + 2..i + d + 38];
    assert forall k :: i + 2 <= k < i + 38 ==> s[k] == f[k + d];
    assert forall k :: i + d + 2 <= k < i + d + 38 ==> f[k] == s[k - d];
  }

  // ----- two lines alike up to a reference -----

  predicate HasTick(s: string, i: nat)
    requires i <= |s|
  {
    Find(s, '`', i) < |s|
  }

  /** f and g are the same up to r, just after a '>', and have a backtick after
      it or have none. */
  ghost predicate Alike(f: string, g: string, r: nat) {
    && 0 < r <= |f| && r <= |g| && (forall k :: 0 <= k < r ==> f[k] == g[k])
    && f[r - 1] == '>' && HasTick(f, r) == HasTick(g, r)
  }

  lemma FindSkips(s: string, c: char, i: nat, j: nat)
    requires i <= j <= |s| && forall k :: i <= k < j ==> s[k] != c
    ensures Find(s, c, i) == Find(s, c, j)
    decreases j - i
  {
    if i < j {
      FindSkips(s, c, i + 1, j);
    }
  }

  lemma FindSame(f: string, g: string, c: char, i: nat, r: nat)
    requires i <= r <= |f| && r <= |g| && forall k :: i <= k < r ==> f[k] == g[k]
    ensures Find(f, c, i) < r ==> Find(g, c, i) == Find(f, c, i)
    decreases r - i
  {
    if i < r && f[i] != c {
      FindSame(f, g, c, i + 1, r);
    }
  }

  lemma TickAgrees(cls: Classes, f: string, g: string, r: nat, j: nat)
    requires Alike(f, g, r) && j < r && f[j] == '`' && NextAt(cls, f, j) <= r
    ensures ConstructAt(cls, f, j) == ConstructAt(cls, g, j)
  {
    var at := Find(f, '`', j + 1);
    if at < r {
      FindSame(f, g, '`', j + 1, r);
      assert f[j + 1..at] == g[j + 1..at];
    } else {
      assert at == |f|;
      FindSkips(f, '`', j + 1, r);
      forall k | j + 1 <= k < r ensures g[k] != '`' {
        assert f[k] == g[k];
      }
      FindSkips(g, '`', j + 1, r);
    }
    assert "**"[0] == '*';
  }

  lemma SchemeAgrees(f: string, g: string, r: nat, j: nat)
    requires Alike(f, g, r) && j < r
    ensures SchemeAt(f, j) == SchemeAt(g, j) && (SchemeAt(f, j) > 0 ==> j + SchemeAt(f, j) <= r - 1)
  {
    assert Same(f, g, j, r, 0);
    if j < r - 1 {
      StartsSame(f, g, j, r - 1, 0, "https://");
      StartsSame(f, g, j, r - 1, 0, "http://");
      SchemeFits(f, j, r - 1);
    } else {
      assert "https://"[0] == 'h' && "http://"[0] == 'h';
    }
  }

  lemma LinkAgrees(cls: Classes, f: string, g: string, r: nat, j: nat)
    requires Alike(f, g, r) && j < r
    ensures LinkEnd(cls, f, j) == LinkEnd(cls, g, j) && LinkEnd(cls, f, j) <= r
  {
    SchemeAgrees(f, g, r, j);
    assert MayFollow(cls, f, j) == MayFollow(cls, g, j);
    assert EndsUrl(cls, f[r - 1]) && EndsUrl(cls, g[r - 1]);
    hide SchemeAt, MayFollow, HasHost, TrimmedLink, EndsUrl, LinkEnd;
    LinkCases(cls, f, j);
    LinkCases(cls, g, j);
    if SchemeAt(f, j) > 0 {
      assert Same(f, g, j, r - 1, 0);
      LinkSame(cls, f, g, j, r - 1, 0);
      LinkStops(cls, f, j, j + SchemeAt(f, j), r - 1);
    }
  }

  lemma LinkCases(cls: Classes, s: string, i: nat)
    requires i <= |s|
    ensures SchemeAt(s, i) == 0 ==> LinkEnd(cls, s, i) == i
    ensures SchemeAt(s, i) > 0 ==>
              LinkEnd(cls, s, i) == i || LinkEnd(cls, s, i) == TrimmedLink(cls, s, i, i + SchemeAt(s, i))
  {
    hide SchemeAt;
  }

  lemma LinkStops(cls: Classes, s: string, i: nat, floor: nat, stop: nat)
    requires i <= floor <= stop < |s| && EndsUrl(cls, s[stop])
    ensures TrimmedLink(cls, s, i, floor) <= stop
  {
    EndsSame(cls, s, s, floor, stop, 0);
  }

  /** A scheme stands clear of a '>' or a '<'. */
  lemma SchemeFits(s: string, i: nat, stop: nat)
    requires i < stop < |s| && (s[stop] == '>' || s[stop] == '<')
    ensures i + SchemeAt(s, i) <= stop
  {
    if stop < i + 8 {
      var k := stop - i;
      assert "https://"[k] in "https://";
      assert k < 7 ==> "http://"[k] in "http://";
    }
  }

  lemma MemberAgrees(cls: Classes, f: string, g: string, r: nat, j: nat)
    requires Alike(f, g, r) && j < r && f[j] == '<' && NextAt(cls, f, j) <= r
    ensures ReferenceAt(f, j) == ReferenceAt(g, j)
  {
    if j + 39 <= r {
      ReferenceSame(f, g, j, 0);
    } else if ReferenceAt(g, j).Some? {
      ReferenceChars(g, j, r - 1);
    }
  }

  lemma StarsAgree(f: string, g: string, r: nat, j: nat)
    requires Alike(f, g, r) && j < r
    ensures StartsAt(f, j, "**") == StartsAt(g, j, "**")
  {
    assert "**"[0] == '*' && "**"[1] == '*';
  }

  lemma ReferenceConstruct(cls: Classes, f: string, g: string, r: nat, j: nat)
    requires Alike(f, g, r) && j < r && f[j] == '<' && NextAt(cls, f, j) <= r
    ensures ConstructAt(cls, f, j) == ConstructAt(cls, g, j)
  {
    MemberAgrees(cls, f, g, r, j);
    assert "**"[0] == '*';
    hide ReferenceAt;
  }

  lemma LinkConstruct(cls: Classes, f: string, g: string, r: nat, j: nat)
    requires Alike(f, g, r) && j < r && f[j] == 'h'
    ensures ConstructAt(cls, f, j) == ConstructAt(cls, g, j)
  {
    hide LinkEnd, ReferenceAt, HasTick;
    LinkAgrees(cls, f, g, r, j);
    assert f[j..LinkEnd(cls, f, j)] == g[j..LinkEnd(cls, f, j)];
    assert "**"[0] == '*';
  }

  lemma OtherConstruct(cls: Classes, f: string, g: string, r: nat, j: nat)
    requires Alike(f, g, r) && j < r && f[j] != '`' && f[j] != '<' && f[j] != 'h'
    ensures ConstructAt(cls, f, j) == ConstructAt(cls, g, j)
  {
    StarsAgree(f, g, r, j);
    assert j + 1 < r ==> f[j + 1] == g[j + 1];
    hide StartsAt;
  }

  /** Up to r the same constructs stand in both. */
  lemma ConstructAgrees(cls: Classes, f: string, g: string, r: nat, j: nat)
    requires Alike(f, g, r) && j < r && NextAt(cls, f, j) <= r
    ensures ConstructAt(cls, f, j) == ConstructAt(cls, g, j)
  {
    hide ConstructAt, NextAt;
    if f[j] == '`' {
      TickAgrees(cls, f, g, r, j);
    } else if f[j] == '<' {
      ReferenceConstruct(cls, f, g, r, j);
    } else if f[j] == 'h' {
      LinkConstruct(cls, f, g, r, j);
    } else {
      OtherConstruct(cls, f, g, r, j);
    }
  }

  lemma StepAgrees(cls: Classes, f: string, g: string, r: nat, j: nat, p: Parser)
    requires Alike(f, g, r) && j < r && NextAt(cls, f, j) <= r && p.Valid()
    ensures Step(cls, f, j, p) == Step(cls, g, j, p) && NextAt(cls, f, j) == NextAt(cls, g, j)
  {
    ConstructAgrees(cls, f, g, r, j);
    if ConstructAt(cls, f, j).Delim? {
      DelimitAgrees(cls, f, g, r, j, ConstructAt(cls, f, j).style, p);
    }
    hide ConstructAt, Delimit;
  }

  lemma DelimitAgrees(cls: Classes, f: string, g: string, r: nat, j: nat, style: Style, p: Parser)
    requires Alike(f, g, r) && j < r && p.Valid() && ConstructAt(cls, f, j) == Delim(style)
    requires j + |style.Delimiter()| <= r
    ensures j + |style.Delimiter()| <= |g|
    ensures Delimit(cls, f, j, style, p) == Delimit(cls, g, j, style, p)
  {
    var k := j + |style.Delimiter()|;
    assert "**"[1] == '*';
    assert f[k - 1] == '_' || f[k - 1] == '*';
    assert k < r && f[k] == g[k] && (j > 0 ==> f[j - 1] == g[j - 1]);
    assert CanOpen(cls, f, j, style) == CanOpen(cls, g, j, style);
    assert CanClose(cls, f, j, style) == CanClose(cls, g, j, style);
  }

  /** The parser's state where it gets to r. */
  function StateAt(cls: Classes, s: string, j: nat, r: nat, p: Parser): (q: Parser)
    requires p.Valid() && j <= |s|
    ensures q.Valid()
    decreases |s| - j
  {
    if j < r && j < |s| then StateAt(cls, s, NextAt(cls, s, j), r, Step(cls, s, j, p)) else p
  }

  /** If one of two lines alike up to r has a construct start at r, so has the
      other, and the parser is in the same state there. */
  lemma {:induction false} StatesAgree(cls: Classes, f: string, g: string, r: nat, j: nat, p: Parser)
    requires Alike(f, g, r) && j <= r && Reaches(cls, f, j, r) && p.Valid()
    ensures Reaches(cls, g, j, r) && StateAt(cls, f, j, r, p) == StateAt(cls, g, j, r, p)
    decreases r - j
  {
    hide NextAt, Reaches, Step;
    ReachesHere(cls, g, r);
    if j < r {
      ReachesNext(cls, f, j, r);
      ReachesNext(cls, g, j, r);
      StepAgrees(cls, f, g, r, j, p);
      StatesAgree(cls, f, g, r, NextAt(cls, f, j), Step(cls, f, j, p));
    }
  }

  lemma {:induction false} ItalicAtState(cls: Classes, s: string, j: nat, r: nat, p: Parser)
    requires j <= r < |s| && Reaches(cls, s, j, r) && p.Valid()
    ensures ItalicClosesFrom(cls, s, j, r, p)
        <==> s[r] == '_' && |Step(cls, s, r, StateAt(cls, s, j, r, p)).stack| < |StateAt(cls, s, j, r, p).stack|
    decreases r - j
  {
    hide NextAt, Reaches, Step;
    if j < r {
      ReachesNext(cls, s, j, r);
      ItalicAtState(cls, s, NextAt(cls, s, j), r, Step(cls, s, j, p));
    }
  }

  lemma UnderscoreIsItalic(cls: Classes, s: string, i: nat)
    requires i < |s| && s[i] == '_'
    ensures ConstructAt(cls, s, i) == Delim(Italic)
  {
    assert "**"[0] == '*';
  }

  lemma UnderscoreAgrees(cls: Classes, f: string, g: string, r: nat, p: Parser)
    requires 0 < r < |f| && r < |g| && f[r] == '_' && g[r] == '_' && f[r - 1] == g[r - 1] && p.Valid()
    requires (r + 1 == |f| <==> r + 1 == |g|) && (r + 1 < |f| ==> f[r + 1] == g[r + 1])
    ensures Step(cls, f, r, p) == Step(cls, g, r, p)
  {
    UnderscoreIsItalic(cls, f, r);
    UnderscoreIsItalic(cls, g, r);
    assert CanOpen(cls, f, r, Italic) == CanOpen(cls, g, r, Italic);
    assert CanClose(cls, f, r, Italic) == CanClose(cls, g, r, Italic);
    hide CanOpen, CanClose, ConstructAt;
  }

  /** After the reference the next two characters decide, too. */
  lemma ItalicAgrees(cls: Classes, f: string, g: string, r: nat)
    requires Alike(f, g, r) && Reaches(cls, f, 0, r)
    requires r < |f| && r < |g| && f[r] == '_' && g[r] == '_'
    requires (r + 1 == |f| <==> r + 1 == |g|) && (r + 1 < |f| ==> f[r + 1] == g[r + 1])
    ensures ItalicClosesAt(cls, f, r) == ItalicClosesAt(cls, g, r)
  {
    hide Step, StateAt, ConstructAt, ItalicClosesFrom, Reaches;
    StatesAgree(cls, f, g, r, 0, EMPTY);
    ItalicAtState(cls, f, 0, r, EMPTY);
    ItalicAtState(cls, g, 0, r, EMPTY);
    UnderscoreAgrees(cls, f, g, r, StateAt(cls, f, 0, r, EMPTY));
  }

  // ----- a line and the same line with a reference put in -----

  /** f from b + d on repeats s from b on, up to an '@' of s at e where f has a
      '<'; links may start at b in both or in neither; f has no backtick after
      that unless s has. */
  ghost predicate Shifted(cls: Classes, s: string, f: string, b: nat, e: nat, d: int) {
    && Same(s, f, b, e, d) && e < |s| && e + d < |f|
    && s[e] == '@' && f[e + d] == '<'
    && (MayFollow(cls, s, b) <==> MayFollow(cls, f, b + d))
    && MayFollow(cls, s, e)
    && (HasTick(f, e + d) ==> HasTick(s, e))
  }

  lemma FindShifted(s: string, f: string, c: char, i: nat, e: nat, d: int)
    requires Same(s, f, i, e, d)
    ensures Find(s, c, i) < e ==> Find(f, c, i + d) == Find(s, c, i) + d
    ensures Find(s, c, i) >= e ==> Find(f, c, i + d) == Find(f, c, e + d)
    decreases e - i
  {
    if i < e && s[i] != c {
      FindShifted(s, f, c, i + 1, e, d);
    }
  }

  lemma SpanShifted(cls: Classes, s: string, f: string, b: nat, e: nat, d: int)
    requires Shifted(cls, s, f, b, e, d) && b < e && s[b] == '`' && NextAt(cls, s, b) <= e
    ensures NextAt(cls, f, b + d) == NextAt(cls, s, b) + d
  {
    hide MayFollow, ReferenceAt, LinkEnd;
    var at := Find(s, '`', b + 1);
    assert Same(s, f, b + 1, e, d);
    FindShifted(s, f, '`', b + 1, e, d);
    FindSkips(s, '`', b + 1, Min(at, e));
    assert "**"[0] == '*';
    if at >= e {
      assert at == |s| && Find(s, '`', e) == |s|;
    }
  }

  lemma ReferenceShifted(cls: Classes, s: string, f: string, b: nat, e: nat, d: int)
    requires Shifted(cls, s, f, b, e, d) && b < e && s[b] == '<' && NextAt(cls, s, b) <= e
    ensures NextAt(cls, f, b + d) == NextAt(cls, s, b) + d
  {
    assert "**"[0] == '*';
    if b + 39 <= e {
      ReferenceSame(s, f, b, d);
    } else {
      if ReferenceAt(f, b + d).Some? && e < b + 38 {
        ReferenceChars(f, b + d, e + d);
      }
      assert ReferenceAt(f, b + d).None? && ReferenceAt(s, b).None?;
    }
  }

  lemma OtherShifted(cls: Classes, s: string, f: string, b: nat, e: nat, d: int)
    requires Shifted(cls, s, f, b, e, d) && b < e && s[b] != '`' && s[b] != '<' && s[b] != 'h' && NextAt(cls, s, b) <= e
    ensures NextAt(cls, f, b + d) == NextAt(cls, s, b) + d
  {
    assert "**"[0] == '*' && "**"[1] == '*';
    assert f[b + d] == s[b] && (b + 1 < e ==> f[b + 1 + d] == s[b + 1]);
    assert StartsAt(s, b, "**") == StartsAt(f, b + d, "**");
    hide StartsAt;
  }

  /** A link of f cannot outrun the '<'; it may newly start, but then it ends
      exactly there, after the parenthesis. */
  lemma LinkShifted(cls: Classes, s: string, f: string, b: nat, e: nat, d: int)
    requires cls.Valid() && Shifted(cls, s, f, b, e, d) && b < e && s[b] == 'h' && NextAt(cls, s, b) <= e
    ensures NextAt(cls, f, b + d) == NextAt(cls, s, b) + d || NextAt(cls, f, b + d) == e + d
  {
    hide SchemeAt, NextAt, MayFollow, HasHost, TrimmedLink, LinkEnd;
    SchemeShifted(cls, s, f, b, e, d);
    AfterH(cls, s, b);
    AfterH(cls, f, b + d);
    if SchemeAt(s, b) > 0 && MayFollow(cls, s, b) {
      LinkOutcome(cls, s, f, b, e, d);
    } else {
      NoLinkHere(cls, s, b);
      NoLinkHere(cls, f, b + d);
    }
  }

  lemma SchemeShifted(cls: Classes, s: string, f: string, b: nat, e: nat, d: int)
    requires Shifted(cls, s, f, b, e, d) && b < e
    ensures SchemeAt(s, b) == SchemeAt(f, b + d) && b + SchemeAt(s, b) <= e
  {
    StartsSame(s, f, b, e, d, "https://");
    StartsSame(s, f, b, e, d, "http://");
    SchemeFits(f, b + d, e + d);
  }

  lemma NoLinkHere(cls: Classes, s: string, i: nat)
    requires i <= |s| && (SchemeAt(s, i) == 0 || !MayFollow(cls, s, i))
    ensures LinkEnd(cls, s, i) == i
  {
  }

  /** No link of s reaches over the '@': it is not a character to trim. */
  lemma LinkMissed(cls: Classes, s: string, b: nat, e: nat, floor: nat)
    requires cls.Valid() && b < floor <= e < |s| && s[e] == '@' && s[b] == 'h' && floor == b + SchemeAt(s, b)
    requires UrlEnd(cls, s, floor) >= e && NextAt(cls, s, b) <= e
    ensures LinkEnd(cls, s, b) == b
  {
    AfterH(cls, s, b);
    LinkOverruns(cls, s, b, e, floor);
  }

  lemma LinkOverruns(cls: Classes, s: string, b: nat, e: nat, floor: nat)
    requires cls.Valid() && b < floor <= e < |s| && s[e] == '@' && floor == b + SchemeAt(s, b)
    requires UrlEnd(cls, s, floor) >= e
    ensures LinkEnd(cls, s, b) == b || LinkEnd(cls, s, b) > e
  {
    assert UrlEnd(cls, s, floor) > e;
    hide SchemeAt, HasHost;
    LinkCases(cls, s, b);
    assert TrimmedLink(cls, s, b, floor) > e;
  }

  lemma AfterH(cls: Classes, s: string, i: nat)
    requires i < |s| && s[i] == 'h'
    ensures NextAt(cls, s, i) == if LinkEnd(cls, s, i) > i then LinkEnd(cls, s, i) else i + 1
  {
    assert "**"[0] == '*';
    hide LinkEnd;
  }

  /** A link that f has nonetheless runs up to the '<' and keeps the '('. */
  lemma LinkNew(cls: Classes, s: string, f: string, b: nat, e: nat, d: int, floor: nat)
    requires cls.Valid() && Shifted(cls, s, f, b, e, d) && b < floor <= e && floor + d == b + d + SchemeAt(f, b + d)
    requires UrlEnd(cls, s, floor) >= e
    ensures LinkEnd(cls, f, b + d) == b + d || LinkEnd(cls, f, b + d) == e + d
  {
    hide SchemeAt, HasHost, HasTick, Count;
    UrlReaches(cls, s, f, floor, e, d);
    if LinkEnd(cls, f, b + d) != b + d {
      assert floor < e by { HostBefore(cls, f, floor + d, e + d); }
      assert s[e - 1] == '(' && f[e - 1 + d] == '(';
      assert !Trimmable('(');
    }
  }

  lemma UrlReaches(cls: Classes, s: string, f: string, floor: nat, e: nat, d: int)
    requires Same(s, f, floor, e, d) && e + d < |f| && f[e + d] == '<' && UrlEnd(cls, s, floor) >= e
    ensures UrlEnd(cls, f, floor + d) == e + d
    decreases e - floor
  {
    if floor < e {
      UrlReaches(cls, s, f, floor + 1, e, d);
    }
  }

  /** A host needs a character before the link's end. */
  lemma HostBefore(cls: Classes, s: string, i: nat, stop: nat)
    requires i <= |s| && HasHost(cls, s, i) && UrlEnd(cls, s, i) == stop
    ensures i < stop
  {
  }

  lemma LinkOutcome(cls: Classes, s: string, f: string, b: nat, e: nat, d: int)
    requires cls.Valid() && Shifted(cls, s, f, b, e, d) && b < e && s[b] == 'h' && NextAt(cls, s, b) <= e
    requires SchemeAt(s, b) > 0 && SchemeAt(s, b) == SchemeAt(f, b + d) && MayFollow(cls, s, b) && b + SchemeAt(s, b) <= e
    ensures LinkEnd(cls, f, b + d) - d == LinkEnd(cls, s, b) || LinkEnd(cls, f, b + d) == e + d
  {
    hide SchemeAt, LinkEnd, HasHost, TrimmedLink, NextAt;
    var floor := b + SchemeAt(s, b);
    var stop := UrlEnd(cls, s, floor);
    if stop < e {
      assert Same(s, f, b, stop, d) && s[stop] == f[stop + d];
      LinkSame(cls, s, f, b, stop, d);
    } else {
      LinkMissed(cls, s, b, e, floor);
      LinkNew(cls, s, f, b, e, d, floor);
    }
  }

  lemma StepShifted(cls: Classes, s: string, f: string, b: nat, e: nat, d: int)
    requires cls.Valid() && Shifted(cls, s, f, b, e, d) && b < e && NextAt(cls, s, b) <= e
    ensures NextAt(cls, f, b + d) == NextAt(cls, s, b) + d || NextAt(cls, f, b + d) == e + d
  {
    hide NextAt;
    if s[b] == '`' {
      SpanShifted(cls, s, f, b, e, d);
    } else if s[b] == '<' {
      ReferenceShifted(cls, s, f, b, e, d);
    } else if s[b] == 'h' {
      LinkShifted(cls, s, f, b, e, d);
    } else {
      OtherShifted(cls, s, f, b, e, d);
    }
  }

  lemma StillShifted(cls: Classes, s: string, f: string, b: nat, n: nat, e: nat, d: int)
    requires Shifted(cls, s, f, b, e, d) && b < n <= e
    ensures Shifted(cls, s, f, n, e, d)
  {
    assert s[n - 1] == f[n - 1 + d];
  }

  /** One step of s is one step of f, or takes f right to the '<'. */
  lemma OneShift(cls: Classes, s: string, f: string, b: nat, e: nat, d: int)
    requires cls.Valid() && Shifted(cls, s, f, b, e, d) && b < e && Reaches(cls, s, b, e)
    ensures b < NextAt(cls, s, b) <= e && Reaches(cls, s, NextAt(cls, s, b), e)
    ensures NextAt(cls, f, b + d) == e + d
         || (NextAt(cls, f, b + d) == NextAt(cls, s, b) + d && Shifted(cls, s, f, NextAt(cls, s, b), e, d))
  {
    ReachesNext(cls, s, b, e);
    hide NextAt, Reaches;
    StepShifted(cls, s, f, b, e, d);
    StillShifted(cls, s, f, b, NextAt(cls, s, b), e, d);
    hide Shifted;
  }

  lemma ShiftBounds(cls: Classes, s: string, f: string, b: nat, e: nat, d: int)
    requires Shifted(cls, s, f, b, e, d)
    ensures b <= e < |s| && 0 <= b + d && e + d < |f|
  {
  }

  /** Whatever stands between, a construct of f starts at the '<' if one of s
      starts at the '@'. */
  lemma {:induction false} ReachesShifted(cls: Classes, s: string, f: string, b: nat, e: nat, d: int)
    requires cls.Valid() && Shifted(cls, s, f, b, e, d) && Reaches(cls, s, b, e)
    ensures 0 <= b + d <= e + d < |f| && Reaches(cls, f, b + d, e + d)
    decreases e - b
  {
    hide *;
    ShiftBounds(cls, s, f, b, e, d);
    ReachesHere(cls, f, e + d);
    if b < e {
      OneShift(cls, s, f, b, e, d);
      ReachesNext(cls, f, b + d, e + d);
      if NextAt(cls, f, b + d) != e + d {
        ReachesShifted(cls, s, f, NextAt(cls, s, b), e, d);
      }
    }
  }
}
