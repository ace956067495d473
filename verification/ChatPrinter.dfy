/** A line's tree written out with its marks, what each node needs of its
    surroundings, and how the parser reads it back node by node.
    ChatPrint states what comes of it. */
module ChatPrinter {
  import opened Common
  import opened ChatGrammar
  import opened ChatNormalForm
  import opened ChatText
  import opened MentionReading
  import P = Payload

  // ----- writing a tree -----

  function PrintNode(node: Inline): string
    decreases node
  {
    match node
    case Text(text) => Escape(text)
    case Styled(style, children) => style.Delimiter() + Print(children) + style.Delimiter()
    case Code(code) => "`" + code + "`"
    case Link(url) => url
    case Reference(member) => ReferenceText(member)
  }

  function Print(nodes: seq<Inline>): string
    decreases nodes
  {
    if nodes == [] then "" else PrintNode(nodes[0]) + Print(nodes[1..])
  }

  /** The text before ends in a word character, or the text after starts with one. */
  predicate EndsInWord(cls: Classes, before: string) {
    before != "" && cls.Word(before[|before| - 1])
  }

  predicate StartsWithWord(cls: Classes, after: string) {
    after != "" && cls.Word(after[0])
  }

  /** Neither end of the text is a space. */
  predicate Tight(cls: Classes, text: string) {
    text != "" && !cls.space(text[0]) && !cls.space(text[|text| - 1])
  }

  /** What a node needs of its surroundings to be read as written: styles are
      not repeated inside one another and enclose no outer space, an italic
      stands clear of word characters, code has no backtick, and a link is a
      link by itself and set off by what may stand beside one. */
  predicate NodeFits(cls: Classes, before: string, node: Inline, after: string, open: seq<Style>)
    decreases node
  {
    match node
    case Text(_) => true
    case Styled(style, children) =>
      && style !in open && |open| < 2 && Tight(cls, Print(children))
      && (style.Italic? ==> !EndsInWord(cls, before) && !StartsWithWord(cls, after))
      && Fits(cls, before + style.Delimiter(), children, style.Delimiter() + after, open + [style])
    case Code(code) => '`' !in code
    case Link(url) =>
      && LinkEnd(cls, url, 0) == |url| && MayFollow(cls, before, |before|)
      && (after == "" || EndsUrl(cls, after[0]))
    case Reference(_) => true
  }

  predicate Fits(cls: Classes, before: string, nodes: seq<Inline>, after: string, open: seq<Style>)
    decreases nodes
  {
    nodes == [] ||
    (&& NodeFits(cls, before, nodes[0], Print(nodes[1..]) + after, open)
     && Fits(cls, before + PrintNode(nodes[0]), nodes[1..], after, open))
  }

  // ----- what the parser makes of it -----

  function AfterNode(p: Parser, node: Inline): (q: Parser)
    requires p.Valid()
    ensures q.Valid() && |q.stack| == |p.stack|
  {
    if node.Text? then p.Write(node.text) else p.Add(node)
  }

  function After(p: Parser, nodes: seq<Inline>): (q: Parser)
    requires p.Valid()
    ensures q.Valid() && |q.stack| == |p.stack|
    decreases |nodes|
  {
    if nodes == [] then p else After(AfterNode(p, nodes[0]), nodes[1..])
  }

  /** The styles open in the parser, outermost first. */
  ghost predicate HasOpen(p: Parser, open: seq<Style>) {
    |p.stack| == |open| + 1 && forall k :: 0 <= k < |open| ==> p.stack[k + 1].style == Some(open[k])
  }

  lemma AfterOpen(p: Parser, node: Inline, open: seq<Style>)
    requires p.Valid() && HasOpen(p, open)
    ensures HasOpen(AfterNode(p, node), open)
  {
  }

  /** The innermost frame with these nodes as well. */
  function With(p: Parser, nodes: seq<Inline>): Parser
    requires p.Valid()
  {
    Parser(p.stack[p.Top() := Frame(p.stack[p.Top()].style, p.stack[p.Top()].nodes + nodes)], p.text)
  }

  lemma WithBoth(p: Parser, node: Inline, more: seq<Inline>)
    requires p.Valid()
    ensures With(p.WithNode(node), more) == With(p, [node] + more)
  {
    var top := p.Top();
    assert p.stack[top].nodes + [node] + more == p.stack[top].nodes + ([node] + more);
    assert With(p.WithNode(node), more).stack == With(p, [node] + more).stack;
  }

  lemma WithNone(p: Parser)
    requires p.Valid()
    ensures With(p, []) == p
  {
    assert p.stack[p.Top()].nodes + [] == p.stack[p.Top()].nodes;
    assert With(p, []).stack == p.stack;
  }

  /** Tidy nodes arrive in the frame as they are. */
  lemma {:induction false} AfterFlush(p: Parser, nodes: seq<Inline>, depth: nat)
    requires p.Valid() && Tidy(nodes, depth) && (nodes != [] && nodes[0].Text? ==> p.text == "")
    ensures After(p, nodes).Flush() == With(p.Flush(), nodes)
    decreases |nodes|
  {
    hide With, NodeOk;
    if nodes == [] {
      WithNone(p.Flush());
    } else {
      var rest, q := nodes[1..], AfterNode(p, nodes[0]);
      assert Tidy(rest, depth);
      assert NodeOk(nodes[0], depth);
      WrittenFlush(p, nodes[0], depth);
      AfterFlush(q, rest, depth);
      WithBoth(p.Flush(), nodes[0], rest);
      assert nodes == [nodes[0]] + rest;
    }
  }

  lemma WrittenFlush(p: Parser, node: Inline, depth: nat)
    requires p.Valid() && NodeOk(node, depth) && (node.Text? ==> p.text == "")
    ensures AfterNode(p, node).Flush() == p.Flush().WithNode(node)
    ensures !node.Text? ==> AfterNode(p, node).text == ""
  {
    if node.Text? {
      assert p.text + node.text == node.text;
    }
  }

  // ----- one node at a time -----

  /** A character that starts something other than text. */
  predicate Marks(c: char) {
    c == '*' || c == '_' || c == '`' || c == '<' || c == 'h'
  }

  predicate Marked(after: string) {
    after == "" || Marks(after[0])
  }

  lemma NoScheme(pre: string, text: string, post: string)
    requires text != "" && Marked(post)
    ensures SchemeAt(pre + Escape(text) + post, |pre|) == 0
  {
    var s, i, e := pre + Escape(text) + post, |pre|, Escape(text);
    var http, https := "http://", "https://";
    assert http[3] == 'p' && http[4] == ':' && https[4] == 's' && https[5] == ':';
    NoSchemeIn(s, pre, text, post, http, 4);
    NoSchemeIn(s, pre, text, post, https, 5);
  }

  /** No scheme whose colon is its m-th character starts in an escaped text,
      not even one that would go on after it. */
  lemma NoSchemeIn(s: string, pre: string, text: string, post: string, scheme: string, m: nat)
    requires s == pre + Escape(text) + post && Marked(post) && 0 < m < |scheme| && scheme[m] == ':' && scheme[m - 1] != '\\'
    requires forall k :: 0 < k <= m ==> !Marks(scheme[k])
    requires text != ""
    ensures !StartsAt(s, |pre|, scheme)
  {
    var i, e := |pre|, Escape(text);
    EscapeLonger(text);
    if m < |e| {
      assert s[i + m] == e[m] && s[i + m - 1] == e[m - 1];
      if e[m] == ':' {
        EscapedGuards(text, m);
        assert s[i + (m - 1)] != scheme[m - 1];
      } else {
        assert s[i + m] != scheme[m];
      }
    } else if post != "" {
      assert s[i + |e|] == post[0] && Marks(post[0]) && !Marks(scheme[|e|]);
    }
  }

  lemma EscapeLonger(text: string)
    requires text != ""
    ensures |Escape(text)| > 0
  {
  }

  lemma TextConstruct(cls: Classes, pre: string, text: string, post: string)
    requires text != "" && Marked(post)
    ensures var s, i := pre + Escape(text) + post, |pre|;
            && i < |s| && ConstructAt(cls, s, i) == (if Punctuation(text[0]) then Escaped(text[0]) else Plain(text[0]))
            && NextAt(cls, s, i) == |pre + EscapedChar(text[0])|
  {
    hide SchemeAt, LinkEnd, ReferenceAt, Find, Marks;
    var s, i := pre + Escape(text) + post, |pre|;
    NoScheme(pre, text, post);
    NoLinkHere(cls, s, i);
    assert s[i] == Escape(text)[0];
    assert "**"[0] == '*';
    assert Punctuation(text[0]) ==> s[i + 1] == Escape(text)[1] == text[0];
  }

  lemma {:induction false} TextRun(cls: Classes, pre: string, text: string, post: string, p: Parser)
    requires p.Valid() && Marked(post)
    ensures Run(cls, pre + Escape(text) + post, |pre|, p) == Run(cls, pre + Escape(text) + post, |pre + Escape(text)|, p.Write(text))
    decreases |text|
  {
    if text == "" {
      assert pre + Escape(text) == pre && p.Write(text) == p;
    } else {
      var head, s := EscapedChar(text[0]), pre + Escape(text) + post;
      TextConstruct(cls, pre, text, post);
      assert s == (pre + head) + Escape(text[1..]) + post && pre + Escape(text) == (pre + head) + Escape(text[1..]);
      hide Run, ConstructAt, NextAt, Escape;
      RunOver(cls, s, |pre|, p);
      TextRun(cls, pre + head, text[1..], post, p.Write([text[0]]));
      Rewritten(p, text);
    }
  }

  lemma CodeConstruct(cls: Classes, pre: string, code: string, post: string)
    requires code != "" && '`' !in code
    ensures ConstructAt(cls, pre + PrintNode(Code(code)) + post, |pre|) == Span(code)
  {
    var s, i := pre + PrintNode(Code(code)) + post, |pre|;
    var end := i + 1 + |code|;
    assert s[i] == '`' && s[end] == '`' && s[i + 1..end] == code;
    assert forall k :: i + 1 <= k < end ==> s[k] == code[k - i - 1] && code[k - i - 1] in code;
    assert Find(s, '`', i + 1) == end;
  }

  lemma ReferenceIs(cls: Classes, pre: string, id: P.ID, post: string)
    ensures ConstructAt(cls, pre + ReferenceText(id) + post, |pre|) == Construct.Member(id)
  {
    var s, i := pre + ReferenceText(id) + post, |pre|;
    assert forall k :: 0 <= k < 39 ==> s[i + k] == ReferenceText(id)[k];
    ReferenceReads(s, i, id);
    assert s[i] == '<' by { assert ReferenceText(id)[0] == '<'; }
  }

  lemma UrlConstruct(cls: Classes, s: string, i: nat)
    requires i < |s| && s[i] == 'h' && LinkEnd(cls, s, i) > i
    ensures ConstructAt(cls, s, i) == Url(s[i..LinkEnd(cls, s, i)])
  {
    hide LinkEnd;
  }

  lemma LinkThere(cls: Classes, pre: string, url: string, post: string)
    requires url != "" && LinkEnd(cls, url, 0) == |url| && MayFollow(cls, pre, |pre|) && (post == "" || EndsUrl(cls, post[0]))
    ensures LinkEnd(cls, pre + url + post, |pre|) == |pre| + |url|
  {
    hide SchemeAt, MayFollow, HasHost, TrimmedLink, EndsUrl, LinkEnd, Stops, Same;
    LinkStartsWithH(cls, url);
    SchemeStays(pre, url, post);
    SameStart(cls, pre, url, post);
    StopsThere(cls, pre, url, post);
    LinkSame(cls, url, pre + url + post, 0, |url|, |pre|);
  }

  lemma StopsThere(cls: Classes, pre: string, url: string, post: string)
    requires post == "" || EndsUrl(cls, post[0])
    ensures Stops(cls, url, |url|) && Stops(cls, pre + url + post, |pre| + |url|) && Same(url, pre + url + post, 0, |url|, |pre|)
  {
    hide EndsUrl;
  }

  lemma SameStart(cls: Classes, pre: string, url: string, post: string)
    requires MayFollow(cls, pre, |pre|)
    ensures MayFollow(cls, url, 0) && MayFollow(cls, pre + url + post, |pre|)
  {
  }

  lemma LinkConstructs(cls: Classes, pre: string, url: string, post: string)
    requires url != "" && LinkEnd(cls, url, 0) == |url| && MayFollow(cls, pre, |pre|) && (post == "" || EndsUrl(cls, post[0]))
    ensures ConstructAt(cls, pre + url + post, |pre|) == Url(url)
  {
    hide MayFollow, EndsUrl, LinkEnd, ConstructAt;
    var s, i := pre + url + post, |pre|;
    LinkStartsWithH(cls, url);
    LinkThere(cls, pre, url, post);
    UrlConstruct(cls, s, i);
    assert s[i..i + |url|] == url;
  }

  lemma LinkStartsWithH(cls: Classes, url: string)
    requires url != "" && LinkEnd(cls, url, 0) == |url|
    ensures 0 < SchemeAt(url, 0) <= |url| && url[0] == 'h'
  {
    hide HasHost, TrimmedLink;
    assert "https://"[0] == 'h' && "http://"[0] == 'h';
    assert StartsAt(url, 0, "https://") || StartsAt(url, 0, "http://");
  }

  lemma SchemeStays(pre: string, url: string, post: string)
    requires SchemeAt(url, 0) > 0
    ensures SchemeAt(pre + url + post, |pre|) == SchemeAt(url, 0)
  {
    var s, i := pre + url + post, |pre|;
    assert forall k :: 0 <= k < |url| ==> s[i + k] == url[k];
    if StartsAt(url, 0, "https://") {
      assert StartsAt(s, i, "https://");
    } else {
      assert url[4] == "http://"[4] && "http://"[4] == ':' && "https://"[4] == 's';
      assert !StartsAt(s, i, "https://") && StartsAt(s, i, "http://");
    }
  }

  lemma DelimConstruct(cls: Classes, pre: string, style: Style, post: string)
    ensures ConstructAt(cls, pre + style.Delimiter() + post, |pre|) == Delim(style)
  {
    var s, i := pre + style.Delimiter() + post, |pre|;
    assert s[i] == style.Delimiter()[0];
    if style.Bold? {
      assert forall k :: 0 <= k < 2 ==> s[i + k] == "**"[k];
    } else {
      assert "**"[0] == '*';
    }
  }

  // ----- styles -----

  lemma Opens(cls: Classes, pre: string, style: Style, post: string, p: Parser, open: seq<Style>)
    requires p.Valid() && HasOpen(p, open) && style !in open && |open| < 2 && post != "" && !cls.space(post[0])
    requires style.Italic? ==> !EndsInWord(cls, pre)
    ensures Delimit(cls, pre + style.Delimiter() + post, |pre|, style, p) == p.Open(style)
  {
    var s, i := pre + style.Delimiter() + post, |pre|;
    assert s[i + |style.Delimiter()|] == post[0];
    assert i > 0 ==> s[i - 1] == pre[i - 1];
    assert p.Top() > 0 ==> p.stack[p.Top()].style == Some(open[|open| - 1]);
  }

  lemma ClosesHere(cls: Classes, pre: string, style: Style, post: string, p: Parser)
    requires p.Valid() && p.Top() > 0 && p.stack[p.Top()].style == Some(style) && pre != "" && !cls.space(pre[|pre| - 1])
    requires style.Italic? ==> !StartsWithWord(cls, post)
    ensures Delimit(cls, pre + style.Delimiter() + post, |pre|, style, p) == p.Close()
  {
    var s, i := pre + style.Delimiter() + post, |pre|;
    var j := i + |style.Delimiter()|;
    assert s[i - 1] == pre[i - 1];
    assert j < |s| ==> s[j] == post[0];
  }

  /** Closing a style gives one node with what was read inside. */
  lemma CloseGives(p: Parser, style: Style, children: seq<Inline>, depth: nat)
    requires p.Valid() && Tidy(children, depth)
    ensures var q := After(p.Open(style), children);
            q.stack[q.Top()].style == Some(style) && |q.stack| > 1 && q.Close() == p.Add(Styled(style, children))
  {
    var o := p.Open(style);
    var q := After(o, children);
    AfterFlush(o, children, depth);
    AfterStyle(o, children);
    TidyIsMerged(children, depth);
    var f := q.Flush();
    assert f == With(o, children) && o.Flush() == o;
    assert f.stack[f.Top()].nodes == children by { assert [] + children == children; }
    assert Parser(f.stack[..f.Top()], "") == p.Flush() by { assert o.stack[..o.Top()] == p.Flush().stack; }
  }

  lemma {:induction false} AfterStyle(p: Parser, nodes: seq<Inline>)
    requires p.Valid()
    ensures var q := After(p, nodes); forall k :: 0 <= k < |p.stack| ==> q.stack[k].style == p.stack[k].style
    decreases |nodes|
  {
    if nodes != [] {
      AfterStyle(AfterNode(p, nodes[0]), nodes[1..]);
    }
  }

  lemma {:induction false} StillOpen(p: Parser, nodes: seq<Inline>, open: seq<Style>)
    requires p.Valid() && HasOpen(p, open)
    ensures HasOpen(After(p, nodes), open)
  {
    AfterStyle(p, nodes);
  }

  // ----- reading what was written -----

  /** Nothing but text is followed by text. */
  predicate Sets(nodes: seq<Inline>, after: string) {
    nodes != [] && nodes[|nodes| - 1].Text? ==> Marked(after)
  }

  lemma Step1(cls: Classes, s: string, i: nat, p: Parser, c: Construct)
    requires p.Valid() && i < |s| && ConstructAt(cls, s, i) == c
    ensures Run(cls, s, i, p) == Run(cls, s, i + c.Width(), Step(cls, s, i, p))
  {
    hide ConstructAt, Step;
  }

  /** Anything but a style is read in one construct, and text in several. */
  lemma PlainRead(cls: Classes, before: string, node: Inline, after: string, open: seq<Style>, depth: nat, p: Parser)
    requires !node.Styled? && NodeOk(node, depth) && NodeFits(cls, before, node, after, open)
    requires p.Valid() && (node.Text? ==> Marked(after))
    ensures Run(cls, before + PrintNode(node) + after, |before|, p)
         == Run(cls, before + PrintNode(node) + after, |before + PrintNode(node)|, AfterNode(p, node))
  {
    hide ConstructAt, Run, ReferenceText, LinkEnd, MayFollow, EndsUrl;
    var s, i := before + PrintNode(node) + after, |before|;
    match node
    case Text(text) => TextRun(cls, before, text, after, p);
    case Code(code) =>
      CodeConstruct(cls, before, code, after);
      Step1(cls, s, i, p, Span(code));
    case Link(url) =>
      LinkConstructs(cls, before, url, after);
      Step1(cls, s, i, p, Url(url));
    case Reference(member) =>
      ReferenceIs(cls, before, member, after);
      Step1(cls, s, i, p, Construct.Member(member));
  }

  lemma StyleParts(cls: Classes, before: string, style: Style, children: seq<Inline>, after: string, open: seq<Style>, depth: nat)
    requires NodeOk(Styled(style, children), depth) && NodeFits(cls, before, Styled(style, children), after, open)
    ensures depth > 0 && Tidy(children, depth - 1) && style !in open && |open| < 2 && Tight(cls, Print(children))
    ensures style.Italic? ==> !EndsInWord(cls, before) && !StartsWithWord(cls, after)
    ensures Fits(cls, before + style.Delimiter(), children, style.Delimiter() + after, open + [style])
    ensures PrintNode(Styled(style, children)) == style.Delimiter() + Print(children) + style.Delimiter()
    ensures Sets(children, style.Delimiter() + after)
  {
    assert Marks(style.Delimiter()[0]);
    hide Fits, Tidy;
  }

  lemma OpeningRead(cls: Classes, before: string, style: Style, inside: string, p: Parser, open: seq<Style>)
    requires p.Valid() && HasOpen(p, open) && style !in open && |open| < 2 && inside != "" && !cls.space(inside[0])
    requires style.Italic? ==> !EndsInWord(cls, before)
    ensures Run(cls, before + style.Delimiter() + inside, |before|, p)
         == Run(cls, before + style.Delimiter() + inside, |before + style.Delimiter()|, p.Open(style))
    ensures HasOpen(p.Open(style), open + [style])
  {
    hide ConstructAt, Run, Delimit;
    DelimConstruct(cls, before, style, inside);
    Opens(cls, before, style, inside, p, open);
    Step1(cls, before + style.Delimiter() + inside, |before|, p, Delim(style));
  }

  lemma ClosingRead(cls: Classes, before: string, style: Style, after: string, p: Parser, children: seq<Inline>, depth: nat)
    requires p.Valid() && Tidy(children, depth) && before != "" && !cls.space(before[|before| - 1])
    requires style.Italic? ==> !StartsWithWord(cls, after)
    ensures Run(cls, before + style.Delimiter() + after, |before|, After(p.Open(style), children))
         == Run(cls, before + style.Delimiter() + after, |before + style.Delimiter()|, p.Add(Styled(style, children)))
  {
    hide ConstructAt, Run, Delimit, Tidy, After;
    var q := After(p.Open(style), children);
    DelimConstruct(cls, before, style, after);
    CloseGives(p, style, children, depth);
    ClosesHere(cls, before, style, after, q);
    Step1(cls, before + style.Delimiter() + after, |before|, q, Delim(style));
  }

  lemma {:induction false} NodeRead(cls: Classes, before: string, node: Inline, after: string, open: seq<Style>, depth: nat, p: Parser)
    requires cls.Valid() && NodeOk(node, depth) && NodeFits(cls, before, node, after, open)
    requires p.Valid() && HasOpen(p, open) && (node.Text? ==> Marked(after))
    ensures Run(cls, before + PrintNode(node) + after, |before|, p)
         == Run(cls, before + PrintNode(node) + after, |before + PrintNode(node)|, AfterNode(p, node))
    decreases node, 1
  {
    hide NodeOk, NodeFits, PrintNode, Run, HasOpen, Marked, Tidy, Fits, Print, Sets, After;
    if node.Styled? {
      var style, children, delim := node.style, node.children, node.style.Delimiter();
      StyleParts(cls, before, style, children, after, open, depth);
      var inner := Print(children);
      var s, opening, closing := before + PrintNode(node) + after, before + delim, before + delim + inner;
      var inside := inner + delim + after;
      assert inside[0] == inner[0] && closing[|closing| - 1] == inner[|inner| - 1];
      assert s == opening + inside && s == opening + inner + (delim + after) && s == closing + delim + after;
      OpeningRead(cls, before, style, inside, p, open);
      NodesRead(cls, opening, children, delim + after, open + [style], depth - 1, p.Open(style));
      ClosingRead(cls, closing, style, after, p, children, depth - 1);
      assert before + PrintNode(node) == closing + delim;
    } else {
      PlainRead(cls, before, node, after, open, depth, p);
    }
  }

  lemma NodesParts(cls: Classes, before: string, nodes: seq<Inline>, after: string, open: seq<Style>, depth: nat)
    requires nodes != [] && Tidy(nodes, depth) && Fits(cls, before, nodes, after, open) && Sets(nodes, after)
    ensures NodeOk(nodes[0], depth) && Tidy(nodes[1..], depth) && Sets(nodes[1..], after)
    ensures Print(nodes) == PrintNode(nodes[0]) + Print(nodes[1..])
    ensures NodeFits(cls, before, nodes[0], Print(nodes[1..]) + after, open)
    ensures Fits(cls, before + PrintNode(nodes[0]), nodes[1..], after, open)
    ensures nodes[0].Text? ==> Marked(Print(nodes[1..]) + after)
  {
    hide NodeOk, NodeFits, PrintNode, Marked;
    if nodes[0].Text? {
      MarkedRest(cls, before, nodes, after, open, depth);
    }
  }

  /** Well set nodes are read as they are, wherever they stand. */
  lemma {:induction false} NodesRead(cls: Classes, before: string, nodes: seq<Inline>, after: string, open: seq<Style>, depth: nat, p: Parser)
    requires cls.Valid() && Tidy(nodes, depth) && Fits(cls, before, nodes, after, open)
    requires p.Valid() && HasOpen(p, open) && Sets(nodes, after)
    ensures Run(cls, before + Print(nodes) + after, |before|, p)
         == Run(cls, before + Print(nodes) + after, |before + Print(nodes)|, After(p, nodes))
    decreases nodes, 2
  {
    hide NodeOk, NodeFits, PrintNode, Run, HasOpen, Marked, Tidy, Fits, Sets;
    if nodes == [] {
      assert before + Print(nodes) == before;
    } else {
      hide Print;
      var node, rest := nodes[0], nodes[1..];
      var more := before + PrintNode(node);
      NodesParts(cls, before, nodes, after, open, depth);
      assert before + Print(nodes) + after == before + PrintNode(node) + (Print(rest) + after);
      assert before + Print(nodes) + after == more + Print(rest) + after && before + Print(nodes) == more + Print(rest);
      NodeRead(cls, before, node, Print(rest) + after, open, depth, p);
      AfterOpen(p, node, open);
      NodesRead(cls, more, rest, after, open, depth, AfterNode(p, node));
    }
  }

  lemma MarkedRest(cls: Classes, before: string, nodes: seq<Inline>, after: string, open: seq<Style>, depth: nat)
    requires nodes != [] && Tidy(nodes, depth) && Fits(cls, before, nodes, after, open) && nodes[0].Text? && Sets(nodes, after)
    ensures Marked(Print(nodes[1..]) + after)
  {
    var rest := nodes[1..];
    if rest == [] {
      assert Print(rest) + after == after;
    } else {
      assert rest[0] == nodes[1] && NodeOk(nodes[1], depth) && !nodes[1].Text?;
      assert NodeFits(cls, before + PrintNode(nodes[0]), rest[0], Print(rest[1..]) + after, open);
      hide NodeOk, PrintNode, NodeFits;
      FirstMark(cls, before + PrintNode(nodes[0]), rest[0], Print(rest[1..]) + after, open, depth);
    }
  }

  lemma FirstMark(cls: Classes, before: string, node: Inline, after: string, open: seq<Style>, depth: nat)
    requires NodeOk(node, depth) && NodeFits(cls, before, node, after, open) && !node.Text?
    ensures PrintNode(node) != "" && Marks(PrintNode(node)[0])
  {
    hide Fits, LinkEnd, MayFollow;
    match node
    case Styled(style, _) => assert Marks(style.Delimiter()[0]);
    case Link(url) => LinkStartsWithH(cls, url);
    case Reference(member) => assert ReferenceText(member)[0] == '<';
    case _ =>
  }

  lemma RunEnds(cls: Classes, line: string, p: Parser)
    requires p.Valid()
    ensures Run(cls, line, |line|, p) == p
  {
  }
}
