/** The chat_v1 grammar (internal/conversation/chatv1.go): what a line's
    characters mean, as functions. First the construct that starts at each
    position, which depends on the line alone; then what the constructs do to
    the parser's stack; then blocks. ChatParser is the program; it is proved
    against these functions. */
module ChatGrammar {
  import opened Common
  import P = Payload

  /** The Unicode classes the grammar asks about. */
  datatype Classes = Classes(space: char -> bool, letter: char -> bool, digit: char -> bool, mark: char -> bool)
  {
    /** What they say about ASCII. */
    ghost predicate Valid() {
      && (forall c: char :: c < 128 as char ==> (space(c) <==> 9 <= c as int <= 13 || c == ' '))
      && (forall c: char :: c < 128 as char ==> (letter(c) <==> 'a' <= c <= 'z' || 'A' <= c <= 'Z'))
      && (forall c: char :: c < 128 as char ==> (digit(c) <==> '0' <= c <= '9'))
      && (forall c: char :: c < 128 as char ==> !mark(c))
    }

    predicate Word(c: char) {
      letter(c) || digit(c) || mark(c)
    }
  }

  predicate Punctuation(c: char) {
    33 <= c as int <= 47 || 58 <= c as int <= 64 || 91 <= c as int <= 96 || 123 <= c as int <= 126
  }

  /** The ranges are the characters the parser lists. */
  lemma PunctuationListed(c: char)
    ensures Punctuation(c) <==> c in "!\"#$%&'()*+,-./:;<=>?@[\\]^_`{|}~"
  {
  }

  predicate Alphanumeric(c: char) {
    'a' <= c <= 'z' || 'A' <= c <= 'Z' || '0' <= c <= '9'
  }

  // ----- inline nodes -----

  datatype Style = Bold | Italic
  {
    function Delimiter(): string {
      if Bold? then "**" else "_"
    }
  }

  datatype Inline =
    | Text(text: string)
    | Styled(style: Style, children: seq<Inline>)
    | Code(code: string)
    | Link(url: string)
    | Reference(member: P.ID)

  // ----- the construct at a position -----

  datatype Construct =
    | Escaped(c: char)
    | Span(code: string)
    | Member(id: P.ID)
    | Url(url: string)
    | Delim(style: Style)
    | Plain(c: char)
  {
    function Width(): nat {
      match this
      case Escaped(_) => 2
      case Span(code) => |code| + 2
      case Member(_) => 39
      case Url(url) => |url|
      case Delim(style) => |style.Delimiter()|
      case Plain(_) => 1
    }

    /** The source stays as typed: it may hold handles. */
    predicate Literal() {
      Delim? || Plain?
    }
  }

  /** The first position from i on that holds c, or the end. */
  function Find(s: string, c: char, i: nat): (r: nat)
    requires i <= |s|
    ensures i <= r <= |s| && (r < |s| ==> s[r] == c) && forall k :: i <= k < r ==> s[k] != c
    decreases |s| - i
  {
    if i == |s| || s[i] == c then i else Find(s, c, i + 1)
  }

  predicate StartsAt(s: string, i: nat, prefix: string) {
    i + |prefix| <= |s| && forall k :: 0 <= k < |prefix| ==> s[i + k] == prefix[k]
  }

  /** memberReference: the canonical text, lower case only, in "<@" and ">". */
  function ReferenceAt(s: string, i: nat): Option<P.ID> {
    if i + 39 <= |s| && s[i] == '<' && s[i + 1] == '@' && s[i + 38] == '>'
       && forall k :: i + 2 <= k < i + 38 ==> !P.Upper(s[k])
    then P.Parse(s[i + 2..i + 38]) else None
  }

  predicate EndsUrl(cls: Classes, c: char) {
    || c == '<' || c == '>' || c == '"'
    || c == '\U{2066}' || c == '\U{2067}' || c == '\U{2068}' || c == '\U{2069}'
    || c == '\U{200e}' || c == '\U{200f}' || c == '\U{061c}'
    || cls.space(c)
  }

  function UrlEnd(cls: Classes, s: string, i: nat): (r: nat)
    requires i <= |s|
    ensures i <= r <= |s| && (r < |s| ==> EndsUrl(cls, s[r])) && forall k :: i <= k < r ==> !EndsUrl(cls, s[k])
    decreases |s| - i
  {
    if i == |s| || EndsUrl(cls, s[i]) then i else UrlEnd(cls, s, i + 1)
  }

  predicate EndsAuthority(cls: Classes, c: char) {
    c == '/' || c == '?' || c == '#' || EndsUrl(cls, c)
  }

  function AuthorityEnd(cls: Classes, s: string, i: nat): (r: nat)
    requires i <= |s|
    ensures i <= r <= |s| && (r < |s| ==> EndsAuthority(cls, s[r])) && forall k :: i <= k < r ==> !EndsAuthority(cls, s[k])
    decreases |s| - i
  {
    if i == |s| || EndsAuthority(cls, s[i]) then i else AuthorityEnd(cls, s, i + 1)
  }

  /** The position after the last '@' in s[i..j], or i. */
  function HostAt(s: string, i: nat, j: nat): (r: nat)
    requires i <= j <= |s|
    ensures i <= r <= j && (r > i ==> s[r - 1] == '@') && forall k :: r <= k < j ==> s[k] != '@'
    decreases j
  {
    if j == i || s[j - 1] == '@' then j else HostAt(s, i, j - 1)
  }

  function Count(s: string, c: char, i: nat, j: nat): nat
    requires i <= j <= |s|
    decreases j
  {
    if i == j then 0 else Count(s, c, i, j - 1) + if s[j - 1] == c then 1 else 0
  }

  predicate Trimmable(c: char) {
    c == '.' || c == ',' || c == ':' || c == ';' || c == '!' || c == '?' || c == '\'' || c == '*' || c == '_'
  }

  /** Trailing punctuation, and closing parentheses without an opening one,
      are not part of a link; the scheme, up to `floor`, always is. */
  function Trimmed(s: string, floor: nat, end: nat, unbalanced: int): (r: nat)
    requires floor <= end <= |s|
    ensures floor <= r <= end
    ensures forall k :: r <= k < end ==> Trimmable(s[k]) || s[k] == ')'
    decreases end
  {
    if end == floor then end
    else if s[end - 1] == ')' && unbalanced > 0 then Trimmed(s, floor, end - 1, unbalanced - 1)
    else if Trimmable(s[end - 1]) then Trimmed(s, floor, end - 1, unbalanced)
    else end
  }

  function SchemeAt(s: string, i: nat): nat {
    if StartsAt(s, i, "https://") then 8 else if StartsAt(s, i, "http://") then 7 else 0
  }

  predicate MayFollow(cls: Classes, s: string, i: nat)
    requires i <= |s|
  {
    i == 0 || cls.space(s[i - 1]) || s[i - 1] == '('
  }

  /** A host starts with a letter, a digit or '['. */
  predicate HasHost(cls: Classes, s: string, i: nat)
    requires i <= |s|
  {
    var end := AuthorityEnd(cls, s, i);
    var host := HostAt(s, i, end);
    host < end && (cls.letter(s[host]) || cls.digit(s[host]) || s[host] == '[')
  }

  /** The link from i whose scheme ends at `floor`: up to a character that
      ends links, without the trailing punctuation. */
  function TrimmedLink(cls: Classes, s: string, i: nat, floor: nat): (r: nat)
    requires i <= floor <= |s|
    ensures floor <= r <= |s|
  {
    var end := UrlEnd(cls, s, floor);
    Trimmed(s, floor, end, Count(s, ')', i, end) - Count(s, '(', i, end))
  }

  /** autolink: where the link starting at i ends, or i if none starts. */
  function LinkEnd(cls: Classes, s: string, i: nat): (r: nat)
    requires i <= |s|
    ensures i <= r <= |s|
  {
    var scheme := SchemeAt(s, i);
    if scheme == 0 || !MayFollow(cls, s, i) || !HasHost(cls, s, i + scheme) then i
    else TrimmedLink(cls, s, i, i + scheme)
  }

  /** The rules in their order. */
  function ConstructAt(cls: Classes, s: string, i: nat): (r: Construct)
    requires i < |s|
    ensures r.Width() > 0 && i + r.Width() <= |s|
  {
    var c := s[i];
    if c == '\\' && i + 1 < |s| && Punctuation(s[i + 1]) then Escaped(s[i + 1])
    else if c == '`' && i + 1 < Find(s, '`', i + 1) < |s| then Span(s[i + 1..Find(s, '`', i + 1)])
    else if c == '<' && ReferenceAt(s, i).Some? then Member(ReferenceAt(s, i).value)
    else if c == 'h' && LinkEnd(cls, s, i) > i then Url(s[i..LinkEnd(cls, s, i)])
    else if StartsAt(s, i, "**") then Delim(Bold)
    else if c == '_' then Delim(Italic)
    else Plain(c)
  }

  function NextAt(cls: Classes, s: string, i: nat): (r: nat)
    requires i < |s|
    ensures i < r <= |s|
  {
    i + ConstructAt(cls, s, i).Width()
  }

  // ----- the parser's stack -----

  /** The line itself at the bottom, or an open delimiter. */
  datatype Frame = Frame(style: Option<Style>, nodes: seq<Inline>)
  {
    function Delimiter(): string {
      if style.Some? then style.value.Delimiter() else ""
    }
  }

  datatype Parser = Parser(stack: seq<Frame>, text: string)
  {
    predicate Valid() {
      stack != []
    }

    function Top(): nat
      requires Valid()
    {
      |stack| - 1
    }

    function WithNode(node: Inline): Parser
      requires Valid()
    {
      this.(stack := stack[Top() := stack[Top()].(nodes := stack[Top()].nodes + [node])])
    }

    function Flush(): (p: Parser)
      requires Valid()
      ensures p.Valid() && |p.stack| == |stack| && p.text == ""
    {
      if text == "" then this else WithNode(Text(text)).(text := "")
    }

    function Add(node: Inline): (p: Parser)
      requires Valid()
      ensures p.Valid() && |p.stack| == |stack|
    {
      Flush().WithNode(node)
    }

    function Write(more: string): Parser {
      this.(text := text + more)
    }

    /** The innermost open delimiter becomes a node. */
    function Close(): (p: Parser)
      requires |stack| > 1 && stack[Top()].style.Some?
      ensures p.Valid() && |p.stack| == |stack| - 1
    {
      var p := Flush();
      var frame := p.stack[p.Top()];
      Parser(p.stack[..p.Top()], "").Add(Styled(stack[Top()].style.value, Merge(frame.nodes)))
    }

    function Open(style: Style): (p: Parser)
      requires Valid()
      ensures p.Valid() && |p.stack| == |stack| + 1
    {
      var p := Flush();
      p.(stack := p.stack + [Frame(Some(style), [])])
    }
  }

  const EMPTY := Parser([Frame(None, [])], "")

  /** Joins adjacent text nodes. */
  function Merge(nodes: seq<Inline>): seq<Inline> {
    if nodes == [] then []
    else
      var rest := Merge(nodes[1..]);
      if nodes[0].Text? && rest != [] && rest[0].Text? then [Text(nodes[0].text + rest[0].text)] + rest[1..]
      else [nodes[0]] + rest
  }

  predicate CanOpen(cls: Classes, s: string, i: nat, style: Style)
    requires i + |style.Delimiter()| <= |s|
  {
    var j := i + |style.Delimiter()|;
    && j < |s| && !cls.space(s[j])
    && (style.Italic? ==> i == 0 || !cls.Word(s[i - 1]))
  }

  predicate CanClose(cls: Classes, s: string, i: nat, style: Style)
    requires i + |style.Delimiter()| <= |s|
  {
    var j := i + |style.Delimiter()|;
    && i > 0 && !cls.space(s[i - 1])
    && (style.Italic? ==> j == |s| || !cls.Word(s[j]))
  }

  /** Whether a delimiter at i closes the innermost open one. */
  predicate Closes(cls: Classes, s: string, i: nat, style: Style, p: Parser)
    requires p.Valid() && i + |style.Delimiter()| <= |s|
  {
    CanClose(cls, s, i, style) && p.Top() > 0 && p.stack[p.Top()].style == Some(style)
  }

  function Delimit(cls: Classes, s: string, i: nat, style: Style, p: Parser): (q: Parser)
    requires p.Valid() && i + |style.Delimiter()| <= |s|
    ensures q.Valid()
  {
    if Closes(cls, s, i, style, p) then p.Close()
    else if CanOpen(cls, s, i, style) && p.Top() < 2 then p.Open(style)
    else p.Write(style.Delimiter())
  }

  function Step(cls: Classes, s: string, i: nat, p: Parser): (q: Parser)
    requires p.Valid() && i < |s|
    ensures q.Valid()
  {
    match ConstructAt(cls, s, i)
    case Escaped(c) => p.Write([c])
    case Span(code) => p.Add(Code(code))
    case Member(id) => p.Add(Reference(id))
    case Url(url) => p.Add(Link(url))
    case Delim(style) => Delimit(cls, s, i, style, p)
    case Plain(c) => p.Write([c])
  }

  /** Reads on from position i, which must be where a construct starts. */
  function Run(cls: Classes, s: string, i: nat, p: Parser): (q: Parser)
    requires p.Valid() && i <= |s|
    ensures q.Valid()
    decreases |s| - i
  {
    if i == |s| then p else Run(cls, s, NextAt(cls, s, i), Step(cls, s, i, p))
  }

  /** Frames left over are folded into those below, each with its delimiter as text. */
  function Unwind(stack: seq<Frame>): seq<Inline>
    requires stack != []
    decreases |stack|
  {
    var top := |stack| - 1;
    if top == 0 then stack[0].nodes
    else
      var parent := stack[top - 1];
      Unwind(stack[..top - 1] + [parent.(nodes := parent.nodes + [Text(stack[top].Delimiter())] + stack[top].nodes)])
  }

  function Inlines(cls: Classes, line: string): seq<Inline> {
    Merge(Unwind(Run(cls, line, 0, EMPTY).Flush().stack))
  }

  /** Reading on from j, a construct starts at i and it is a '_' that closes
      the innermost open delimiter. */
  predicate ItalicClosesFrom(cls: Classes, line: string, j: nat, i: nat, p: Parser)
    requires p.Valid() && j <= |line| && i < |line|
    decreases |line| - j
  {
    if j < i then ItalicClosesFrom(cls, line, NextAt(cls, line, j), i, Step(cls, line, j, p))
    else j == i && line[i] == '_' && |Step(cls, line, i, p).stack| < |p.stack|
  }

  predicate ItalicClosesAt(cls: Classes, line: string, i: nat)
    requires i < |line|
  {
    ItalicClosesFrom(cls, line, 0, i, EMPTY)
  }

  // ----- normal form -----

  /** No empty text and no two texts side by side, at any level, with styles
      nested at most `depth` deep. */
  ghost predicate Tidy(nodes: seq<Inline>, depth: nat)
    decreases depth, 2
  {
    Raw(nodes, depth) && forall k :: 0 < k < |nodes| ==> !(nodes[k - 1].Text? && nodes[k].Text?)
  }

  /** As Tidy, but texts may still stand side by side at the top level. */
  ghost predicate Raw(nodes: seq<Inline>, depth: nat)
    decreases depth, 1
  {
    forall k :: 0 <= k < |nodes| ==> NodeOk(nodes[k], depth)
  }

  ghost predicate NodeOk(node: Inline, depth: nat)
    decreases depth, 0
  {
    match node
    case Text(text) => text != ""
    case Styled(_, children) => depth > 0 && Tidy(children, depth - 1)
    case Code(code) => code != ""
    case Link(url) => url != ""
    case Reference(_) => true
  }
}
