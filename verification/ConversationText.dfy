module ConversationText {
  /** The texts of a conversation (internal/conversation/message.go, text.go,
      mentions.go): which bodies are valid, what handles typed in one are
      converted to, and what a quote shows of the members a body references.
      A directory names the members of the organisation by their handles. */

  import opened Common
  import opened LineEnds
  import ChatGrammar
  import ChatBlocks
  import ChatText
  import MentionBody
  import MentionRewrite
  import P = Payload

  /** The handle of each member. */
  type Names = map<P.ID, string>

  /** What the texts take from elsewhere: classes of characters, handles that
      nobody can have, and lower case. */
  datatype Texts = Texts(
    cls: ChatGrammar.Classes, control: char -> bool, reserved: string -> bool, lower: string -> string)

  const MAX_BODY := 4000

  // ----- valid bodies -----

  /** Control characters but line feed and tab, line and paragraph separators,
      and bidirectional embeddings and overrides. */
  predicate Forbidden(t: Texts, c: char) {
    || (t.control(c) && c != '\n' && c != '\t')
    || c as int == 0x2028 || c as int == 0x2029 || 0x202a <= c as int <= 0x202e
  }

  function TrimLeft(t: Texts, s: string): string {
    if s != "" && t.cls.space(s[0]) then TrimLeft(t, s[1..]) else s
  }

  function TrimRight(t: Texts, s: string): string {
    if s != "" && t.cls.space(s[|s| - 1]) then TrimRight(t, s[..|s| - 1]) else s
  }

  function Trim(t: Texts, s: string): string {
    TrimRight(t, TrimLeft(t, s))
  }

  /** ValidateMessageBody: the body with its line ends unified and trimmed. */
  function Valid(t: Texts, value: string): Option<string> {
    var unified := WithoutCr(WithoutCrlf(value));
    if exists c :: c in unified && Forbidden(t, c) then None
    else
      var body := Trim(t, unified);
      if 1 <= |body| <= MAX_BODY then Some(body) else None
  }

  /** No space at either end. */
  predicate Trimmed(t: Texts, s: string) {
    s == "" || (!t.cls.space(s[0]) && !t.cls.space(s[|s| - 1]))
  }

  lemma {:induction false} TrimLeftFacts(t: Texts, s: string)
    ensures var r := TrimLeft(t, s);
            && |r| <= |s| && r == s[|s| - |r|..] && (r != "" ==> !t.cls.space(r[0]))
  {
    if s != "" && t.cls.space(s[0]) {
      TrimLeftFacts(t, s[1..]);
    }
  }

  lemma {:induction false} TrimRightFacts(t: Texts, s: string)
    ensures var r := TrimRight(t, s);
            && |r| <= |s| && r == s[..|r|] && (r != "" ==> !t.cls.space(r[|r| - 1]))
  {
    if s != "" && t.cls.space(s[|s| - 1]) {
      TrimRightFacts(t, s[..|s| - 1]);
    }
  }

  lemma TrimFacts(t: Texts, s: string)
    ensures Trimmed(t, Trim(t, s)) && forall c :: c in Trim(t, s) ==> c in s
  {
    var left := TrimLeft(t, s);
    TrimLeftFacts(t, s);
    TrimRightFacts(t, left);
    hide TrimLeft, TrimRight;
    forall c | c in Trim(t, s) ensures c in s {
      assert c in left;
    }
  }

  lemma TrimmedStays(t: Texts, s: string)
    requires Trimmed(t, s)
    ensures Trim(t, s) == s
  {
  }

  /** A valid body is valid as it stands. */
  lemma ValidTwice(t: Texts, value: string)
    requires Valid(t, value).Some?
    ensures Valid(t, Valid(t, value).value) == Valid(t, value)
  {
    var unified, body := WithoutCr(WithoutCrlf(value)), Valid(t, value).value;
    hide Trim, Trimmed, Forbidden, WithoutCr, WithoutCrlf, Unified;
    Replacements(value);
    NoCr(value);
    TrimFacts(t, unified);
    UnifiedSame(body);
    Replacements(body);
    TrimmedStays(t, body);
  }

  // ----- typed handles -----

  /** No two members have one handle, whatever its case. */
  ghost predicate Unique(names: Names, lower: string -> string) {
    forall m, n :: m in names && n in names && lower(names[m]) == lower(names[n]) ==> m == n
  }

  ghost predicate Indexes(index: map<string, P.ID>, names: Names, lower: string -> string) {
    && (forall m :: m in names ==> lower(names[m]) in index && index[lower(names[m])] == m)
    && (forall h :: h in index ==> index[h] in names && lower(names[index[h]]) == h)
  }

  /** The members by the lower case of their handles. */
  ghost function Index(names: Names, lower: string -> string): (index: map<string, P.ID>)
    requires Unique(names, lower)
    ensures Indexes(index, names, lower)
  {
    var handles := set m | m in names :: lower(names[m]);
    map h | h in handles :: var m :| m in names && lower(names[m]) == h; m
  }

  lemma OneIndex(a: map<string, P.ID>, b: map<string, P.ID>, names: Names, lower: string -> string)
    requires Indexes(a, names, lower) && Indexes(b, names, lower)
    ensures a == b
  {
  }

  /** byHandle: filled one member after the other. */
  method ByHandle(names: Names, lower: string -> string) returns (index: map<string, P.ID>)
    requires Unique(names, lower)
    ensures index == Index(names, lower)
  {
    index := map[];
    var rest := names.Keys;
    while rest != {}
      invariant rest <= names.Keys
      invariant forall m :: m in names && m !in rest ==> lower(names[m]) in index && index[lower(names[m])] == m
      invariant forall h :: h in index ==> index[h] in names && lower(names[index[h]]) == h
      decreases |rest|
    {
      var m :| m in rest;
      index := index[lower(names[m]) := m];
      rest := rest - {m};
    }
    OneIndex(index, Index(names, lower), names, lower);
  }

  function Lookup(index: map<string, P.ID>, lower: string -> string): string -> Option<P.ID> {
    (handle: string) => if lower(handle) in index then Some(index[lower(handle)]) else None
  }

  /** The body with each handle typed in it made a reference. */
  ghost function Converted(t: Texts, names: Names, body: string): string
    requires Unique(names, t.lower)
  {
    MentionBody.ConvertBody(t.cls, body, MentionBody.Directory(Lookup(Index(names, t.lower), t.lower), t.reserved))
  }

  /** Where handles are typed in a body, which no directory decides. */
  function Typed(t: Texts, body: string): seq<MentionRewrite.Place> {
    MentionRewrite.Places(t.cls, ChatBlocks.Lines(body), 0, NoOne(t))
  }

  function NoOne(t: Texts): MentionBody.Directory {
    MentionBody.Directory(Lookup(map[], t.lower), t.reserved)
  }

  /** A body without typed handles is converted to itself. */
  lemma NothingTyped(t: Texts, names: Names, body: string)
    requires Unique(names, t.lower) && Typed(t, body) == []
    ensures Converted(t, names, body) == body
  {
    var dir := MentionBody.Directory(Lookup(Index(names, t.lower), t.lower), t.reserved);
    hide ChatBlocks.Lines, MentionRewrite.Places, MentionBody.ConvertBody, Lookup, Unique;
    MentionRewrite.PlacesIgnoreLookup(t.cls, ChatBlocks.Lines(body), 0, NoOne(t), dir);
    MentionRewrite.OnePassIsLineByLine(t.cls, body, dir);
  }

  // ----- what a body shows of its references -----

  function Segments(t: Texts, body: string): seq<ChatText.Segment> {
    ChatText.Extracted(ChatBlocks.Parse(t.cls, body))
  }

  /** The members a body references. */
  function Mentioned(segments: seq<ChatText.Segment>): set<P.ID> {
    set k | 0 <= k < |segments| && segments[k].Named? :: segments[k].member
  }

  /** A reference shows the member's handle, or the placeholder for a member
      the directory does not have. */
  function Shown(names: Names, unknown: string, m: P.ID): string {
    if m in names then "@" + names[m] else unknown
  }

  function Written(names: Names, unknown: string, segments: seq<ChatText.Segment>): string {
    if segments == [] then ""
    else Written(names, unknown, segments[..|segments| - 1]) +
         match segments[|segments| - 1]
         case Said(text) => text
         case Named(m) => Shown(names, unknown, m)
  }

  /** Entry.Text: the body as plain text. */
  method EntryText(t: Texts, names: Names, unknown: string, body: string) returns (text: string)
    ensures text == Written(names, unknown, Segments(t, body))
  {
    var segments := Segments(t, body);
    text := "";
    for i := 0 to |segments|
      invariant text == Written(names, unknown, segments[..i])
    {
      assert segments[..i + 1][..i] == segments[..i];
      match segments[i]
      case Said(said) => text := text + said;
      case Named(m) => text := text + if m in names then "@" + names[m] else unknown;
    }
    assert segments[..|segments|] == segments;
  }

  /** Directories that show each reference alike give the same text. */
  lemma {:induction false} SameText(names: Names, unknown: string, names': Names, unknown': string, segments: seq<ChatText.Segment>)
    requires forall m :: m in Mentioned(segments) ==> Shown(names, unknown, m) == Shown(names', unknown', m)
    ensures Written(names, unknown, segments) == Written(names', unknown', segments)
  {
    if segments != [] {
      var before := segments[..|segments| - 1];
      forall m | m in Mentioned(before) ensures m in Mentioned(segments) {
        var k :| 0 <= k < |before| && before[k].Named? && before[k].member == m;
        assert segments[k] == before[k];
      }
      if segments[|segments| - 1].Named? {
        assert segments[|segments| - 1].member in Mentioned(segments);
      }
      hide Mentioned, Shown;
      SameText(names, unknown, names', unknown', before);
    }
  }

  predicate OccursAt(part: string, s: string, i: nat) {
    i + |part| <= |s| && s[i..i + |part|] == part
  }

  predicate Occurs(part: string, s: string) {
    exists i | 0 <= i <= |s| :: OccursAt(part, s, i)
  }

  /** quoteOf's text: the whole of what the body shows, or a part of it, under
      a body's rules. */
  function Excerpt(t: Texts, names: Names, unknown: string, part: Option<string>, body: string): Option<string> {
    var shown := Written(names, unknown, Segments(t, body));
    if part.None? then Valid(t, shown)
    else
      var chosen := Valid(t, part.value);
      if chosen.Some? && Occurs(chosen.value, shown) then chosen else None
  }
}
