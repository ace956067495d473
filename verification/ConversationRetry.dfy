/** Where the answer to a send repeated departs from its documentation, which
    promises the stored message even after a handle change: a message that
    quotes another resolves the quote's references anew, so after the handle
    changed the same request is refused. */
module ConversationRetry {
  import opened Common
  import opened ConversationStore
  import opened Conversation
  import ChatBlocks
  import ChatGrammar
  import ChatText
  import LineEnds
  import MentionReading
  import MentionRewrite
  import MentionScan
  import Mentions
  import P = Payload
  import T = ConversationText

  /** Nothing is odd about ASCII. */
  ghost predicate Ordinary(t: T.Texts) {
    t.cls.Valid() && forall c: char :: 33 <= c as int <= 126 ==> !t.control(c)
  }

  /** Neither spaces nor control characters. */
  predicate Visible(s: string) {
    forall k :: 0 <= k < |s| ==> 33 <= s[k] as int <= 126
  }

  lemma VisibleIsValid(t: T.Texts, s: string)
    requires Ordinary(t) && Visible(s) && 1 <= |s| <= T.MAX_BODY
    ensures T.Valid(t, s) == Some(s)
  {
    LineEnds.UnifiedSame(s);
    LineEnds.Replacements(s);
    assert T.Trimmed(t, s);
    T.TrimmedStays(t, s);
    hide T.Trim, LineEnds.WithoutCr, LineEnds.WithoutCrlf, LineEnds.Unified;
  }

  lemma ReferenceVisible(id: P.ID)
    ensures var s := MentionReading.ReferenceText(id);
            && Visible(s) && s[0] == '<' && s[38] == '>' && forall k :: 0 <= k < 39 && s[k] == '@' ==> k == 1
  {
    P.FormatIsCanonical(id);
  }

  lemma ReferenceLine(id: P.ID)
    ensures ChatBlocks.Lines(MentionReading.ReferenceText(id)) == [MentionReading.ReferenceText(id)]
  {
    ReferenceVisible(id);
    ChatText.OneLine(MentionReading.ReferenceText(id));
  }

  /** The body that is one reference reads as that reference. */
  lemma ReferenceSegments(t: T.Texts, id: P.ID)
    ensures T.Segments(t, MentionReading.ReferenceText(id)) == [ChatText.Named(id)]
  {
    hide MentionReading.ReferenceText, ChatBlocks.Lines, ChatGrammar.Inlines;
    var s := MentionReading.ReferenceText(id);
    ReferenceVisible(id);
    ReferenceLine(id);
    ReferenceInlines(t.cls, id);
    NoBlock(s);
    var line := [ChatGrammar.Reference(id)];
    assert ChatBlocks.BlocksFrom(t.cls, [s], 0, []) == ChatBlocks.BlocksFrom(t.cls, [s], 1, [ChatBlocks.TextBlock([line])]);
    assert ChatBlocks.Parse(t.cls, s) == [ChatBlocks.TextBlock([line])];
    ReferenceExtracted(id);
  }

  lemma ReferenceExtracted(id: P.ID)
    ensures ChatText.Extracted([ChatBlocks.TextBlock([[ChatGrammar.Reference(id)]])]) == [ChatText.Named(id)]
  {
    var line, x := [ChatGrammar.Reference(id)], ChatText.Extract([], "");
    var y := ChatText.Extract([ChatText.Named(id)], "");
    assert line[1..] == [];
    assert ChatText.FromInlines(line, x) == y;
    assert ChatText.FromLines([line], 0, x) == ChatText.FromLines([line], 1, y) == y;
    assert ChatText.FromBlocks([ChatBlocks.TextBlock([line])], 0, x) == y;
  }

  lemma NoBlock(s: string)
    requires s != "" && s[0] == '<'
    ensures ChatBlocks.FenceOpening(s).None? && !ChatBlocks.Quoted(s) && ChatBlocks.Content(s) == s && ChatBlocks.Marker(s) == 0
  {
    assert ChatBlocks.FENCE[0] == '`';
  }

  lemma ReferenceInlines(cls: ChatGrammar.Classes, id: P.ID)
    ensures ChatGrammar.Inlines(cls, MentionReading.ReferenceText(id)) == [ChatGrammar.Reference(id)]
  {
    var s := MentionReading.ReferenceText(id);
    Mentions.MemberHere(cls, s, 0, id);
    hide ChatGrammar.ConstructAt, ChatGrammar.NextAt, MentionReading.ReferenceText;
    var p := ChatGrammar.EMPTY.Add(ChatGrammar.Reference(id));
    assert ChatGrammar.Run(cls, s, 0, ChatGrammar.EMPTY) == ChatGrammar.Run(cls, s, 39, p) == p;
    var nodes := [ChatGrammar.Reference(id)];
    assert [] + nodes == nodes;
    assert p.stack == [ChatGrammar.Frame(None, nodes)];
    assert nodes[1..] == [];
    assert p.Flush() == p && ChatGrammar.Unwind(p.stack) == nodes;
    assert ChatGrammar.Merge(nodes) == nodes + [] == nodes;
  }

  lemma NoHandle(cls: ChatGrammar.Classes, id: P.ID, token: Mentions.Token, reserved: string -> bool)
    requires cls.Valid()
    ensures !Mentions.IsHandle(cls, MentionReading.ReferenceText(id), token, reserved)
  {
    ReferenceVisible(id);
    hide MentionReading.ReferenceText, Mentions.Mask, Mentions.ValidHandle;
  }

  /** It holds no typed handle: its '@' follows a '<'. */
  lemma ReferenceTyped(t: T.Texts, id: P.ID)
    requires t.cls.Valid()
    ensures T.Typed(t, MentionReading.ReferenceText(id)) == []
  {
    var s := MentionReading.ReferenceText(id);
    ReferenceVisible(id);
    ReferenceLine(id);
    NoBlock(s);
    MentionScan.TypedHandlesAreHandles(t.cls, s, t.reserved);
    var tokens := MentionScan.TypedHandles(t.cls, s, t.reserved);
    hide MentionReading.ReferenceText, ChatBlocks.Lines, MentionScan.TypedHandles, MentionRewrite.Places, Mentions.IsHandle;
    if tokens != [] {
      NoHandle(t.cls, id, tokens[0], t.reserved);
    }
    MentionRewrite.PlacesStep(t.cls, [s], 0, T.NoOne(t));
    MentionRewrite.NoPlacesLeft(t.cls, [s], T.NoOne(t));
  }

  // ----- the history -----

  const AUTHOR := 5
  const SENDER := 6
  const KEY := 9
  const FIRST := 1
  const SECOND := 2

  /** The first message references the member; the second, sent with a key,
      quotes the first. */
  function Original(id: P.ID): Request {
    Request(None, None, MentionReading.ReferenceText(id), None, None, None, None, "someone")
  }

  function Quoting(id: P.ID): Request {
    Request(None, None, MentionReading.ReferenceText(id), None, Some(KEY), Some(FIRST), None, "someone")
  }

  function Ops(id: P.ID): seq<Op> {
    var text, alice, bob := MentionReading.ReferenceText(id), map[id := "alice"], map[id := "bob"];
    [AddChannel(1, 1), SetHandle(id, "alice"),
     Insert(1, AUTHOR, Original(id), Draft(text, map[]), FIRST),
     Insert(1, SENDER, Quoting(id), Draft(text, alice), SECOND),
     SetHandle(id, "bob"),
     Op.Repeat(1, SENDER, Quoting(id), bob, Some(1))]
  }

  function Replies(): seq<Answer> {
    [Done(1, 0, false), Done(0, 0, false), Done(1, FIRST, false), Done(1, SECOND, false), Done(0, 0, false), Refused(PostKeyReused)]
  }

  function Opened(): Db {
    WithChannel(Empty(), 1, 1)
  }

  function AfterFirst(id: P.ID): Db {
    var text := MentionReading.ReferenceText(id);
    WithMessage(Opened(), FIRST, Message(1, 1, AUTHOR, text, 0, 0, None, 0, None, None), 0)
  }

  function AfterSecond(env: Env, id: P.ID): Db {
    var text := MentionReading.ReferenceText(id);
    WithMessage(AfterFirst(id), SECOND,
                Message(1, 1, SENDER, text, 0, 0, Some(KEY), env.prove(text), Some(Quote(FIRST, "@alice")), None), 1)
  }

  function Trace(env: Env, id: P.ID): seq<World> {
    var alice, bob := map[id := "alice"], map[id := "bob"];
    [NOTHING, World(Opened(), map[], 0), World(Opened(), alice, 0), World(AfterFirst(id), alice, 1),
     World(AfterSecond(env, id), alice, 2), World(AfterSecond(env, id), bob, 2), World(AfterSecond(env, id), bob, 2)]
  }

  /** What the reference reads as, as a draft and as a quote. */
  lemma TextDrafts(t: T.Texts, id: P.ID, names: T.Names)
    requires Ordinary(t) && T.Unique(names, t.lower)
    ensures var text := MentionReading.ReferenceText(id);
            && T.Valid(t, text) == Some(text) && T.Converted(t, names, text) == text
            && T.Mentioned(T.Segments(t, text)) == {id}
  {
    var text := MentionReading.ReferenceText(id);
    hide MentionReading.ReferenceText, T.Valid, T.Segments, T.Typed, T.Converted, T.Unique;
    ReferenceVisible(id);
    ReferenceTyped(t, id);
    ReferenceSegments(t, id);
    VisibleIsValid(t, text);
    T.NothingTyped(t, names, text);
    var segments := [ChatText.Named(id)];
    assert id in T.Mentioned(segments) by { assert segments[0].Named?; }
  }

  lemma TextShows(t: T.Texts, id: P.ID, handle: string, unknown: string)
    requires Ordinary(t) && Visible(handle) && |handle| < 100
    ensures T.Excerpt(t, map[id := handle], unknown, None, MentionReading.ReferenceText(id)) == Some("@" + handle)
  {
    hide MentionReading.ReferenceText, T.Valid, T.Segments, T.Occurs;
    ReferenceSegments(t, id);
    VisibleIsValid(t, "@" + handle);
    var segments := [ChatText.Named(id)];
    assert segments[..0] == [];
    assert T.Written(map[id := handle], unknown, segments) == "" + ("@" + handle) == "@" + handle;
  }

  lemma OneName(t: T.Texts, id: P.ID, handle: string)
    ensures T.Unique(map[id := handle], t.lower) && T.Unique(map[], t.lower)
  {
  }

  lemma FirstPosted(env: Env, id: P.ID)
    requires Ordinary(env.texts)
    ensures InsertOutcome(env, Opened(), 1, AUTHOR, Original(id), Draft(MentionReading.ReferenceText(id), map[]), FIRST)
         == Commits(AfterFirst(id), Done(1, FIRST, false))
  {
    hide MentionReading.ReferenceText, T.Excerpt;
    assert Previous(Opened().messages, 1, 1) == 0;
  }

  /** What the second message quotes of the first under a directory. */
  lemma QuotesHandle(env: Env, id: P.ID, handle: string)
    requires Ordinary(env.texts) && Visible(handle) && |handle| < 100
    ensures Quoted(env, map[id := handle], Quoting(id), MentionReading.ReferenceText(id)) == Some("@" + handle)
    ensures Typed(env, Quoting(id)) == MentionReading.ReferenceText(id)
  {
    hide MentionReading.ReferenceText, T.Excerpt, T.Valid;
    OneName(env.texts, id, handle);
    TextDrafts(env.texts, id, map[id := handle]);
    TextShows(env.texts, id, handle, "someone");
  }

  lemma SecondPosted(env: Env, id: P.ID)
    requires Ordinary(env.texts)
    ensures InsertOutcome(env, AfterFirst(id), 1, SENDER, Quoting(id), Draft(MentionReading.ReferenceText(id), map[id := "alice"]), SECOND)
         == Commits(AfterSecond(env, id), Done(1, SECOND, false))
  {
    hide MentionReading.ReferenceText, Quoted, Typed, Previous;
    QuotesHandle(env, id, "alice");
    assert "@alice" == "@" + "alice";
    PreviousIsFirst(AfterFirst(id).messages);
  }

  lemma PreviousIsFirst(messages: map<nat, Message>)
    requires FIRST in messages && messages[FIRST].channel == 1 && messages[FIRST].at == 1
    ensures Previous(messages, 1, 2) == 1
  {
  }

  lemma RetryRefused(env: Env, id: P.ID)
    requires Ordinary(env.texts)
    ensures RepeatOutcome(env, AfterSecond(env, id), 1, SENDER, Quoting(id), map[id := "bob"], Some(1)) == Keeps(Refused(PostKeyReused))
  {
    hide MentionReading.ReferenceText, Quoted, Typed;
    QuotesHandle(env, id, "bob");
    assert "@bob" == "@" + "bob" && "@alice"[1] != "@bob"[1];
  }

  lemma DraftedInTime(env: Env, w: World, id: P.ID, r: Request, quoted: T.Names)
    requires Ordinary(env.texts) && w.names == map[id := "alice"] && r.text == MentionReading.ReferenceText(id)
    requires r.quote.Some? ==> quoted == QuoteNames(w, 1, r.quote.value)
    ensures Drafts(env, w, w, w, 1, r, Draft(MentionReading.ReferenceText(id), quoted))
  {
    OneName(env.texts, id, "alice");
    TextDrafts(env.texts, id, w.names);
    hide MentionReading.ReferenceText, T.Valid, T.Converted, T.Segments, T.Mentioned;
  }

  lemma StepTaken(env: Env, id: P.ID, i: nat)
    requires Ordinary(env.texts) && i < 6
    ensures Enabled(Trace(env, id)[i].db, Ops(id)[i]) && Step(env, Trace(env, id)[i], Ops(id)[i], Replies()[i], Trace(env, id)[i + 1])
  {
    hide InsertOutcome, RepeatOutcome, MentionReading.ReferenceText, AfterFirst, AfterSecond;
    PostedFacts(env, id);
    if i == 2 {
      FirstPosted(env, id);
    } else if i == 3 {
      SecondPosted(env, id);
    } else if i == 5 {
      RetryRefused(env, id);
    }
  }

  lemma StepInTime(env: Env, id: P.ID, i: nat)
    requires Ordinary(env.texts) && i < 6
    ensures Timely(env, Trace(env, id), Ops(id)[i], i)
  {
    hide Drafts, MentionReading.ReferenceText, AfterFirst, AfterSecond, WithChannel;
    var trace := Trace(env, id);
    PostedFacts(env, id);
    if i == 2 {
      DraftedInTime(env, trace[2], id, Original(id), map[]);
    } else if i == 3 {
      DraftedInTime(env, trace[3], id, Quoting(id), map[id := "alice"]);
    } else if i == 5 {
      assert map[id := "bob"] == QuoteNames(trace[5], 1, FIRST);
    }
  }

  lemma PostedFacts(env: Env, id: P.ID)
    ensures AfterFirst(id).last == 1 && AfterSecond(env, id).last == 2 && FIRST !in Opened().messages
    ensures HasMessage(AfterFirst(id), 1, FIRST) && HasMessage(AfterSecond(env, id), 1, FIRST) && SECOND !in AfterFirst(id).messages
  {
    hide MentionReading.ReferenceText;
  }

  /** Between a send and its retry the member it quotes a mention of takes
      another handle: the retry, with key, text and quote unchanged, is refused
      as another message under a used key. */
  lemma HandleChangeRefusesTheRetry(env: Env, id: P.ID)
    requires Ordinary(env.texts)
    ensures IsRun(env, Trace(env, id), Ops(id), Replies())
    ensures Ops(id)[3].Insert? && Replies()[3].Done? && Ops(id)[4] == SetHandle(id, "bob")
    ensures Ops(id)[5].Repeat? && Ops(id)[5].request == Ops(id)[3].request && Replies()[5] == Refused(PostKeyReused)
  {
    hide Enabled, Step, Timely, MentionReading.ReferenceText, WithChannel, AfterFirst, AfterSecond;
    forall i: nat | i < 6 ensures StepAt(env, Trace(env, id), Ops(id), Replies(), i) {
      StepTaken(env, id, i);
      StepInTime(env, id, i);
    }
  }
}
