module ConversationHistory {
  /** What histories of conversation transactions never lose: messages stay as
      they were posted, only branching moves them, a key stores one message, and
      sending again returns it wherever it has been moved. */

  import opened Common
  import opened ConversationStore
  import opened Conversation
  import ChatText
  import ChatGrammar
  import ChatBlocks
  import T = ConversationText

  // ----- nothing is lost -----

  /** All but the topic and the move stay as posted. */
  predicate SamePost(a: Message, b: Message) {
    && a.channel == b.channel && a.member == b.member && a.body == b.body && a.at == b.at
    && a.key == b.key && a.proof == b.proof && a.quote == b.quote && a.reply == b.reply
  }

  ghost predicate Grown(s: Db, u: Db) {
    && (forall c :: c in s.channels ==> c in u.channels && u.channels[c] == s.channels[c])
    && (forall t :: t in s.topics ==> t in u.topics && u.topics[t].channel == s.topics[t].channel && u.topics[t].isDefault == s.topics[t].isDefault)
    && (forall id :: id in s.messages ==> id in u.messages && SamePost(s.messages[id], u.messages[id]))
    && s.log <= u.log
  }

  lemma GrownTwice(s: Db, u: Db, v: Db)
    requires Grown(s, u) && Grown(u, v)
    ensures Grown(s, v)
  {
  }

  lemma GrownMove(s: Db, channel: nat, from: nat, to: nat, ids: seq<nat>)
    ensures Grown(s, WithMove(s, channel, from, to, ids))
  {
  }

  lemma GrownMessage(s: Db, id: nat, m: Message, previous: nat)
    requires id !in s.messages
    ensures Grown(s, WithMessage(s, id, m, previous))
  {
  }

  lemma GrownConclusion(s: Db, channel: nat, t: nat, message: nat)
    requires t in s.topics
    ensures Grown(s, WithConclusion(s, channel, t, message))
  {
  }

  lemma GrownPrepared(env: Env, s: Db, channel: nat, b: Branch, newTopic: nat)
    requires newTopic !in s.topics
    ensures Grown(s, Prepared(env, s, channel, b, newTopic)) && Prepared(env, s, channel, b, newTopic).messages == s.messages
  {
  }

  lemma GrownBranch(env: Env, s: Db, channel: nat, member: nat, b: Branch, newTopic: nat, notice: nat)
    requires newTopic !in s.topics && notice !in s.messages
    ensures Grown(s, Branched(env, s, channel, member, b, newTopic, notice))
  {
    hide Grown, WithMove, WithMessage, WithConclusion, Prepared, Notice, Previous;
    var to := Destination(b, newTopic);
    var prepared := Prepared(env, s, channel, b, newTopic);
    GrownPrepared(env, s, channel, b, newTopic);
    GrownMove(prepared, channel, b.from, to, b.messages);
    var moved := WithMove(prepared, channel, b.from, to, b.messages);
    MoveShape(prepared, channel, b.from, to, b.messages);
    var m := Notice(env, channel, b.from, member, if to in prepared.topics then prepared.topics[to].name else "");
    var previous := Previous(moved.messages, channel, moved.last + 1);
    GrownMessage(moved, notice, m, previous);
    var posted := WithMessage(moved, notice, m, previous);
    GrownTwice(s, prepared, moved);
    GrownTwice(s, moved, posted);
    if TakesConclusion(s, b) && b.from in posted.topics {
      GrownConclusion(posted, channel, b.from, 0);
      GrownTwice(s, posted, WithConclusion(posted, channel, b.from, 0));
    }
  }

  lemma GrownStep(env: Env, w: World, op: Op, answer: Answer, v: World)
    requires Enabled(w.db, op) && Step(env, w, op, answer, v)
    ensures Grown(w.db, v.db)
  {
    hide OutcomeOf, HandleTakenBy;
    if !op.SetHandle? && OutcomeOf(env, w.db, op).Commits? {
      GrownOutcome(env, w.db, op);
    }
  }

  lemma GrownOutcome(env: Env, s: Db, op: Op)
    requires Enabled(s, op) && OutcomeOf(env, s, op).Commits?
    ensures Grown(s, OutcomeOf(env, s, op).db)
  {
    hide BranchRefusal, PinRefusal, ResolveRefusal, PlaceRefusal, QuoteRefusal, Previous, Branched, Composed, SameSend, WithMessage,
         WithConclusion, Requested, Grown;
    match op
    case AddChannel(channel, t) => GrownChannel(s, channel, t);
    case BranchOff(channel, member, b, newTopic, notice) => GrownBranch(env, s, channel, member, b, newTopic, notice);
    case Resolve(channel, member, t, message) =>
      assert t in s.topics by { ResolvedTopic(s, channel, member, t, message); }
      GrownConclusion(s, channel, t, if message.Some? then message.value else 0);
    case SetPin(channel, member, id, pin) =>
      GrownPins(s, channel, id, if pin then s.pins[id := member] else s.pins - {id});
    case Insert(channel, member, r, draft, id) =>
      assert PlaceRefusal(s, channel, r).None?;
      PlaceFacts(s, channel, r);
      var m := Composed(env, s, channel, member, r, draft, Requested(s, channel, r));
      GrownMessage(s, id, m, Previous(s.messages, channel, s.last + 1));
    case _ =>
  }

  lemma ResolvedTopic(s: Db, channel: nat, member: nat, t: nat, message: Option<nat>)
    requires ResolveRefusal(s, channel, member, t, message).None?
    ensures t in s.topics
  {
  }

  lemma PlaceFacts(s: Db, channel: nat, r: Request)
    requires PlaceRefusal(s, channel, r).None?
    ensures channel in s.channels && (r.reply.Some? ==> r.reply.value in s.messages)
  {
  }

  lemma GrownChannel(s: Db, channel: nat, t: nat)
    requires channel !in s.channels && t !in s.topics
    ensures Grown(s, WithChannel(s, channel, t))
  {
  }

  lemma GrownPins(s: Db, channel: nat, id: nat, pins: map<nat, nat>)
    ensures Grown(s, WithPins(s, channel, id, pins))
  {
  }

  /** Nothing is ever lost: channels and topics stay, a message stays as posted,
      and the log only grows. */
  lemma NothingIsLost(env: Env, trace: seq<World>, ops: seq<Op>, answers: seq<Answer>, m: nat, n: nat)
    requires IsRun(env, trace, ops, answers) && m <= n < |trace|
    ensures Grown(trace[m].db, trace[n].db)
  {
    hide Step, Enabled, Timely, Empty, Grown;
    GrownSame(trace[m].db);
    var i := m;
    while i < n
      invariant m <= i <= n && Grown(trace[m].db, trace[i].db)
    {
      assert StepAt(env, trace, ops, answers, i);
      GrownStep(env, trace[i], ops[i], answers[i], trace[i + 1]);
      GrownTwice(trace[m].db, trace[i].db, trace[i + 1].db);
      i := i + 1;
    }
  }

  lemma GrownSame(s: Db)
    ensures Grown(s, s)
  {
  }

  // ----- branching moves exactly the selection -----

  /** The selection is in the destination, the rest where it was, and the source
      has one new message. */
  ghost predicate SelectionMoved(s: Db, u: Db, b: Branch, to: nat, notice: nat) {
    && u.messages.Keys == s.messages.Keys + {notice} && notice !in s.messages && u.messages[notice].topic == b.from
    && (forall id :: id in s.messages ==> u.messages[id].topic == if id in b.messages then to else s.messages[id].topic)
    && (forall id :: id in s.messages ==> u.messages[id].moved == if id in b.messages then s.last + 1 else s.messages[id].moved)
  }

  /** The source is open if its conclusion was selected; no other topic's
      conclusion changes. */
  ghost predicate OnlySourceOpened(s: Db, u: Db, b: Branch) {
    && (forall t :: t in s.topics ==> t in u.topics)
    && (forall t :: t in s.topics ==>
                      u.topics[t].conclusion == if t == b.from && s.topics[t].conclusion in b.messages then 0 else s.topics[t].conclusion)
  }

  lemma BranchShape(env: Env, s: Db, channel: nat, member: nat, b: Branch, newTopic: nat, notice: nat)
    requires b.from in Prepared(env, s, channel, b, newTopic).topics && Prepared(env, s, channel, b, newTopic).messages == s.messages
    ensures var u, prepared := Branched(env, s, channel, member, b, newTopic, notice), Prepared(env, s, channel, b, newTopic);
            && notice in u.messages && u.messages[notice].topic == b.from
            && (exists name :: u.messages[notice].body == Notice(env, channel, b.from, member, name).body)
            && u.messages == MovedMessages(s.messages, b.messages, Destination(b, newTopic), prepared.last + 1)[notice := u.messages[notice]]
            && u.topics == (if TakesConclusion(s, b) then prepared.topics[b.from := prepared.topics[b.from].(conclusion := 0)] else prepared.topics)
            && u.last == prepared.last + (if TakesConclusion(s, b) then 3 else 2) && u.pins == prepared.pins
  {
    hide Previous, Notice, MovedMessages, Prepared;
    var to, prepared := Destination(b, newTopic), Prepared(env, s, channel, b, newTopic);
    NoticeShape(env, channel, b.from, member, if to in prepared.topics then prepared.topics[to].name else "");
  }

  /** A committed branch moves exactly the selection and adds only the notice;
      it consumes a third sequence exactly if it takes the source's conclusion. */
  lemma BranchMovesTheSelection(env: Env, s: Db, channel: nat, member: nat, b: Branch, newTopic: nat, notice: nat)
    requires Inv(s, env.lower) && Enabled(s, BranchOff(channel, member, b, newTopic, notice)) && BranchRefusal(env, s, channel, b).None?
    ensures var u := Branched(env, s, channel, member, b, newTopic, notice);
            && SelectionMoved(s, u, b, Destination(b, newTopic), notice) && OnlySourceOpened(s, u, b)
            && u.pins == s.pins && u.last == s.last + if TakesConclusion(s, b) then 3 else 2
  {
    hide Inv, Branched, BranchRefusal, CanMove, SelectionMoved, OnlySourceOpened, Prepared, Destination, TakesConclusion;
    PreparedKept(env, s, channel, b, newTopic);
    NoZero(s, env.lower);
    PreparedShape(env, s, channel, b, newTopic);
    SelectionExists(env, s, channel, b);
    var to, u := Destination(b, newTopic), Branched(env, s, channel, member, b, newTopic, notice);
    BranchShape(env, s, channel, member, b, newTopic, notice);
    SelectionOf(s, u, b, to, notice);
    OpenedOf(s, Prepared(env, s, channel, b, newTopic).topics, u, b);
  }

  lemma PreparedShape(env: Env, s: Db, channel: nat, b: Branch, newTopic: nat)
    requires newTopic !in s.topics
    ensures var prepared := Prepared(env, s, channel, b, newTopic);
            && prepared.last == s.last && prepared.pins == s.pins && prepared.messages == s.messages
            && (forall t :: t in s.topics ==> t in prepared.topics && prepared.topics[t] == s.topics[t])
  {
  }

  lemma SelectionOf(s: Db, u: Db, b: Branch, to: nat, notice: nat)
    requires notice !in s.messages && notice in u.messages && u.messages[notice].topic == b.from
    requires u.messages == MovedMessages(s.messages, b.messages, to, s.last + 1)[notice := u.messages[notice]]
    ensures SelectionMoved(s, u, b, to, notice)
  {
  }

  lemma OpenedOf(s: Db, topics: map<nat, Topic>, u: Db, b: Branch)
    requires b.from in s.topics && 0 !in b.messages && forall t :: t in s.topics ==> t in topics && topics[t] == s.topics[t]
    requires u.topics == if TakesConclusion(s, b) then topics[b.from := topics[b.from].(conclusion := 0)] else topics
    ensures OnlySourceOpened(s, u, b)
  {
  }

  lemma SelectionExists(env: Env, s: Db, channel: nat, b: Branch)
    requires BranchRefusal(env, s, channel, b).None?
    ensures b.from in s.topics && forall id :: id in b.messages ==> id in s.messages
  {
    hide NameTaken;
    forall id | id in b.messages ensures id in s.messages {
      assert InTopic(s, channel, b.from, id);
    }
  }

  lemma NoZero(s: Db, lower: string -> string)
    requires Inv(s, lower)
    ensures 0 !in s.messages
  {
    hide LogInv, EventsInv, ConclusionsInv, DefaultsInv, NamesInv, PinsInv, KeysInv, ReadsInv, TopicAfter, LastMove;
    assert forall id :: id in s.messages ==> MessageOk(id, s.messages[id], s.topics, s.log);
  }

  /** The notice shows its wording as typed, whatever the destination's name. */
  lemma NoticeIsText(env: Env, cls: ChatGrammar.Classes, channel: nat, from: nat, member: nat, name: string)
    requires env.notice(name) != ""
    ensures ChatText.Extracted(ChatBlocks.Parse(cls, Notice(env, channel, from, member, name).body)) == [ChatText.Said(env.notice(name))]
  {
    hide *;
    assert Notice(env, channel, from, member, name).body == ChatText.Escape(env.notice(name)) by { NoticeBody(env, channel, from, member, name); }
    ChatText.EscapeRoundTrip(cls, env.notice(name));
  }

  lemma NoticeBody(env: Env, channel: nat, from: nat, member: nat, name: string)
    ensures Notice(env, channel, from, member, name).body == ChatText.Escape(env.notice(name))
  {
    hide ChatText.Escape;
  }

  // ----- a key stores one message -----

  lemma KeyOf(s: Db, u: Db, lower: string -> string, id: nat)
    requires Inv(s, lower) && Inv(u, lower) && Grown(s, u) && id in s.messages && s.messages[id].key.Some?
    ensures var k := (s.messages[id].member, s.messages[id].key.value); k in u.keys && u.keys[k] == id
  {
    hide LogInv, MessagesInv, EventsInv, ConclusionsInv, DefaultsInv, NamesInv, PinsInv, ReadsInv;
  }

  lemma QuoteKept(env: Env, names: T.Names, s: Db, u: Db, channel: nat, r: Request)
    requires Grown(s, u) && (r.quote.Some? ==> HasMessage(s, channel, r.quote.value))
    ensures QuoteRefusal(env, names, u, channel, r) == QuoteRefusal(env, names, s, channel, r)
    ensures QuoteOf(env, names, u, r) == QuoteOf(env, names, s, r)
  {
  }

  lemma PlaceKept(s: Db, u: Db, channel: nat, r: Request)
    requires Grown(s, u) && PlaceRefusal(s, channel, r).None?
    ensures PlaceRefusal(u, channel, r).None?
  {
  }

  lemma InsertedShape(env: Env, s: Db, channel: nat, member: nat, r: Request, draft: Draft, id: nat)
    requires InsertOutcome(env, s, channel, member, r, draft, id).Commits? && id !in s.messages
    ensures PlaceRefusal(s, channel, r).None? && QuoteRefusal(env, draft.quoted, s, channel, r).None?
    ensures var u := InsertOutcome(env, s, channel, member, r, draft, id).db;
            && id in u.messages && Grown(s, u) && u.messages[id].member == member && u.messages[id].key == r.key
            && u.messages[id].channel == channel && u.messages[id].reply == r.reply && u.messages[id].quote == QuoteOf(env, draft.quoted, s, r)
            && u.messages[id].body == draft.body && (r.key.Some? ==> u.messages[id].proof == env.prove(Typed(env, r)))
            && u.messages.Keys == s.messages.Keys + {id} && forall x :: x in s.messages && x != id ==> u.messages[x] == s.messages[x]
  {
    hide Previous, QuoteRefusal, QuoteOf, Grown, Requested, PlaceRefusal, WithMessage, Typed;
    PlaceFacts(s, channel, r);
    var m := Composed(env, s, channel, member, r, draft, Requested(s, channel, r));
    var previous := Previous(s.messages, channel, s.last + 1);
    GrownMessage(s, id, m, previous);
    PostShape(s, id, m, previous);
  }

  /** What the text of the quote is to the repeat: the one stored, another, or none. */
  ghost function QuotedAgain(env: Env, s: Db, r: Request, draft: Draft, again: Request, names: T.Names): (answers: Option<Error>)
    requires r.quote.Some? ==> r.quote.value in s.messages
  {
    if r.quote.None? then None
    else
      var body := s.messages[r.quote.value].body;
      if Quoted(env, names, again, body).None? then Some(InvalidBody)
      else if Quoted(env, names, again, body) == Quoted(env, draft.quoted, r, body) then None
      else Some(PostKeyReused)
  }

  /** The same request again, perhaps from another locale. */
  predicate SameRequest(r: Request, again: Request) {
    again == r.(unknown := again.unknown)
  }

  /** The answer of a repeat: the stored message, or why not. */
  ghost predicate Answers(again: Outcome, id: nat, requested: Option<nat>, refusal: Option<Error>) {
    && again.Keeps?
    && (if refusal.Some? then again.answer == Refused(refusal.value)
        else again.answer.Done? && again.answer.message == id && again.answer.repeat
             && (requested.Some? ==> again.answer.topic == requested.value))
  }

  /** Sending again with the key a committed send used never writes. Whatever
      was done since and wherever branching moved it, the answer is the message
      that send stored, exactly when the text it quotes, if it quotes one, reads
      as it did: with the directory and the placeholder of now. With another
      text the answer is that the key is reused; with none, an invalid body. */
  lemma SendingAgain(env: Env, trace: seq<World>, ops: seq<Op>, answers: seq<Answer>, i: nat, n: nat,
                     channel: nat, member: nat, r: Request, draft: Draft, id: nat)
    requires IsRun(env, trace, ops, answers) && i < n < |trace| && ops[i] == Insert(channel, member, r, draft, id) && r.key.Some?
    requires var outcome := InsertOutcome(env, trace[i].db, channel, member, r, draft, id);
             outcome.Commits? && trace[i + 1].db == outcome.db
    ensures r.quote.Some? ==> r.quote.value in trace[i].db.messages
    ensures forall again: Request, names: T.Names, requested: Option<nat> :: SameRequest(r, again) ==>
              Answers(RepeatOutcome(env, trace[n].db, channel, member, again, names, requested), id, requested,
                      QuotedAgain(env, trace[i].db, r, draft, again, names))
    ensures forall c, other: Request, d, x :: other.key == r.key ==> InsertOutcome(env, trace[n].db, c, member, other, d, x).Keeps?
  {
    hide Inv, SentBefore, InsertOutcome, RepeatOutcome, QuotedAgain, Answers, StepAt;
    var s, u := trace[i].db, trace[n].db;
    RunInv(env, trace, ops, answers, n);
    CommittedSends(env, trace, ops, answers, i, n, channel, member, r, draft, id);
    SentBeforeFinds(env, s, channel, member, r, draft, id, trace[n], r, map[], None);
    forall again: Request, names: T.Names, requested: Option<nat> | SameRequest(r, again)
      ensures Answers(RepeatOutcome(env, u, channel, member, again, names, requested), id, requested, QuotedAgain(env, s, r, draft, again, names))
    {
      SentBeforeFinds(env, s, channel, member, r, draft, id, trace[n], again, names, requested);
    }
    forall c, other: Request, d, x | other.key == r.key ensures InsertOutcome(env, u, c, member, other, d, x).Keeps? {
      KeyRefuses(env, u, c, member, other, d, x);
    }
  }

  lemma StoredPost(s: Db, u: Db, id: nat)
    requires Grown(s, u) && id in s.messages
    ensures id in u.messages && SamePost(s.messages[id], u.messages[id])
  {
  }

  /** In any later database the repeat finds what an earlier send stored. */
  lemma RepeatFinds(env: Env, s: Db, u: Db, channel: nat, member: nat, r: Request, draft: Draft,
                    again: Request, names: T.Names, id: nat, requested: Option<nat>)
    requires Grown(s, u) && PlaceRefusal(s, channel, r).None? && QuoteRefusal(env, draft.quoted, s, channel, r).None? && r.key.Some?
    requires SameRequest(r, again)
    requires (member, r.key.value) in u.keys && u.keys[(member, r.key.value)] == id && id in u.messages
    requires var m := u.messages[id];
             && m.channel == channel && m.reply == r.reply && m.quote == QuoteOf(env, draft.quoted, s, r)
             && m.proof == env.prove(Typed(env, r))
    ensures r.quote.Some? ==> r.quote.value in s.messages
    ensures Answers(RepeatOutcome(env, u, channel, member, again, names, requested), id, requested, QuotedAgain(env, s, r, draft, again, names))
  {
    hide Grown, PlaceRefusal, Quoted;
    QuoteShape(env, draft.quoted, s, channel, r);
    QuoteKept(env, names, s, u, channel, again);
    SamePlace(s, channel, r, again);
    PlaceKept(s, u, channel, again);
    assert Typed(env, again) == Typed(env, r);
  }

  lemma SamePlace(s: Db, channel: nat, r: Request, again: Request)
    requires SameRequest(r, again)
    ensures PlaceRefusal(s, channel, r) == PlaceRefusal(s, channel, again)
  {
  }

  lemma QuoteShape(env: Env, names: T.Names, s: Db, channel: nat, r: Request)
    requires QuoteRefusal(env, names, s, channel, r).None?
    ensures QuoteOf(env, names, s, r).Some? == r.quote.Some?
    ensures r.quote.Some? ==> HasMessage(s, channel, r.quote.value) && QuoteOf(env, names, s, r).value.message == r.quote.value
  {
  }

  lemma KeyRefuses(env: Env, s: Db, channel: nat, member: nat, r: Request, draft: Draft, id: nat)
    requires r.key.Some? && (member, r.key.value) in s.keys
    ensures InsertOutcome(env, s, channel, member, r, draft, id).Keeps?
  {
    hide PlaceRefusal, QuoteRefusal;
    if PlaceRefusal(s, channel, r).None? {
      PlaceFacts(s, channel, r);
    }
  }

  /** An earlier send of the request was committed into `s`, as message `id`. */
  ghost predicate SentBefore(env: Env, s: Db, channel: nat, member: nat, r: Request, draft: Draft, id: nat, now: World) {
    var outcome := InsertOutcome(env, s, channel, member, r, draft, id);
    && r.key.Some? && outcome.Commits? && id !in s.messages
    && Inv(outcome.db, env.lower) && Grown(outcome.db, now.db)
    && T.Valid(env.texts, r.text).Some? && T.Mentioned(T.Segments(env.texts, draft.body)) <= now.names.Keys
    && exists names: T.Names :: T.Unique(names, env.texts.lower)
         && T.Valid(env.texts, T.Converted(env.texts, names, Typed(env, r))) == Some(draft.body)
  }

  /** In a history every committed send is one. */
  lemma CommittedSends(env: Env, trace: seq<World>, ops: seq<Op>, answers: seq<Answer>, i: nat, n: nat,
                       channel: nat, member: nat, r: Request, draft: Draft, id: nat)
    requires IsRun(env, trace, ops, answers) && i < n < |trace| && ops[i] == Insert(channel, member, r, draft, id) && r.key.Some?
    requires var outcome := InsertOutcome(env, trace[i].db, channel, member, r, draft, id);
             outcome.Commits? && trace[i + 1].db == outcome.db
    ensures SentBefore(env, trace[i].db, channel, member, r, draft, id, trace[n])
  {
    hide Inv, Step, Grown, InsertOutcome, T.Valid, T.Converted, T.Segments, T.Mentioned, T.Unique;
    assert StepAt(env, trace, ops, answers, i);
    var a, b, c :| 0 <= a <= b <= c <= i < |trace| && Drafts(env, trace[a], trace[b], trace[c], channel, r, draft);
    RunInv(env, trace, ops, answers, i + 1);
    NothingIsLost(env, trace, ops, answers, i + 1, n);
    DirectoryKeeps(env, trace, ops, answers, b, n);
    assert T.Valid(env.texts, T.Converted(env.texts, trace[a].names, Typed(env, r))) == Some(draft.body);
  }

  /** What an earlier send left: its key, and a repeat that finds it. */
  lemma SentBeforeFinds(env: Env, s: Db, channel: nat, member: nat, r: Request, draft: Draft, id: nat, now: World,
                        again: Request, names: T.Names, requested: Option<nat>)
    requires SentBefore(env, s, channel, member, r, draft, id, now) && Inv(now.db, env.lower) && SameRequest(r, again)
    ensures r.quote.Some? ==> r.quote.value in s.messages
    ensures (member, r.key.value) in now.db.keys
    ensures Answers(RepeatOutcome(env, now.db, channel, member, again, names, requested), id, requested,
                    QuotedAgain(env, s, r, draft, again, names))
  {
    hide Inv, Grown, InsertOutcome, RepeatOutcome, QuotedAgain, Answers, QuoteRefusal, QuoteOf, PlaceRefusal, Typed;
    InsertedShape(env, s, channel, member, r, draft, id);
    var u := InsertOutcome(env, s, channel, member, r, draft, id).db;
    KeyOf(u, now.db, env.lower, id);
    GrownTwice(s, u, now.db);
    StoredPost(u, now.db, id);
    RepeatFinds(env, s, now.db, channel, member, r, draft, again, names, id, requested);
  }

  /** When a repeat answers with the stored message, in what a sender can see:
      quoting a whole message, if each reference in it shows what it showed;
      quoting a part, exactly if the part still occurs in what the message
      shows; quoting none, always. */
  lemma QuotesThatStay(env: Env, s: Db, channel: nat, r: Request, draft: Draft, again: Request, names: T.Names)
    requires QuoteRefusal(env, draft.quoted, s, channel, r).None? && SameRequest(r, again)
    ensures r.quote.Some? ==> r.quote.value in s.messages
    ensures r.quote.None? ==> QuotedAgain(env, s, r, draft, again, names).None?
    ensures r.quote.Some? ==>
              var segments := T.Segments(env.texts, s.messages[r.quote.value].body);
              && ((forall m :: m in T.Mentioned(segments) ==> T.Shown(names, again.unknown, m) == T.Shown(draft.quoted, r.unknown, m)) ==>
                    QuotedAgain(env, s, r, draft, again, names).None?)
              && (r.part.Some? ==>
                    && T.Valid(env.texts, r.part.value).Some?
                    && (QuotedAgain(env, s, r, draft, again, names).None? <==>
                          T.Occurs(T.Valid(env.texts, r.part.value).value, T.Written(names, again.unknown, segments))))
  {
    hide T.Valid, T.Segments, T.Mentioned, T.Shown, T.Written, T.Occurs;
    QuoteShape(env, draft.quoted, s, channel, r);
    if r.quote.Some? {
      var segments := T.Segments(env.texts, s.messages[r.quote.value].body);
      if forall m :: m in T.Mentioned(segments) ==> T.Shown(names, again.unknown, m) == T.Shown(draft.quoted, r.unknown, m) {
        T.SameText(names, again.unknown, draft.quoted, r.unknown, segments);
      }
    }
  }

  // ----- references name members -----

  ghost predicate Named(env: Env, body: string, names: T.Names) {
    T.Mentioned(T.Segments(env.texts, body)) <= names.Keys
  }

  ghost predicate AllNamed(env: Env, messages: map<nat, Message>, names: T.Names) {
    forall id :: id in messages ==> Named(env, messages[id].body, names)
  }

  /** An escaped text references nobody. */
  lemma NobodyNamed(env: Env, text: string, names: T.Names)
    ensures Named(env, ChatText.Escape(text), names)
  {
    hide ChatText.Extracted, ChatBlocks.Parse, ChatText.Escape;
    ChatText.EscapeRoundTrip(env.texts.cls, text);
  }

  lemma BranchNames(env: Env, s: Db, channel: nat, member: nat, b: Branch, newTopic: nat, notice: nat, names: T.Names)
    requires AllNamed(env, s.messages, names) && newTopic !in s.topics && notice !in s.messages
    requires BranchRefusal(env, s, channel, b).None?
    ensures AllNamed(env, Branched(env, s, channel, member, b, newTopic, notice).messages, names)
  {
    hide Branched, BranchRefusal, Named, Prepared, Notice, MovedMessages, TakesConclusion;
    PreparedShape(env, s, channel, b, newTopic);
    SelectionExists(env, s, channel, b);
    BranchShape(env, s, channel, member, b, newTopic, notice);
    var u := Branched(env, s, channel, member, b, newTopic, notice);
    var name :| u.messages[notice].body == Notice(env, channel, b.from, member, name).body;
    NoticeBody(env, channel, b.from, member, name);
    NobodyNamed(env, env.notice(name), names);
    MovedBodies(s.messages, b.messages, Destination(b, newTopic), Prepared(env, s, channel, b, newTopic).last + 1);
  }

  lemma MovedBodies(messages: map<nat, Message>, ids: seq<nat>, to: nat, at: nat)
    ensures var moved := MovedMessages(messages, ids, to, at);
            moved.Keys == messages.Keys && forall id :: id in messages ==> moved[id].body == messages[id].body
  {
  }

  lemma OutcomeNames(env: Env, s: Db, op: Op, names: T.Names)
    requires AllNamed(env, s.messages, names) && Enabled(s, op) && OutcomeOf(env, s, op).Commits?
    requires op.Insert? ==> Named(env, op.draft.body, names)
    ensures AllNamed(env, OutcomeOf(env, s, op).db.messages, names)
  {
    hide Named, BranchRefusal, PinRefusal, ResolveRefusal, PlaceRefusal, QuoteRefusal, Previous, Branched, InsertOutcome, SameSend, Requested;
    match op
    case BranchOff(channel, member, b, newTopic, notice) => BranchNames(env, s, channel, member, b, newTopic, notice, names);
    case Insert(channel, member, r, draft, id) => InsertedShape(env, s, channel, member, r, draft, id);
    case Resolve(channel, member, t, message) => ResolvedTopic(s, channel, member, t, message);
    case _ =>
  }

  lemma StepNames(env: Env, w: World, op: Op, answer: Answer, v: World)
    requires AllNamed(env, w.db.messages, w.names) && Enabled(w.db, op) && Step(env, w, op, answer, v)
    requires op.Insert? ==> Named(env, op.draft.body, w.names)
    ensures AllNamed(env, v.db.messages, v.names)
  {
    hide Named, OutcomeOf, HandleTakenBy, Enabled;
    if op.SetHandle? {
      MoreNames(env, w.db.messages, w.names, v.names);
    } else if OutcomeOf(env, w.db, op).Commits? {
      OutcomeNames(env, w.db, op, w.names);
    }
  }

  lemma MoreNames(env: Env, messages: map<nat, Message>, names: T.Names, more: T.Names)
    requires AllNamed(env, messages, names) && names.Keys <= more.Keys
    ensures AllNamed(env, messages, more)
  {
    forall id | id in messages ensures Named(env, messages[id].body, more) {
      assert Named(env, messages[id].body, names);
    }
  }

  /** What a send drafted from earlier reads of the directory still holds. */
  lemma DraftNamed(env: Env, trace: seq<World>, ops: seq<Op>, answers: seq<Answer>, i: nat)
    requires IsRun(env, trace, ops, answers) && i < |ops| && ops[i].Insert?
    ensures Named(env, ops[i].draft.body, trace[i].names)
  {
    hide Step, Enabled, T.Valid, T.Converted, T.Segments, T.Mentioned, T.Unique;
    assert StepAt(env, trace, ops, answers, i);
    var op := ops[i];
    var a, b, c :| 0 <= a <= b <= c <= i < |trace| && Drafts(env, trace[a], trace[b], trace[c], op.channel, op.request, op.draft);
    DirectoryKeeps(env, trace, ops, answers, b, i);
  }

  /** Every reference in a stored message names a member of the organisation,
      in whatever way its sender wrote it and whatever handle they have now. */
  lemma ReferencesNameMembers(env: Env, trace: seq<World>, ops: seq<Op>, answers: seq<Answer>, n: nat, id: nat)
    requires IsRun(env, trace, ops, answers) && n < |trace| && id in trace[n].db.messages
    ensures T.Mentioned(T.Segments(env.texts, trace[n].db.messages[id].body)) <= trace[n].names.Keys
  {
    hide Step, Enabled, Timely, Empty, Named;
    assert AllNamed(env, trace[0].db.messages, trace[0].names) by { NothingNamed(env); }
    var i := 0;
    while i < n
      invariant i <= n && AllNamed(env, trace[i].db.messages, trace[i].names)
    {
      assert StepAt(env, trace, ops, answers, i);
      if ops[i].Insert? {
        DraftNamed(env, trace, ops, answers, i);
      }
      StepNames(env, trace[i], ops[i], answers[i], trace[i + 1]);
      i := i + 1;
    }
    NamedIs(env, trace[n].db.messages[id].body, trace[n].names);
  }

  lemma NothingNamed(env: Env)
    ensures AllNamed(env, NOTHING.db.messages, NOTHING.names)
  {
    hide Named;
  }

  lemma NamedIs(env: Env, body: string, names: T.Names)
    requires Named(env, body, names)
    ensures T.Mentioned(T.Segments(env.texts, body)) <= names.Keys
  {
  }

  /** Each range an author is marked to have read holds the message they posted
      and no other one of its channel, also none posted later. */
  lemma ReadRangesAreTight(env: Env, trace: seq<World>, ops: seq<Op>, answers: seq<Answer>, n: nat, i: nat, id: nat)
    requires IsRun(env, trace, ops, answers) && n < |trace| && i < |trace[n].db.ranges| && id in trace[n].db.messages
    ensures var s := trace[n].db;
            var r := s.ranges[i];
            && r.message in s.messages
            && (s.messages[id].channel == s.messages[r.message].channel ==> (r.lo <= s.messages[id].at < r.hi <==> id == r.message))
  {
    RunInv(env, trace, ops, answers, n);
    hide IsRun, LogInv, MessagesInv, EventsInv, ConclusionsInv, DefaultsInv, NamesInv, PinsInv, KeysInv;
    assert ReadOk(trace[n].db.ranges[i], trace[n].db.messages, trace[n].db.last);
  }
}
