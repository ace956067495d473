module Conversation {
  /** Posting, branching, pinning and resolving as transactions over one database
      (internal/conversation): what each commits or refuses, and what every
      history of committed, refused, failed and unknown outcomes keeps. */

  import opened Common
  import opened ConversationStore
  import ChatText
  import P = Payload
  import T = ConversationText

  /** What the transactions take from elsewhere: how texts are read, the digest
      of a typed body, the notice's wording, and topic names. */
  datatype Env = Env(
    texts: T.Texts, prove: string -> nat, notice: string -> string, topicName: string -> Option<string>, lower: string -> string)

  datatype Error =
    | NotFound | InvalidBranch | InvalidTopicName | TopicNotFound | TopicNameTaken | BranchConflict
    | ChannelNotFound | MessageNotFound | QuoteNotFound | DefaultTopicResolution | ConclusionConflict
    | PinLimit | InvalidPostCursor | InvalidBody | PostKeyReused | HandleTaken

  datatype Branch = Branch(messages: seq<nat>, from: nat, to: Option<nat>, newName: string)

  /** One composer submission. `unknown` is the placeholder, in the sender's
      locale, for a member the directory does not have. */
  datatype Request = Request(
    reply: Option<nat>, topic: Option<nat>, text: string, cursor: Option<int>,
    key: Option<nat>, quote: Option<nat>, part: Option<string>, unknown: string)

  /** What a send reads of the directory before its transaction: the body its
      handles were converted to, and the names a quote resolves with. */
  datatype Draft = Draft(body: string, quoted: T.Names)

  /** `Failed` is an error of the store or the connection before the commit. */
  datatype Answer =
    | Done(topic: nat, message: nat, repeat: bool)
    | KeyTaken(topic: nat)
    | Refused(error: Error)
    | Failed
    | Unknown

  datatype Op =
    | AddChannel(channel: nat, topic: nat)
    | BranchOff(channel: nat, member: nat, branch: Branch, newTopic: nat, notice: nat)
    | Resolve(channel: nat, member: nat, topic: nat, conclusion: Option<nat>)
    | SetPin(channel: nat, member: nat, message: nat, pin: bool)
    | Insert(channel: nat, member: nat, request: Request, draft: Draft, id: nat)
    | Repeat(channel: nat, member: nat, request: Request, names: T.Names, requested: Option<nat>)
    | SetHandle(named: P.ID, handle: string)       // a member joins, or takes another handle

  /** A transaction either would commit a database or leaves it as it is. */
  datatype Outcome = Commits(db: Db, answer: Answer) | Keeps(answer: Answer)

  const MAX_BRANCH := 100

  // ----- branching -----

  ghost predicate ValidBranch(b: Branch) {
    && 1 <= |b.messages| <= MAX_BRANCH && Distinct(b.messages)
    && (b.to.Some? ==> b.newName == "" && b.to.value != b.from)
  }

  predicate InTopic(s: Db, channel: nat, t: nat, id: nat) {
    HasMessage(s, channel, id) && s.messages[id].topic == t
  }

  /** Some of the selection is not in the source. */
  ghost predicate Conflicts(s: Db, channel: nat, from: nat, ids: seq<nat>) {
    exists id :: id in ids && !InTopic(s, channel, from, id)
  }

  ghost function BranchRefusal(env: Env, s: Db, channel: nat, b: Branch): Option<Error> {
    if !ValidBranch(b) then Some(InvalidBranch)
    else if b.to.None? && env.topicName(b.newName).None? then Some(InvalidTopicName)
    else if !HasTopic(s, channel, b.from) || (b.to.Some? && !HasTopic(s, channel, b.to.value)) then Some(TopicNotFound)
    else if b.to.None? && NameTaken(s.topics, channel, env.topicName(b.newName).value, env.lower) then Some(TopicNameTaken)
    else if Conflicts(s, channel, b.from, b.messages) then Some(BranchConflict)
    else None
  }

  function Destination(b: Branch, newTopic: nat): nat {
    if b.to.Some? then b.to.value else newTopic
  }

  /** The database with the destination. */
  function Prepared(env: Env, s: Db, channel: nat, b: Branch, newTopic: nat): Db {
    if b.to.Some? || env.topicName(b.newName).None? then s
    else WithTopic(s, channel, newTopic, env.topicName(b.newName).value)
  }

  /** The notice names the destination as typed text: it is escaped. */
  function Notice(env: Env, channel: nat, from: nat, member: nat, name: string): Message {
    Message(channel, from, member, ChatText.Escape(env.notice(name)), 0, 0, None, 0, None, None)
  }

  predicate TakesConclusion(s: Db, b: Branch) {
    b.from in s.topics && s.topics[b.from].conclusion != 0 && s.topics[b.from].conclusion in b.messages
  }

  /** The move, then the notice, then the reopening if the conclusion moved. */
  function Branched(env: Env, s: Db, channel: nat, member: nat, b: Branch, newTopic: nat, notice: nat): Db {
    var to := Destination(b, newTopic);
    var prepared := Prepared(env, s, channel, b, newTopic);
    var name := if to in prepared.topics then prepared.topics[to].name else "";
    var moved := WithMove(prepared, channel, b.from, to, b.messages);
    var posted := WithMessage(moved, notice, Notice(env, channel, b.from, member, name), Previous(moved.messages, channel, moved.last + 1));
    if TakesConclusion(s, b) && b.from in posted.topics then WithConclusion(posted, channel, b.from, 0) else posted
  }

  ghost function BranchOutcome(env: Env, s: Db, channel: nat, member: nat, b: Branch, newTopic: nat, notice: nat): Outcome {
    var refusal := BranchRefusal(env, s, channel, b);
    if refusal.Some? then Keeps(Refused(refusal.value))
    else Commits(Branched(env, s, channel, member, b, newTopic, notice), Done(Destination(b, newTopic), notice, false))
  }

  // ----- resolving -----

  function ResolveRefusal(s: Db, channel: nat, member: nat, t: nat, message: Option<nat>): Option<Error> {
    if member == 0 then Some(NotFound)
    else if !HasTopic(s, channel, t) then Some(TopicNotFound)
    else if message.None? then None
    else if s.topics[t].isDefault then Some(DefaultTopicResolution)
    else if !HasMessage(s, channel, message.value) then Some(MessageNotFound)
    else if s.messages[message.value].topic != t then Some(ConclusionConflict)
    else None
  }

  /** Setting the conclusion a topic has, or reopening an open one, is no change. */
  function ResolveOutcome(s: Db, channel: nat, member: nat, t: nat, message: Option<nat>): Outcome {
    var refusal := ResolveRefusal(s, channel, member, t, message);
    var conclusion := if message.Some? then message.value else 0;
    if refusal.Some? then Keeps(Refused(refusal.value))
    else if s.topics[t].conclusion == conclusion then Keeps(Done(t, conclusion, false))
    else Commits(WithConclusion(s, channel, t, conclusion), Done(t, conclusion, false))
  }

  // ----- pinning -----

  ghost function PinRefusal(s: Db, channel: nat, member: nat, id: nat, pin: bool): Option<Error> {
    if member == 0 then Some(NotFound)
    else if channel !in s.channels then Some(ChannelNotFound)
    else if !HasMessage(s, channel, id) then Some(MessageNotFound)
    else if pin && id !in s.pins && |PinsIn(s.messages, s.pins, channel)| >= MAX_PINS then Some(PinLimit)
    else None
  }

  ghost function PinOutcome(s: Db, channel: nat, member: nat, id: nat, pin: bool): Outcome {
    var refusal := PinRefusal(s, channel, member, id, pin);
    if refusal.Some? then Keeps(Refused(refusal.value))
    else if pin == (id in s.pins) then Keeps(Done(0, id, false))
    else Commits(WithPins(s, channel, id, if pin then s.pins[id := member] else s.pins - {id}), Done(0, id, false))
  }

  // ----- posting -----

  /** The requested place: the given topic, else the answered one, else the
      channel's default. */
  function Requested(s: Db, channel: nat, r: Request): nat
    requires channel in s.channels && (r.reply.Some? ==> r.reply.value in s.messages)
  {
    if r.topic.Some? then r.topic.value
    else if r.reply.Some? then s.messages[r.reply.value].topic
    else s.channels[channel]
  }

  function PlaceRefusal(s: Db, channel: nat, r: Request): Option<Error> {
    if channel !in s.channels then Some(ChannelNotFound)
    else if r.reply.Some? && !HasMessage(s, channel, r.reply.value) then Some(MessageNotFound)
    else if r.topic.Some? && !HasTopic(s, channel, r.topic.value) then Some(TopicNotFound)
    else None
  }

  /** The normalised typed body, which a repeat is compared by. */
  function Typed(env: Env, r: Request): string {
    var typed := T.Valid(env.texts, r.text);
    if typed.Some? then typed.value else ""
  }

  /** What a request quotes of a body, with the directory as given. */
  function Quoted(env: Env, names: T.Names, r: Request, body: string): Option<string> {
    T.Excerpt(env.texts, names, r.unknown, r.part, body)
  }

  function QuoteRefusal(env: Env, names: T.Names, s: Db, channel: nat, r: Request): Option<Error> {
    if r.quote.None? then None
    else if !HasMessage(s, channel, r.quote.value) then Some(QuoteNotFound)
    else if Quoted(env, names, r, s.messages[r.quote.value].body).None? then Some(InvalidBody)
    else None
  }

  function QuoteOf(env: Env, names: T.Names, s: Db, r: Request): Option<Quote> {
    if r.quote.None? || r.quote.value !in s.messages then None
    else
      var text := Quoted(env, names, r, s.messages[r.quote.value].body);
      if text.None? then None else Some(Quote(r.quote.value, text.value))
  }

  function Composed(env: Env, s: Db, channel: nat, member: nat, r: Request, draft: Draft, t: nat): Message {
    Message(channel, t, member, draft.body, 0, 0, r.key, if r.key.Some? then env.prove(Typed(env, r)) else 0,
            QuoteOf(env, draft.quoted, s, r), r.reply)
  }

  function InsertOutcome(env: Env, s: Db, channel: nat, member: nat, r: Request, draft: Draft, id: nat): Outcome {
    if r.cursor.Some? && r.cursor.value >= s.last + 1 then Keeps(Refused(InvalidPostCursor))
    else if PlaceRefusal(s, channel, r).Some? then Keeps(Refused(PlaceRefusal(s, channel, r).value))
    else if QuoteRefusal(env, draft.quoted, s, channel, r).Some? then Keeps(Refused(QuoteRefusal(env, draft.quoted, s, channel, r).value))
    else
      var t := Requested(s, channel, r);
      if r.key.Some? && (member, r.key.value) in s.keys then Keeps(KeyTaken(t))
      else
        var m := Composed(env, s, channel, member, r, draft, t);
        Commits(WithMessage(s, id, m, Previous(s.messages, channel, s.last + 1)), Done(t, id, false))
  }

  /** The stored message answers the request: same typed body, channel, quoted
      message and text, the text as the directory gives it now, and answered
      message. The topic is not compared. */
  predicate SameSend(env: Env, names: T.Names, s: Db, channel: nat, r: Request, stored: Message) {
    && env.prove(Typed(env, r)) == stored.proof && stored.channel == channel
    && r.quote.Some? == stored.quote.Some? && (r.quote.Some? ==> stored.quote.value.message == r.quote.value)
    && r.reply == stored.reply && (r.quote.Some? ==> stored.quote == QuoteOf(env, names, s, r))
  }

  function RepeatOutcome(env: Env, s: Db, channel: nat, member: nat, r: Request, names: T.Names, requested: Option<nat>): Outcome {
    if r.key.None? || (member, r.key.value) !in s.keys || s.keys[(member, r.key.value)] !in s.messages then Keeps(Refused(MessageNotFound))
    else if requested.None? && PlaceRefusal(s, channel, r).Some? then Keeps(Refused(PlaceRefusal(s, channel, r).value))
    else if QuoteRefusal(env, names, s, channel, r).Some? then Keeps(Refused(QuoteRefusal(env, names, s, channel, r).value))
    else
      var id := s.keys[(member, r.key.value)];
      if !SameSend(env, names, s, channel, r, s.messages[id]) then Keeps(Refused(PostKeyReused))
      else Keeps(Done(if requested.Some? then requested.value else Requested(s, channel, r), id, true))
  }

  // ----- histories -----

  /** New rows have new identifiers. */
  predicate Enabled(s: Db, op: Op) {
    match op
    case AddChannel(channel, t) => channel !in s.channels && t !in s.topics
    case BranchOff(_, _, _, newTopic, notice) => newTopic !in s.topics && notice != 0 && notice !in s.messages
    case Insert(_, _, _, _, id) => id != 0 && id !in s.messages
    case _ => true
  }

  ghost function OutcomeOf(env: Env, s: Db, op: Op): Outcome {
    match op
    case AddChannel(channel, t) => Commits(WithChannel(s, channel, t), Done(t, 0, false))
    case BranchOff(channel, member, b, newTopic, notice) => BranchOutcome(env, s, channel, member, b, newTopic, notice)
    case Resolve(channel, member, t, message) => ResolveOutcome(s, channel, member, t, message)
    case SetPin(channel, member, id, pin) => PinOutcome(s, channel, member, id, pin)
    case Insert(channel, member, r, draft, id) => InsertOutcome(env, s, channel, member, r, draft, id)
    case Repeat(channel, member, r, names, requested) => RepeatOutcome(env, s, channel, member, r, names, requested)
    case SetHandle(_, _) => Keeps(Failed)
  }

  /** The database, the directory, and the highest sequence the notifier was told. */
  datatype World = World(db: Db, names: T.Names, raised: nat)

  const NOTHING := World(Empty(), map[], 0)

  predicate HandleTakenBy(env: Env, names: T.Names, named: P.ID, handle: string) {
    exists m :: m in names && m != named && env.texts.lower(names[m]) == env.texts.lower(handle)
  }

  /** A transaction changes the database. Only a confirmed commit is raised,
      with the last of its sequences; a commit with an unknown outcome may or
      may not have happened. A handle nobody else has is taken in the directory. */
  ghost predicate Step(env: Env, w: World, op: Op, answer: Answer, v: World) {
    if op.SetHandle? then
      || (v == w && (answer == Failed || answer == Unknown))
      || (HandleTakenBy(env, w.names, op.named, op.handle) && answer == Refused(HandleTaken) && v == w)
      || (!HandleTakenBy(env, w.names, op.named, op.handle) && (answer == Done(0, 0, false) || answer == Unknown)
          && v == w.(names := w.names[op.named := op.handle]))
    else
      var outcome := OutcomeOf(env, w.db, op);
      || (answer == Failed && v == w)
      || (answer == Unknown && v == w)
      || (answer == Unknown && outcome.Commits? && v == w.(db := outcome.db))
      || (outcome.Keeps? && answer == outcome.answer && v == w)
      || (outcome.Commits? && answer == outcome.answer && v.db == outcome.db && v.names == w.names
          && v.raised == if op.AddChannel? then w.raised else Max(w.raised, outcome.db.last))
  }

  /** The directory a quote is resolved with: of a message that is not there
      no reference is. */
  function QuoteNames(w: World, channel: nat, quote: nat): T.Names {
    if HasMessage(w.db, channel, quote) then w.names else map[]
  }

  /** What a send made of the directory in three reads, each later than the last:
      the body with its handles converted, a valid one whose references all
      name members, and the names for its quote. */
  ghost predicate Drafts(env: Env, a: World, b: World, c: World, channel: nat, r: Request, draft: Draft) {
    && T.Valid(env.texts, r.text).Some? && T.Unique(a.names, env.texts.lower)
    && T.Valid(env.texts, T.Converted(env.texts, a.names, Typed(env, r))) == Some(draft.body)
    && T.Mentioned(T.Segments(env.texts, draft.body)) <= b.names.Keys
    && (r.quote.Some? ==> draft.quoted == QuoteNames(c, channel, r.quote.value))
  }

  /** What an operation knows of the directory was so at some time: a send's
      draft before its transaction. */
  ghost predicate Timely(env: Env, trace: seq<World>, op: Op, i: nat) {
    match op
    case Insert(channel, _, r, draft, _) =>
      exists a, b, c :: 0 <= a <= b <= c <= i < |trace| && Drafts(env, trace[a], trace[b], trace[c], channel, r, draft)
    case Repeat(channel, _, r, names, _) =>
      r.quote.Some? ==> exists a :: 0 <= a < |trace| && names == QuoteNames(trace[a], channel, r.quote.value)
    case _ => true
  }

  ghost predicate StepAt(env: Env, trace: seq<World>, ops: seq<Op>, answers: seq<Answer>, i: nat)
    requires i < |ops| == |answers| < |trace|
  {
    Enabled(trace[i].db, ops[i]) && Timely(env, trace, ops[i], i) && Step(env, trace[i], ops[i], answers[i], trace[i + 1])
  }

  ghost predicate IsRun(env: Env, trace: seq<World>, ops: seq<Op>, answers: seq<Answer>) {
    && |ops| == |answers| && |trace| == |ops| + 1 && trace[0] == NOTHING
    && forall i :: 0 <= i < |ops| ==> StepAt(env, trace, ops, answers, i)
  }

  // ----- what a commit keeps -----

  lemma BranchKept(env: Env, s: Db, channel: nat, member: nat, b: Branch, newTopic: nat, notice: nat)
    requires Inv(s, env.lower) && Enabled(s, BranchOff(channel, member, b, newTopic, notice))
    requires BranchRefusal(env, s, channel, b).None?
    ensures Inv(Branched(env, s, channel, member, b, newTopic, notice), env.lower)
  {
    hide LogInv, MessagesInv, EventsInv, ConclusionsInv, DefaultsInv, NamesInv, PinsInv, KeysInv, ReadsInv,
         WithMove, WithMessage, Previous, Notice, ConclusionOk;
    var to := Destination(b, newTopic);
    var prepared := Prepared(env, s, channel, b, newTopic);
    PreparedKept(env, s, channel, b, newTopic);
    MoveKept(prepared, env.lower, channel, b.from, to, b.messages);
    var moved := WithMove(prepared, channel, b.from, to, b.messages);
    MoveShape(prepared, channel, b.from, to, b.messages);
    var m := Notice(env, channel, b.from, member, prepared.topics[to].name);
    NoticeShape(env, channel, b.from, member, prepared.topics[to].name);
    var previous := Previous(moved.messages, channel, moved.last + 1);
    PostKept(moved, env.lower, notice, m, previous);
    var posted := WithMessage(moved, notice, m, previous);
    PostShape(moved, notice, m, previous);
    if TakesConclusion(s, b) {
      assert ConclusionOk(b.from, posted.topics[b.from].(conclusion := 0), posted.messages) by { OpenIsOk(b.from, posted.topics[b.from], posted.messages); }
      ConclusionKept(posted, env.lower, channel, b.from, 0);
    } else {
      NotTaken(prepared, b, moved.messages);
      AllConclusions(posted.topics, posted.messages);
    }
  }

  lemma NoticeShape(env: Env, channel: nat, from: nat, member: nat, name: string)
    ensures var m := Notice(env, channel, from, member, name); m.channel == channel && m.topic == from && m.key == None
  {
  }

  lemma OpenIsOk(t: nat, topic: Topic, messages: map<nat, Message>)
    ensures ConclusionOk(t, topic.(conclusion := 0), messages)
  {
  }

  /** A source without a conclusion, or whose conclusion stays, is as before. */
  lemma NotTaken(s: Db, b: Branch, messages: map<nat, Message>)
    requires !TakesConclusion(s, b) && b.from in s.topics
    ensures s.topics[b.from].conclusion in b.messages ==> ConclusionOk(b.from, s.topics[b.from], messages)
  {
  }

  lemma AllConclusions(topics: map<nat, Topic>, messages: map<nat, Message>)
    requires forall t :: t in topics ==> ConclusionOk(t, topics[t], messages)
    ensures ConclusionsInv(topics, messages)
  {
    hide ConclusionOk;
  }

  lemma PreparedKept(env: Env, s: Db, channel: nat, b: Branch, newTopic: nat)
    requires Inv(s, env.lower) && newTopic !in s.topics && BranchRefusal(env, s, channel, b).None?
    ensures var prepared, to := Prepared(env, s, channel, b, newTopic), Destination(b, newTopic);
            && Inv(prepared, env.lower) && CanMove(prepared, channel, b.from, to, b.messages)
            && prepared.messages == s.messages && HasTopic(prepared, channel, b.from) && prepared.topics[b.from] == s.topics[b.from]
  {
    hide LogInv, MessagesInv, EventsInv, ConclusionsInv, DefaultsInv, NamesInv, PinsInv, KeysInv, ReadsInv, NameTaken;
    if b.to.None? {
      HasDefault(s, env.lower, channel, b.from);
      TopicKept(s, env.lower, channel, newTopic, env.topicName(b.newName).value);
    }
    forall id | id in b.messages ensures InTopic(s, channel, b.from, id) {
    }
  }

  lemma HasDefault(s: Db, lower: string -> string, channel: nat, t: nat)
    requires Inv(s, lower) && HasTopic(s, channel, t)
    ensures channel in s.channels
  {
    hide LogInv, MessagesInv, EventsInv, ConclusionsInv, NamesInv, PinsInv, KeysInv, ReadsInv;
  }

  lemma MoveShape(s: Db, channel: nat, from: nat, to: nat, ids: seq<nat>)
    ensures var u := WithMove(s, channel, from, to, ids);
            && u.topics == s.topics && u.channels == s.channels && u.last == s.last + 1 && u.messages.Keys == s.messages.Keys && u.pins == s.pins
            && u.keys == s.keys && u.log == s.log + [Logged(s.last + 1, Moved(channel, from, to, ids))]
  {
  }

  lemma PostShape(s: Db, id: nat, m: Message, previous: nat)
    ensures var u := WithMessage(s, id, m, previous);
            && u.topics == s.topics && u.channels == s.channels && u.last == s.last + 1 && u.pins == s.pins
            && u.messages == s.messages[id := m.(at := s.last + 1, moved := 0)]
  {
  }

  lemma ResolveKept(s: Db, lower: string -> string, channel: nat, member: nat, t: nat, message: Option<nat>)
    requires Inv(s, lower) && ResolveRefusal(s, channel, member, t, message).None?
    ensures Inv(WithConclusion(s, channel, t, if message.Some? then message.value else 0), lower)
  {
    hide LogInv, MessagesInv, EventsInv, DefaultsInv, NamesInv, PinsInv, KeysInv, ReadsInv, WithConclusion;
    ConclusionKept(s, lower, channel, t, if message.Some? then message.value else 0);
  }

  lemma PinKept(s: Db, lower: string -> string, channel: nat, member: nat, id: nat, pin: bool)
    requires Inv(s, lower) && PinRefusal(s, channel, member, id, pin).None? && pin != (id in s.pins)
    ensures Inv(WithPins(s, channel, id, if pin then s.pins[id := member] else s.pins - {id}), lower)
  {
    hide LogInv, MessagesInv, EventsInv, DefaultsInv, NamesInv, PinsInv, KeysInv, ReadsInv, ConclusionsInv, WithPins;
    if pin {
      PinAdded(s.messages, s.pins, id, member);
    } else {
      PinRemoved(s.messages, s.pins, id);
    }
    PinsKept(s, lower, channel, id, if pin then s.pins[id := member] else s.pins - {id});
  }

  /** Where a request goes is a topic of the channel. */
  lemma RequestedTopic(s: Db, lower: string -> string, channel: nat, r: Request)
    requires Inv(s, lower) && PlaceRefusal(s, channel, r).None?
    ensures HasTopic(s, channel, Requested(s, channel, r))
  {
    hide LogInv, EventsInv, ConclusionsInv, NamesInv, PinsInv, KeysInv, ReadsInv, TopicAfter, LastMove;
    if r.topic.None? && r.reply.Some? {
      assert MessageOk(r.reply.value, s.messages[r.reply.value], s.topics, s.log);
    }
  }

  lemma InsertKept(env: Env, s: Db, channel: nat, member: nat, r: Request, draft: Draft, id: nat)
    requires Inv(s, env.lower) && id != 0 && id !in s.messages && InsertOutcome(env, s, channel, member, r, draft, id).Commits?
    ensures Inv(InsertOutcome(env, s, channel, member, r, draft, id).db, env.lower)
  {
    hide LogInv, MessagesInv, EventsInv, ConclusionsInv, DefaultsInv, NamesInv, PinsInv, KeysInv, ReadsInv,
         WithMessage, Previous, ConclusionOk, QuoteRefusal, QuoteOf, Typed;
    RequestedTopic(s, env.lower, channel, r);
    var m := Composed(env, s, channel, member, r, draft, Requested(s, channel, r));
    var previous := Previous(s.messages, channel, s.last + 1);
    PostKept(s, env.lower, id, m, previous);
    PostShape(s, id, m, previous);
    var u := WithMessage(s, id, m, previous);
    forall t | t in s.topics ensures ConclusionOk(t, s.topics[t], u.messages) {
      ConclusionAt(s.topics, s.messages, t);
    }
    AllConclusions(u.topics, u.messages);
  }

  lemma ConclusionAt(topics: map<nat, Topic>, messages: map<nat, Message>, t: nat)
    requires ConclusionsInv(topics, messages) && t in topics
    ensures ConclusionOk(t, topics[t], messages)
  {
  }

  lemma OutcomeKept(env: Env, s: Db, op: Op)
    requires Inv(s, env.lower) && Enabled(s, op) && OutcomeOf(env, s, op).Commits?
    ensures Inv(OutcomeOf(env, s, op).db, env.lower)
  {
    hide Inv, WithConclusion, WithPins, WithChannel, Branched, ResolveRefusal, PinRefusal, BranchRefusal, InsertOutcome, RepeatOutcome;
    match op
    case AddChannel(channel, t) => ChannelKept(s, env.lower, channel, t);
    case BranchOff(channel, member, b, newTopic, notice) => BranchKept(env, s, channel, member, b, newTopic, notice);
    case Resolve(channel, member, t, message) => ResolveKept(s, env.lower, channel, member, t, message);
    case SetPin(channel, member, id, pin) => PinKept(s, env.lower, channel, member, id, pin);
    case Insert(channel, member, r, draft, id) => InsertKept(env, s, channel, member, r, draft, id);
    case Repeat(channel, member, r, names, requested) => RepeatKeeps(env, s, channel, member, r, names, requested);
    case SetHandle(_, _) =>
  }

  lemma RepeatKeeps(env: Env, s: Db, channel: nat, member: nat, r: Request, names: T.Names, requested: Option<nat>)
    ensures RepeatOutcome(env, s, channel, member, r, names, requested).Keeps?
  {
    hide PlaceRefusal, QuoteRefusal, SameSend;
  }

  lemma StepKept(env: Env, w: World, op: Op, answer: Answer, v: World)
    requires Inv(w.db, env.lower) && Enabled(w.db, op) && Step(env, w, op, answer, v)
    ensures Inv(v.db, env.lower)
  {
    hide Inv, OutcomeOf, Enabled, HandleTakenBy;
    if !op.SetHandle? && OutcomeOf(env, w.db, op).Commits? {
      OutcomeKept(env, w.db, op);
    }
  }

  lemma EmptyInv(lower: string -> string)
    ensures Inv(Empty(), lower)
  {
    forall channel: nat ensures |PinsIn(map[], map[], channel)| <= MAX_PINS {
      assert PinsIn(map[], map[], channel) == {};
    }
  }

  lemma RunInv(env: Env, trace: seq<World>, ops: seq<Op>, answers: seq<Answer>, n: nat)
    requires IsRun(env, trace, ops, answers) && n < |trace|
    ensures Inv(trace[n].db, env.lower)
  {
    hide Inv, Step, Enabled, Empty, Timely;
    EmptyInv(env.lower);
    var i := 0;
    while i < n
      invariant i <= n && Inv(trace[i].db, env.lower)
    {
      assert StepAt(env, trace, ops, answers, i);
      StepKept(env, trace[i], ops[i], answers[i], trace[i + 1]);
      i := i + 1;
    }
  }

  /** In every history handles stay apart and no member leaves the directory. */
  lemma DirectoryKeeps(env: Env, trace: seq<World>, ops: seq<Op>, answers: seq<Answer>, m: nat, n: nat)
    requires IsRun(env, trace, ops, answers) && m <= n < |trace|
    ensures T.Unique(trace[n].names, env.texts.lower) && trace[m].names.Keys <= trace[n].names.Keys
  {
    hide OutcomeOf, Enabled, Timely, Empty;
    var i := 0;
    while i < n
      invariant i <= n && T.Unique(trace[i].names, env.texts.lower)
      invariant m <= i ==> trace[m].names.Keys <= trace[i].names.Keys
    {
      assert StepAt(env, trace, ops, answers, i);
      i := i + 1;
    }
  }

  /** Over every history: one event per consumed sequence and no gap; every set
      conclusion is a message now in that same non-default topic; no channel has
      more than 50 pins. */
  lemma HistoriesKeep(env: Env, trace: seq<World>, ops: seq<Op>, answers: seq<Answer>, n: nat)
    requires IsRun(env, trace, ops, answers) && n < |trace|
    ensures var s := trace[n].db;
            && |s.log| == s.last && (forall i :: 0 <= i < |s.log| ==> s.log[i].at == i + 1)
            && (forall t :: t in s.topics && s.topics[t].conclusion != 0 ==>
                              !s.topics[t].isDefault && s.topics[t].conclusion in s.messages && s.messages[s.topics[t].conclusion].topic == t)
            && (forall channel :: |PinsIn(s.messages, s.pins, channel)| <= MAX_PINS)
  {
    RunInv(env, trace, ops, answers, n);
    hide IsRun, MessagesInv, EventsInv, DefaultsInv, NamesInv, KeysInv, ReadsInv, PinsIn;
    var s := trace[n].db;
    forall t | t in s.topics && s.topics[t].conclusion != 0
      ensures !s.topics[t].isDefault && s.topics[t].conclusion in s.messages && s.messages[s.topics[t].conclusion].topic == t
    {
      assert ConclusionOk(t, s.topics[t], s.messages);
    }
  }

  /** A reader who replays the log finds every message, in the topic it is in
      now, and in no other. */
  lemma ReplayingTheLog(env: Env, trace: seq<World>, ops: seq<Op>, answers: seq<Answer>, n: nat, id: nat)
    requires IsRun(env, trace, ops, answers) && n < |trace|
    ensures var s := trace[n].db;
            && TopicAfter(s.log, id) == (if id in s.messages then Some(s.messages[id].topic) else None)
            && (id in s.messages ==> HasTopic(s, s.messages[id].channel, s.messages[id].topic) && LastMove(s.log, id) == s.messages[id].moved)
  {
    RunInv(env, trace, ops, answers, n);
    hide IsRun, DefaultsInv, NamesInv, KeysInv, ReadsInv, PinsInv, ConclusionsInv, LogInv, TopicAfter, LastMove;
    var s := trace[n].db;
    if id in s.messages {
      assert MessageOk(id, s.messages[id], s.topics, s.log);
    } else {
      Unheard(s.log, s.messages, id);
    }
  }

  /** After a confirmed change the notifier knows the last sequence, also those
      whose own commit had an unknown outcome. */
  lemma RaisesReachTheLast(env: Env, trace: seq<World>, ops: seq<Op>, answers: seq<Answer>, n: nat)
    requires IsRun(env, trace, ops, answers) && n < |ops|
    ensures trace[n].raised <= trace[n].db.last <= trace[n + 1].db.last
    ensures answers[n].Done? && trace[n + 1].db.last != trace[n].db.last ==> trace[n + 1].raised == trace[n + 1].db.last
  {
    hide Step, Enabled, Timely;
    var i := 0;
    assert StepAt(env, trace, ops, answers, n);
    while i < n
      invariant i <= n && trace[i].raised <= trace[i].db.last
    {
      assert StepAt(env, trace, ops, answers, i);
      StepRaises(env, trace[i], ops[i], answers[i], trace[i + 1]);
      i := i + 1;
    }
    StepRaises(env, trace[n], ops[n], answers[n], trace[n + 1]);
  }

  lemma StepRaises(env: Env, w: World, op: Op, answer: Answer, v: World)
    requires Step(env, w, op, answer, v) && w.raised <= w.db.last && Enabled(w.db, op)
    ensures v.raised <= v.db.last && w.db.last <= v.db.last
    ensures answer.Done? && v.db.last != w.db.last ==> v.raised == v.db.last
  {
    hide OutcomeOf, HandleTakenBy;
    if !op.SetHandle? && OutcomeOf(env, w.db, op).Commits? {
      OutcomeLast(env, w.db, op);
    }
  }

  lemma OutcomeLast(env: Env, s: Db, op: Op)
    requires OutcomeOf(env, s, op).Commits?
    ensures var u := OutcomeOf(env, s, op).db; if op.AddChannel? then u.last == s.last else u.last > s.last
  {
    hide BranchRefusal, PinRefusal, ResolveRefusal, PlaceRefusal, QuoteRefusal, Previous, Notice, Composed, SameSend, MovedMessages, Requested;
  }
}
