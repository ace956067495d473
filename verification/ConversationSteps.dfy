/** Conversation transactions one step at a time: what each changes of pins,
    conclusions and places, what it logs and stores, and why it refuses.
    ConversationExact states what comes of it. */
module ConversationSteps {
  import opened Common
  import opened ConversationStore
  import opened Conversation
  import opened ConversationHistory
  import ChatText
  import T = ConversationText

  /** The operation changed the database. */
  ghost predicate Changes(trace: seq<World>, i: nat)
    requires i + 1 < |trace|
  {
    trace[i + 1].db != trace[i].db
  }

  // ----- pins -----

  /** Pins change by a pin or an unpin, and by nothing else. */
  lemma PinsStep(env: Env, w: World, op: Op, answer: Answer, v: World)
    requires Enabled(w.db, op) && Step(env, w, op, answer, v)
    ensures v.db.pins == if op.SetPin? && v.db != w.db then (if op.pin then w.db.pins[op.message := op.member] else w.db.pins - {op.message})
                         else w.db.pins
    ensures op.SetPin? && v.db != w.db ==> (op.message in w.db.pins) != op.pin
    ensures op.SetPin? && answer.Done? ==> (op.message in v.db.pins <==> op.pin)
  {
    hide OutcomeOf, HandleTakenBy;
    if !op.SetHandle? {
      OutcomePins(env, w.db, op);
    }
  }

  lemma OutcomePins(env: Env, s: Db, op: Op)
    requires Enabled(s, op) && !op.SetHandle?
    ensures var outcome := OutcomeOf(env, s, op);
            && (outcome.Commits? && !op.SetPin? ==> outcome.db.pins == s.pins)
            && (outcome.Commits? && op.SetPin? ==>
                  (op.message in s.pins) != op.pin
                  && outcome.db.pins == if op.pin then s.pins[op.message := op.member] else s.pins - {op.message})
            && (outcome.Keeps? && op.SetPin? && outcome.answer.Done? ==> (op.message in s.pins <==> op.pin))
  {
    hide BranchRefusal, PinRefusal, ResolveRefusal, PlaceRefusal, QuoteRefusal, Previous, Branched, Composed, SameSend, Requested, QuoteOf;
    match op {
      case BranchOff(channel, member, b, newTopic, notice) => BranchPins(env, s, channel, member, b, newTopic, notice);
      case _ =>
    }
  }

  lemma BranchPins(env: Env, s: Db, channel: nat, member: nat, b: Branch, newTopic: nat, notice: nat)
    ensures Branched(env, s, channel, member, b, newTopic, notice).pins == s.pins
  {
    hide Previous, Notice, Prepared, WithMove, WithMessage, TakesConclusion;
    var to, prepared := Destination(b, newTopic), Prepared(env, s, channel, b, newTopic);
    PreparedLog(env, s, channel, b, newTopic);
    MoveShape(prepared, channel, b.from, to, b.messages);
    var moved := WithMove(prepared, channel, b.from, to, b.messages);
    var m := Notice(env, channel, b.from, member, if to in prepared.topics then prepared.topics[to].name else "");
    PostShape(moved, notice, m, Previous(moved.messages, channel, moved.last + 1));
  }

  predicate PinsOf(op: Op, id: nat) {
    op.SetPin? && op.message == id
  }

  /** Step i was the last to change whether the message is pinned. */
  ghost predicate LastPins(trace: seq<World>, ops: seq<Op>, n: nat, id: nat, i: nat)
    requires n <= |ops| < |trace|
  {
    i < n && PinsOf(ops[i], id) && Changes(trace, i) && forall k :: i < k < n ==> !(PinsOf(ops[k], id) && Changes(trace, k))
  }

  lemma PinsNext(trace: seq<World>, ops: seq<Op>, n: nat, id: nat, i: nat)
    requires n < |ops| < |trace|
    ensures LastPins(trace, ops, n + 1, id, i) <==>
              if PinsOf(ops[n], id) && Changes(trace, n) then i == n else LastPins(trace, ops, n, id, i)
  {
  }

  lemma NoPins(trace: seq<World>, ops: seq<Op>, id: nat, i: nat)
    requires |ops| < |trace|
    ensures !LastPins(trace, ops, 0, id, i)
  {
  }

  lemma ChangesIs(trace: seq<World>, i: nat)
    requires i + 1 < |trace|
    ensures Changes(trace, i) <==> trace[i + 1].db != trace[i].db
  {
  }

  lemma PinsAt(trace: seq<World>, ops: seq<Op>, n: nat, id: nat)
    requires n <= |ops| < |trace|
    ensures forall i: nat :: LastPins(trace, ops, n, id, i) ==> ops[i].SetPin? && i < n
  {
  }

  // ----- conclusions -----

  function Asked(conclusion: Option<nat>): nat {
    if conclusion.Some? then conclusion.value else 0
  }

  /** A branch takes the conclusion c with the messages it moves from the topic. */
  predicate Takes(op: Op, t: nat, c: nat) {
    op.BranchOff? && op.branch.from == t && c in op.branch.messages
  }

  predicate ResolvesOf(op: Op, t: nat) {
    op.Resolve? && op.topic == t
  }

  /** A topic's conclusion after a step: the one asked for, none when a branch
      took it, and otherwise the one there was. */
  ghost predicate Concluded(s: Db, u: Db, op: Op, t: nat) {
    t in u.topics &&
    u.topics[t].conclusion
      == if t !in s.topics then 0
         else if u == s then s.topics[t].conclusion
         else if ResolvesOf(op, t) then Asked(op.conclusion)
         else if Takes(op, t, s.topics[t].conclusion) then 0
         else s.topics[t].conclusion
  }

  lemma OutcomeConclusions(env: Env, s: Db, op: Op, t: nat)
    requires Inv(s, env.lower) && Enabled(s, op) && OutcomeOf(env, s, op).Commits? && t in OutcomeOf(env, s, op).db.topics
    ensures Concluded(s, OutcomeOf(env, s, op).db, op, t)
  {
    hide Inv, BranchRefusal, PinRefusal, PlaceRefusal, QuoteRefusal, Previous, Branched, Composed, SameSend, Requested, QuoteOf,
         SelectionMoved, HasMessage;
    match op {
      case BranchOff(channel, member, b, newTopic, notice) =>
        BranchMovesTheSelection(env, s, channel, member, b, newTopic, notice);
        BranchTopics(env, s, channel, member, b, newTopic, notice);
      case _ =>
    }
  }

  /** The topics a branch leaves are those there were, and the new one. */
  lemma BranchTopics(env: Env, s: Db, channel: nat, member: nat, b: Branch, newTopic: nat, notice: nat)
    requires Inv(s, env.lower) && newTopic !in s.topics && notice !in s.messages && BranchRefusal(env, s, channel, b).None?
    ensures var u := Branched(env, s, channel, member, b, newTopic, notice);
            && u.last > s.last
            && u.topics.Keys == s.topics.Keys + (if b.to.None? then {newTopic} else {})
            && (b.to.None? ==> env.topicName(b.newName).Some? && u.topics[newTopic] == Topic(channel, false, env.topicName(b.newName).value, 0))
  {
    hide Inv, Branched, Conflicts, NameTaken, ValidBranch, TakesConclusion;
    PreparedKept(env, s, channel, b, newTopic);
    BranchShape(env, s, channel, member, b, newTopic, notice);
    PreparedShape(env, s, channel, b, newTopic);
  }

  /** Step i gave the topic the conclusion c, and nothing has changed it since. */
  ghost predicate LastConcludes(trace: seq<World>, ops: seq<Op>, n: nat, t: nat, c: nat, i: nat)
    requires n <= |ops| < |trace|
  {
    && i < n && ResolvesOf(ops[i], t) && Asked(ops[i].conclusion) == c && Changes(trace, i)
    && forall k :: i < k < n ==> !Reconcludes(trace, ops, k, t, c)
  }

  ghost predicate Reconcludes(trace: seq<World>, ops: seq<Op>, k: nat, t: nat, c: nat)
    requires k < |ops| && k + 1 < |trace|
  {
    Changes(trace, k) && (ResolvesOf(ops[k], t) || Takes(ops[k], t, c))
  }

  lemma ConcludesNext(trace: seq<World>, ops: seq<Op>, n: nat, t: nat, c: nat, i: nat)
    requires n < |ops| < |trace|
    ensures LastConcludes(trace, ops, n + 1, t, c, i) <==>
              || (i == n && ResolvesOf(ops[n], t) && Asked(ops[n].conclusion) == c && Changes(trace, n))
              || (LastConcludes(trace, ops, n, t, c, i) && !Reconcludes(trace, ops, n, t, c))
  {
    hide Reconcludes;
  }

  lemma ConclusionStep(env: Env, w: World, op: Op, answer: Answer, v: World, t: nat)
    requires Inv(w.db, env.lower) && Enabled(w.db, op) && Step(env, w, op, answer, v) && t in v.db.topics
    ensures Concluded(w.db, v.db, op, t)
    ensures ResolvesOf(op, t) && answer.Done? ==> v.db.topics[t].conclusion == Asked(op.conclusion)
  {
    hide OutcomeOf, HandleTakenBy, Inv;
    if !op.SetHandle? {
      if OutcomeOf(env, w.db, op).Commits? && v.db == OutcomeOf(env, w.db, op).db {
        OutcomeConclusions(env, w.db, op, t);
      }
      if op.Resolve? {
        ResolveKeeps(env, w.db, op);
      }
    }
  }

  lemma ResolveKeeps(env: Env, s: Db, op: Op)
    requires op.Resolve?
    ensures var outcome := OutcomeOf(env, s, op);
            && (outcome.Keeps? && outcome.answer.Done? ==> op.topic in s.topics && s.topics[op.topic].conclusion == Asked(op.conclusion))
            && (outcome.Commits? ==> op.topic in outcome.db.topics && outcome.db.topics[op.topic].conclusion == Asked(op.conclusion))
  {
  }

  lemma ConclusionNow(trace: seq<World>, ops: seq<Op>, m: nat, t: nat, c: nat)
    requires m < |ops| < |trace| && t in trace[m].db.topics && Concluded(trace[m].db, trace[m + 1].db, ops[m], t)
    ensures t in trace[m + 1].db.topics
    ensures c != 0 && Changes(trace, m) && ResolvesOf(ops[m], t) ==>
              (trace[m + 1].db.topics[t].conclusion == c <==> Asked(ops[m].conclusion) == c) && Reconcludes(trace, ops, m, t, c)
    ensures c != 0 && !(Changes(trace, m) && ResolvesOf(ops[m], t)) ==>
              (trace[m + 1].db.topics[t].conclusion == c <==> trace[m].db.topics[t].conclusion == c && !Reconcludes(trace, ops, m, t, c))
  {
  }

  lemma NoConclusions(trace: seq<World>, ops: seq<Op>, t: nat, c: nat)
    requires |ops| < |trace|
    ensures forall i: nat :: !LastConcludes(trace, ops, 0, t, c, i)
  {
  }

  /** What was resolved is there from then on. */
  lemma ResolvedStays(env: Env, trace: seq<World>, ops: seq<Op>, answers: seq<Answer>, n: nat, t: nat)
    requires IsRun(env, trace, ops, answers) && n < |ops|
    ensures forall i: nat :: i <= n && ResolvesOf(ops[i], t) && Changes(trace, i) ==> t in trace[n].db.topics
  {
    hide Step, Enabled, Timely;
    forall i: nat | i <= n && ResolvesOf(ops[i], t) && Changes(trace, i) ensures t in trace[n].db.topics {
      assert StepAt(env, trace, ops, answers, i);
      ResolvedIsThere(env, trace[i], ops[i], answers[i], trace[i + 1]);
      NothingIsLost(env, trace, ops, answers, i, n);
      TopicStays(trace[i].db, trace[n].db, t);
    }
  }

  /** A topic that was not there had not been resolved. */
  lemma NewTopic(env: Env, trace: seq<World>, ops: seq<Op>, answers: seq<Answer>, n: nat, t: nat, c: nat)
    requires IsRun(env, trace, ops, answers) && 0 < n <= |ops| && t !in trace[n - 1].db.topics && t in trace[n].db.topics
    requires Concluded(trace[n - 1].db, trace[n].db, ops[n - 1], t) && c != 0
    ensures trace[n].db.topics[t].conclusion != c && forall i: nat :: !LastConcludes(trace, ops, n, t, c, i)
  {
    hide IsRun, Takes, Changes;
    ResolvedStays(env, trace, ops, answers, n - 1, t);
  }

  lemma TopicStays(s: Db, u: Db, t: nat)
    requires Grown(s, u) && t in s.topics
    ensures t in u.topics
  {
  }

  lemma ResolvedIsThere(env: Env, w: World, op: Op, answer: Answer, v: World)
    requires Step(env, w, op, answer, v) && op.Resolve? && v.db != w.db
    ensures op.topic in w.db.topics
  {
  }

  // ----- where messages are -----

  /** Where a post was asked to go: the topic it names, else that of the message
      it answers, else the channel's default topic. */
  predicate Directed(s: Db, channel: nat, r: Request, t: nat) {
    match r.topic
    case Some(topic) => t == topic
    case None =>
      match r.reply
      case Some(answered) => HasMessage(s, channel, answered) && InTopic(s, channel, t, answered)
      case None => HasTopic(s, channel, t) && s.topics[t].isDefault
  }

  /** The step puts the message in the topic: a post or a notice that begins
      there, or a branch that moves it there. */
  ghost predicate Puts(s: Db, op: Op, id: nat, t: nat) {
    match op
    case Insert(channel, _, r, _, posted) => id == posted && Directed(s, channel, r, t)
    case BranchOff(_, _, b, newTopic, notice) => if id == notice then t == b.from else id in b.messages && t == Destination(b, newTopic)
    case _ => false
  }

  predicate About(op: Op, id: nat) {
    || (op.Insert? && op.id == id)
    || (op.BranchOff? && (op.notice == id || id in op.branch.messages))
  }

  lemma PlaceStep(env: Env, w: World, op: Op, answer: Answer, v: World, id: nat)
    requires Inv(w.db, env.lower) && Enabled(w.db, op) && Step(env, w, op, answer, v)
    ensures id in v.db.messages && !(About(op, id) && v.db != w.db) ==>
              id in w.db.messages && v.db.messages[id].topic == w.db.messages[id].topic
    ensures About(op, id) && v.db != w.db ==> id in v.db.messages && Puts(w.db, op, id, v.db.messages[id].topic)
    ensures id in w.db.messages ==> id in v.db.messages
  {
    hide OutcomeOf, HandleTakenBy, Inv, Puts;
    if !op.SetHandle? && OutcomeOf(env, w.db, op).Commits? && v.db == OutcomeOf(env, w.db, op).db {
      OutcomePlaces(env, w.db, op, id);
    }
  }

  lemma OutcomePlaces(env: Env, s: Db, op: Op, id: nat)
    requires Inv(s, env.lower) && Enabled(s, op) && OutcomeOf(env, s, op).Commits?
    ensures var u := OutcomeOf(env, s, op).db;
            && (id in u.messages && !About(op, id) ==> id in s.messages && u.messages[id].topic == s.messages[id].topic)
            && (About(op, id) ==> id in u.messages && Puts(s, op, id, u.messages[id].topic))
            && (id in s.messages ==> id in u.messages)
  {
    hide Inv, BranchRefusal, PinRefusal, PlaceRefusal, QuoteRefusal, Previous, Branched, Composed, SameSend, Requested, QuoteOf, InsertOutcome,
         OnlySourceOpened, Puts;
    match op {
      case BranchOff(channel, member, b, newTopic, notice) =>
        BranchMovesTheSelection(env, s, channel, member, b, newTopic, notice);
        SelectionExists(env, s, channel, b);
        BranchPuts(s, Branched(env, s, channel, member, b, newTopic, notice), op, id);
      case Insert(channel, member, r, draft, posted) =>
        InsertPuts(env, s, channel, member, r, draft, posted);
        InsertedShape(env, s, channel, member, r, draft, posted);
      case _ =>
    }
  }

  lemma BranchPuts(s: Db, u: Db, op: Op, id: nat)
    requires op.BranchOff? && SelectionMoved(s, u, op.branch, Destination(op.branch, op.newTopic), op.notice)
    requires forall x :: x in op.branch.messages ==> x in s.messages
    ensures About(op, id) ==> id in u.messages && Puts(s, op, id, u.messages[id].topic)
  {
  }

  lemma InsertPuts(env: Env, s: Db, channel: nat, member: nat, r: Request, draft: Draft, id: nat)
    requires Inv(s, env.lower) && id !in s.messages && InsertOutcome(env, s, channel, member, r, draft, id).Commits?
    ensures var u := InsertOutcome(env, s, channel, member, r, draft, id).db;
            id in u.messages && Directed(s, channel, r, u.messages[id].topic)
            && Puts(s, Insert(channel, member, r, draft, id), id, u.messages[id].topic)
  {
    hide LogInv, MessagesInv, EventsInv, ConclusionsInv, NamesInv, PinsInv, KeysInv, ReadsInv, WithMessage, Previous, QuoteRefusal, QuoteOf, Typed;
    var m := Composed(env, s, channel, member, r, draft, Requested(s, channel, r));
    PostShape(s, id, m, Previous(s.messages, channel, s.last + 1));
  }

  /** Step i was the last to post the message or to move it. */
  ghost predicate LastPuts(trace: seq<World>, ops: seq<Op>, n: nat, id: nat, i: nat)
    requires n <= |ops| < |trace|
  {
    i < n && About(ops[i], id) && Changes(trace, i) && forall k :: i < k < n ==> !(About(ops[k], id) && Changes(trace, k))
  }

  lemma PutsNext(trace: seq<World>, ops: seq<Op>, n: nat, id: nat, i: nat)
    requires n < |ops| < |trace|
    ensures LastPuts(trace, ops, n + 1, id, i) <==> if About(ops[n], id) && Changes(trace, n) then i == n else LastPuts(trace, ops, n, id, i)
  {
    hide About;
  }

  lemma NoPuts(trace: seq<World>, ops: seq<Op>, id: nat, i: nat)
    requires |ops| < |trace|
    ensures !LastPuts(trace, ops, 0, id, i)
  {
  }

  // ----- what a change announces -----

  /** The events of a change, in their order. */
  ghost function Events(s: Db, u: Db, op: Op): seq<Event> {
    match op
    case Resolve(channel, _, t, _) => [ResolutionChanged(channel, t)]
    case SetPin(channel, _, id, _) => [PinsChanged(channel, id)]
    case Insert(channel, member, _, _, id) => [Posted(channel, id, if id in u.messages then u.messages[id].topic else 0, member)]
    case BranchOff(channel, member, b, newTopic, notice) =>
      [Moved(channel, b.from, Destination(b, newTopic), b.messages), Posted(channel, notice, b.from, member)]
      + if TakesConclusion(s, b) then [ResolutionChanged(channel, b.from)] else []
    case _ => []
  }

  /** The events take the next sequences. */
  ghost predicate Follows(log: seq<Logged>, after: seq<Logged>, last: nat, events: seq<Event>) {
    after == log + seq(|events|, i requires 0 <= i < |events| => Logged(last + 1 + i, events[i]))
  }

  lemma OutcomeEvents(env: Env, s: Db, op: Op)
    requires Inv(s, env.lower) && Enabled(s, op) && OutcomeOf(env, s, op).Commits?
    ensures Follows(s.log, OutcomeOf(env, s, op).db.log, s.last, Events(s, OutcomeOf(env, s, op).db, op))
  {
    hide Inv, BranchRefusal, PinRefusal, ResolveRefusal, PlaceRefusal, QuoteRefusal, Previous, Branched, Composed, SameSend, Requested, QuoteOf,
         InsertOutcome, TakesConclusion;
    match op {
      case BranchOff(channel, member, b, newTopic, notice) => BranchEvents(env, s, channel, member, b, newTopic, notice);
      case Insert(channel, member, r, draft, id) => InsertEvents(env, s, channel, member, r, draft, id);
      case _ =>
    }
  }

  lemma InsertEvents(env: Env, s: Db, channel: nat, member: nat, r: Request, draft: Draft, id: nat)
    requires InsertOutcome(env, s, channel, member, r, draft, id).Commits?
    ensures var u := InsertOutcome(env, s, channel, member, r, draft, id).db;
            id in u.messages && u.log == s.log + [Logged(s.last + 1, Posted(channel, id, u.messages[id].topic, member))]
  {
    hide Previous, PlaceRefusal, QuoteRefusal, Requested, QuoteOf, Typed;
  }

  lemma BranchEvents(env: Env, s: Db, channel: nat, member: nat, b: Branch, newTopic: nat, notice: nat)
    requires Inv(s, env.lower) && newTopic !in s.topics && notice !in s.messages && BranchRefusal(env, s, channel, b).None?
    ensures var u := Branched(env, s, channel, member, b, newTopic, notice);
            Follows(s.log, u.log, s.last, Events(s, u, BranchOff(channel, member, b, newTopic, notice)))
  {
    hide Inv, BranchRefusal, Previous, Prepared, WithMove, WithMessage, Notice, TakesConclusion;
    PreparedKept(env, s, channel, b, newTopic);
    PreparedLog(env, s, channel, b, newTopic);
    var to, prepared := Destination(b, newTopic), Prepared(env, s, channel, b, newTopic);
    var moved := WithMove(prepared, channel, b.from, to, b.messages);
    MoveShape(prepared, channel, b.from, to, b.messages);
    var name := if to in prepared.topics then prepared.topics[to].name else "";
    var m := Notice(env, channel, b.from, member, name);
    NoticeMember(env, channel, b.from, member, name);
    PostLog(moved, notice, m, Previous(moved.messages, channel, moved.last + 1));
    PostShape(moved, notice, m, Previous(moved.messages, channel, moved.last + 1));
  }

  lemma PreparedLog(env: Env, s: Db, channel: nat, b: Branch, newTopic: nat)
    ensures var u := Prepared(env, s, channel, b, newTopic); u.log == s.log && u.last == s.last && u.pins == s.pins
  {
  }

  lemma NoticeMember(env: Env, channel: nat, from: nat, member: nat, name: string)
    ensures var m := Notice(env, channel, from, member, name); m.channel == channel && m.topic == from && m.member == member
  {
  }

  lemma PostLog(s: Db, id: nat, m: Message, previous: nat)
    ensures WithMessage(s, id, m, previous).log == s.log + [Logged(s.last + 1, Posted(m.channel, id, m.topic, m.member))]
  {
  }

  lemma LogIs(s: Db, lower: string -> string)
    requires Inv(s, lower)
    ensures |s.log| == s.last
  {
    hide MessagesInv, EventsInv, ConclusionsInv, DefaultsInv, NamesInv, PinsInv, KeysInv, ReadsInv;
  }

  // ----- what a post stores -----

  /** The stored message is the one that was sent, and its author has read it,
      back to the message before it in the channel. */
  ghost predicate Stored(env: Env, s: Db, u: Db, channel: nat, member: nat, r: Request, draft: Draft, id: nat) {
    && id in u.messages
    && (var m := u.messages[id];
        && m.channel == channel && m.member == member && m.body == draft.body && m.reply == r.reply && m.key == r.key
        && m.at == |s.log| + 1 && m.moved == 0
        && (if r.quote.None? then m.quote == None
            else m.quote.Some? && m.quote.value.message == r.quote.value && HasMessage(s, channel, r.quote.value)
                 && T.Excerpt(env.texts, draft.quoted, r.unknown, r.part, s.messages[r.quote.value].body) == Some(m.quote.value.text)))
    && (r.key.Some? ==> (member, r.key.value) !in s.keys && (member, r.key.value) in u.keys && u.keys[(member, r.key.value)] == id)
    && u.messages.Keys == s.messages.Keys + {id}
    && |u.ranges| == |s.ranges| + 1 && ReadSince(s, channel, u.ranges[|s.ranges|], id)
  }

  ghost predicate ReadSince(s: Db, channel: nat, range: ReadRange, id: nat) {
    && range.message == id && range.hi == |s.log| + 2 && 0 < range.lo
    && IsPrevious(s.messages, channel, |s.log| + 1, range.lo - 1)
  }

  lemma InsertStores(env: Env, s: Db, channel: nat, member: nat, r: Request, draft: Draft, id: nat)
    requires id !in s.messages && |s.log| == s.last && InsertOutcome(env, s, channel, member, r, draft, id).Commits?
    ensures Stored(env, s, InsertOutcome(env, s, channel, member, r, draft, id).db, channel, member, r, draft, id)
  {
    hide PlaceRefusal, Requested, Typed, T.Excerpt, IsPrevious, Previous;
    PreviousIs(s, channel);
  }

  lemma PreviousIs(s: Db, channel: nat)
    ensures IsPrevious(s.messages, channel, s.last + 1, Previous(s.messages, channel, s.last + 1))
  {
  }

  // ----- refusals -----

  /** What a refusal says of its request. */
  ghost predicate Because(env: Env, s: Db, op: Op, e: Error) {
    match op
    case BranchOff(channel, _, b, _, _) => BranchBecause(env, s, channel, b, e)
    case Resolve(channel, member, t, message) => ResolveBecause(s, channel, member, t, message, e)
    case SetPin(channel, member, id, pin) => PinBecause(s, channel, member, id, pin, e)
    case Insert(channel, _, r, draft, _) => PostBecause(env, s, channel, r, draft, e)
    case _ => false
  }

  predicate ResolveBecause(s: Db, channel: nat, member: nat, t: nat, message: Option<nat>, e: Error) {
    match e
    case NotFound => member == 0
    case TopicNotFound => t !in s.topics || s.topics[t].channel != channel
    case DefaultTopicResolution => message.Some? && t in s.topics && s.topics[t].isDefault
    case MessageNotFound => message.Some? && (message.value !in s.messages || s.messages[message.value].channel != channel)
    case ConclusionConflict => message.Some? && message.value in s.messages && s.messages[message.value].topic != t
    case _ => false
  }

  ghost predicate PinBecause(s: Db, channel: nat, member: nat, id: nat, pin: bool, e: Error) {
    match e
    case NotFound => member == 0
    case ChannelNotFound => channel !in s.channels
    case MessageNotFound => id !in s.messages || s.messages[id].channel != channel
    case PinLimit => pin && id !in s.pins && |PinsIn(s.messages, s.pins, channel)| == 50
    case _ => false
  }

  ghost predicate BranchBecause(env: Env, s: Db, channel: nat, b: Branch, e: Error) {
    match e
    case InvalidBranch => |b.messages| == 0 || |b.messages| > 100 || !Distinct(b.messages) || (b.to.Some? && (b.newName != "" || b.to.value == b.from))
    case InvalidTopicName => b.to.None? && env.topicName(b.newName).None?
    case TopicNotFound => !HasTopic(s, channel, b.from) || (b.to.Some? && !HasTopic(s, channel, b.to.value))
    case TopicNameTaken =>
      b.to.None? && env.topicName(b.newName).Some? && NameTaken(s.topics, channel, env.topicName(b.newName).value, env.lower)
    case BranchConflict => exists id :: id in b.messages && !(id in s.messages && s.messages[id].channel == channel && s.messages[id].topic == b.from)
    case _ => false
  }

  ghost predicate PostBecause(env: Env, s: Db, channel: nat, r: Request, draft: Draft, e: Error) {
    match e
    case InvalidPostCursor => r.cursor.Some? && r.cursor.value > |s.log|
    case ChannelNotFound => channel !in s.channels
    case MessageNotFound => r.reply.Some? && !HasMessage(s, channel, r.reply.value)
    case TopicNotFound => r.topic.Some? && !HasTopic(s, channel, r.topic.value)
    case QuoteNotFound => r.quote.Some? && !HasMessage(s, channel, r.quote.value)
    case InvalidBody =>
      && r.quote.Some? && r.quote.value in s.messages
      && T.Excerpt(env.texts, draft.quoted, r.unknown, r.part, s.messages[r.quote.value].body).None?
    case _ => false
  }

  lemma BranchRefused(env: Env, s: Db, channel: nat, b: Branch)
    ensures var refusal := BranchRefusal(env, s, channel, b);
            if refusal.Some? then BranchBecause(env, s, channel, b, refusal.value) else forall e :: !BranchBecause(env, s, channel, b, e)
  {
    hide NameTaken;
  }

  lemma PostRefused(env: Env, s: Db, channel: nat, member: nat, r: Request, draft: Draft, id: nat)
    requires |s.log| == s.last
    ensures var outcome := InsertOutcome(env, s, channel, member, r, draft, id);
            && (outcome.answer.Refused? ==> outcome.Keeps? && PostBecause(env, s, channel, r, draft, outcome.answer.error))
            && (!outcome.answer.Refused? ==> forall e :: !PostBecause(env, s, channel, r, draft, e))
            && (outcome.answer.KeyTaken? ==> outcome.Keeps? && r.key.Some? && (member, r.key.value) in s.keys)
  {
    hide Previous, T.Excerpt, Requested, WithMessage, Composed;
  }

  /** The outcome refuses with a cause, or there is none. */
  ghost predicate Justified(env: Env, s: Db, op: Op, outcome: Outcome) {
    if outcome.answer.Refused? then outcome.Keeps? && Because(env, s, op, outcome.answer.error)
    else forall e :: !Because(env, s, op, e)
  }

  lemma BranchJustified(env: Env, s: Db, op: Op)
    requires op.BranchOff?
    ensures Justified(env, s, op, BranchOutcome(env, s, op.channel, op.member, op.branch, op.newTopic, op.notice))
  {
    hide BranchRefusal, BranchBecause, Branched;
    BranchRefused(env, s, op.channel, op.branch);
  }

  lemma ResolveJustified(env: Env, s: Db, op: Op)
    requires op.Resolve?
    ensures Justified(env, s, op, ResolveOutcome(s, op.channel, op.member, op.topic, op.conclusion))
  {
    hide WithConclusion;
  }

  lemma PinJustified(env: Env, s: Db, op: Op)
    requires op.SetPin? && forall channel :: |PinsIn(s.messages, s.pins, channel)| <= 50
    ensures Justified(env, s, op, PinOutcome(s, op.channel, op.member, op.message, op.pin))
  {
    hide WithPins, PinsIn;
  }

  lemma PostJustified(env: Env, s: Db, op: Op)
    requires op.Insert? && |s.log| == s.last
    ensures Justified(env, s, op, InsertOutcome(env, s, op.channel, op.member, op.request, op.draft, op.id))
  {
    hide InsertOutcome, PostBecause;
    PostRefused(env, s, op.channel, op.member, op.request, op.draft, op.id);
  }

  lemma OutcomeRefusals(env: Env, s: Db, op: Op)
    requires Inv(s, env.lower) && !op.SetHandle? && !op.Repeat?
    ensures Justified(env, s, op, OutcomeOf(env, s, op))
  {
    hide Inv, BranchOutcome, ResolveOutcome, PinOutcome, InsertOutcome, Justified, PinsIn;
    match op {
      case BranchOff(_, _, _, _, _) => BranchJustified(env, s, op);
      case Resolve(_, _, _, _) => ResolveJustified(env, s, op);
      case SetPin(_, _, _, _) =>
        PinsAtMost(s, env.lower);
        PinJustified(env, s, op);
      case Insert(_, _, _, _, _) =>
        LogIs(s, env.lower);
        PostJustified(env, s, op);
      case AddChannel(channel, t) => assert Justified(env, s, op, Commits(WithChannel(s, channel, t), Done(t, 0, false))) by { NoneToAdd(env, s, op); }
    }
  }

  lemma NoneToAdd(env: Env, s: Db, op: Op)
    requires op.AddChannel?
    ensures Justified(env, s, op, Commits(WithChannel(s, op.channel, op.topic), Done(op.topic, 0, false)))
  {
  }

  lemma PinsAtMost(s: Db, lower: string -> string)
    requires Inv(s, lower)
    ensures forall channel :: |PinsIn(s.messages, s.pins, channel)| <= 50
  {
    hide LogInv, MessagesInv, EventsInv, ConclusionsInv, DefaultsInv, NamesInv, KeysInv, ReadsInv, PinsIn;
  }

  lemma KeyTakenOnlyBy(env: Env, s: Db, op: Op)
    requires OutcomeOf(env, s, op).answer.KeyTaken? && !op.Repeat?
    ensures op.Insert? && op.request.key.Some? && (op.member, op.request.key.value) in s.keys && OutcomeOf(env, s, op).Keeps?
  {
    hide BranchRefusal, PinRefusal, ResolveRefusal, PlaceRefusal, QuoteRefusal, Previous, Branched, Composed, Requested, QuoteOf, WithMessage;
  }
}
