/** The transactions as the code runs them: store calls in order on one
    transaction's view, any of which may fail, then a commit that may be
    confirmed, refused or unknown. Rolling back drops the view. */
module ConversationTx {
  import opened Common
  import opened ConversationStore
  import opened Conversation
  import opened ConversationHistory
  import ChatBlocks
  import MentionBody
  import MentionRewrite
  import P = Payload
  import T = ConversationText

  /** A call of the store failed, a rule was broken, or a key was taken. */
  datatype Fault = Broken | Rule(error: Error) | Taken

  datatype Result<+T> = Ok(value: T) | Err(fault: Fault) {
    predicate IsFailure() {
      Err?
    }

    function PropagateFailure<U>(): Result<U>
      requires Err?
    {
      Err(fault)
    }

    function Extract(): T
      requires Ok?
    {
      value
    }
  }

  datatype Unit = Unit

  /** The messages of the selection that are still in the source. */
  function Staying(messages: map<nat, Message>, channel: nat, from: nat, ids: seq<nat>): set<nat> {
    set id | id in messages && id in ids && messages[id].channel == channel && messages[id].topic == from
  }

  /** MoveMessages' contract: only those move. */
  function MovedFrom(messages: map<nat, Message>, channel: nat, from: nat, to: nat, ids: seq<nat>, at: nat): map<nat, Message> {
    map id | id in messages ::
      if id in ids && messages[id].channel == channel && messages[id].topic == from then messages[id].(topic := to, moved := at)
      else messages[id]
  }

  lemma ElementsMore<T>(s: seq<T>)
    requires s != []
    ensures Elements(s) == Elements(s[1..]) + {s[0]}
    ensures s[0] in Elements(s[1..]) <==> s[0] in s[1..]
  {
    assert s == [s[0]] + s[1..];
  }

  lemma DistinctMore<T>(s: seq<T>)
    requires s != [] && Distinct(s[1..]) && s[0] !in s[1..]
    ensures Distinct(s)
  {
    forall i, j | 0 <= i < j < |s| ensures s[i] != s[j] {
      assert s[j] == s[1..][j - 1];
      assert i > 0 ==> s[i] == s[1..][i - 1];
    }
  }

  lemma {:induction false} ElementsSize<T>(s: seq<T>)
    ensures |Elements(s)| <= |s|
    ensures |Elements(s)| == |s| ==> Distinct(s)
  {
    hide Distinct;
    if s == [] {
      assert Elements(s) == {} && Distinct(s) by { Short(s); }
    } else {
      ElementsSize(s[1..]);
      ElementsMore(s);
      if s[0] in Elements(s[1..]) {
        assert Elements(s) == Elements(s[1..]);
      } else if Distinct(s[1..]) {
        DistinctMore(s);
      }
    }
  }

  lemma Short<T>(s: seq<T>)
    requires s == []
    ensures Elements(s) == {} && Distinct(s)
  {
  }

  /** The moved count equals the request's exactly when the selection is distinct
      and all of it is still in the source: why a repeated message is refused
      before, and a smaller count is a conflict. */
  lemma MovedCount(messages: map<nat, Message>, channel: nat, from: nat, ids: seq<nat>)
    ensures |Staying(messages, channel, from, ids)| == |ids|
       <==> Distinct(ids) && forall id :: id in ids ==> id in messages && messages[id].channel == channel && messages[id].topic == from
  {
    var staying := Staying(messages, channel, from, ids);
    ElementsSize(ids);
    assert staying <= Elements(ids);
    Subset(staying, Elements(ids));
    if Distinct(ids) {
      DistinctSize(ids);
    }
    assert (forall id :: id in ids ==> id in messages && messages[id].channel == channel && messages[id].topic == from)
      <==> staying == Elements(ids) by {
      assert forall id :: id in Elements(ids) <==> id in ids;
    }
  }

  lemma Subset<T>(a: set<T>, b: set<T>)
    requires a <= b
    ensures |a| <= |b| && (|a| == |b| <==> a == b)
  {
    assert b == a + (b - a);
  }

  lemma AllMoved(messages: map<nat, Message>, channel: nat, from: nat, to: nat, ids: seq<nat>, at: nat)
    requires forall id :: id in ids ==> id in messages && messages[id].channel == channel && messages[id].topic == from
    ensures MovedFrom(messages, channel, from, to, ids, at) == MovedMessages(messages, ids, to, at)
  {
  }

  /** The message itself, once inserted, is not before itself. */
  lemma {:induction false} PreviousSame(messages: map<nat, Message>, id: nat, m: Message, channel: nat, at: nat)
    requires id !in messages && m.at >= at
    ensures Previous(messages[id := m], channel, at) == Previous(messages, channel, at)
    decreases at
  {
    if at > 1 {
      var after := messages[id := m];
      assert (exists x :: x in after && after[x].channel == channel && after[x].at == at - 1)
        <==> (exists x :: x in messages && messages[x].channel == channel && messages[x].at == at - 1) by {
        forall x | x in messages && messages[x].channel == channel && messages[x].at == at - 1
          ensures x in after && after[x].channel == channel && after[x].at == at - 1
        {
        }
      }
      PreviousSame(messages, id, m, channel, at - 1);
    }
  }

  class Tx {
    var work: Db

    constructor (db: Db)
      ensures work == db
    {
      work := db;
    }

    method NextEventSeq() returns (r: Result<nat>)
      modifies this
      ensures r.Ok? ==> r.value == old(work).last + 1 && work == old(work).(last := r.value)
      ensures r.Err? ==> r.fault == Broken
    {
      var works: bool := *;
      if !works {
        return Err(Broken);
      }
      work := work.(last := work.last + 1);
      return Ok(work.last);
    }

    method GetTopic(channel: nat, t: nat) returns (r: Result<Topic>)
      ensures r.Ok? ==> HasTopic(work, channel, t) && r.value == work.topics[t]
      ensures r.Err? && r.fault != Broken ==> !HasTopic(work, channel, t) && r.fault == Rule(TopicNotFound)
    {
      var works: bool := *;
      if !works {
        return Err(Broken);
      }
      return if HasTopic(work, channel, t) then Ok(work.topics[t]) else Err(Rule(TopicNotFound));
    }

    method GetDefaultTopic(channel: nat) returns (r: Result<nat>)
      ensures r.Ok? ==> channel in work.channels && r.value == work.channels[channel]
      ensures r.Err? && r.fault != Broken ==> channel !in work.channels && r.fault == Rule(ChannelNotFound)
    {
      var works: bool := *;
      if !works {
        return Err(Broken);
      }
      return if channel in work.channels then Ok(work.channels[channel]) else Err(Rule(ChannelNotFound));
    }

    method CreateTopic(channel: nat, t: nat, name: string, lower: string -> string) returns (r: Result<Topic>)
      modifies this
      ensures r.Ok? ==> !NameTaken(old(work).topics, channel, name, lower) && work == WithTopic(old(work), channel, t, name)
      ensures r.Ok? ==> r.value == work.topics[t]
      ensures r.Err? && r.fault != Broken ==> NameTaken(old(work).topics, channel, name, lower) && r.fault == Rule(TopicNameTaken)
    {
      var works: bool := *;
      if !works {
        return Err(Broken);
      }
      if NameTaken(work.topics, channel, name, lower) {
        return Err(Rule(TopicNameTaken));
      }
      work := work.(topics := work.topics[t := Topic(channel, false, name, 0)]);
      return Ok(work.topics[t]);
    }

    method MoveMessages(channel: nat, from: nat, to: nat, ids: seq<nat>, at: nat) returns (r: Result<nat>)
      modifies this
      ensures r.Ok? ==> r.value == |Staying(old(work).messages, channel, from, ids)|
      ensures r.Ok? ==> work == old(work).(messages := MovedFrom(old(work).messages, channel, from, to, ids, at))
      ensures r.Err? ==> r.fault == Broken
    {
      var works: bool := *;
      if !works {
        return Err(Broken);
      }
      r := Ok(|Staying(work.messages, channel, from, ids)|);
      work := work.(messages := MovedFrom(work.messages, channel, from, to, ids, at));
    }

    method InsertMessage(id: nat, m: Message) returns (r: Result<Message>)
      modifies this
      ensures r.Ok? ==> (m.key.Some? ==> (m.member, m.key.value) !in old(work).keys) && r.value == m
      ensures r.Ok? ==> work == old(work).(messages := old(work).messages[id := m],
                                           keys := if m.key.Some? then old(work).keys[(m.member, m.key.value) := id] else old(work).keys)
      ensures r.Err? && r.fault != Broken ==> m.key.Some? && (m.member, m.key.value) in old(work).keys && r.fault == Taken
    {
      var works: bool := *;
      if !works {
        return Err(Broken);
      }
      if m.key.Some? && (m.member, m.key.value) in work.keys {
        return Err(Taken);
      }
      work := work.(messages := work.messages[id := m], keys := if m.key.Some? then work.keys[(m.member, m.key.value) := id] else work.keys);
      return Ok(m);
    }

    method LastMessageBefore(channel: nat, at: nat) returns (r: Result<nat>)
      ensures r.Ok? ==> r.value == Previous(work.messages, channel, at)
      ensures r.Err? ==> r.fault == Broken
    {
      var works: bool := *;
      return if works then Ok(Previous(work.messages, channel, at)) else Err(Broken);
    }

    /** The author's read range; the union of a member's ranges is elsewhere. */
    method MarkRead(message: nat, lo: nat, hi: nat) returns (r: Result<Unit>)
      modifies this
      ensures r.Ok? ==> work == old(work).(ranges := old(work).ranges + [ReadRange(message, lo, hi)])
      ensures r.Err? ==> r.fault == Broken
    {
      var works: bool := *;
      if !works {
        return Err(Broken);
      }
      work := work.(ranges := work.ranges + [ReadRange(message, lo, hi)]);
      return Ok(Unit);
    }

    method Append(at: nat, e: Event) returns (r: Result<Unit>)
      modifies this
      ensures r.Ok? ==> work == old(work).(log := old(work).log + [Logged(at, e)])
      ensures r.Err? ==> r.fault == Broken
    {
      var works: bool := *;
      if !works {
        return Err(Broken);
      }
      work := work.(log := work.log + [Logged(at, e)]);
      return Ok(Unit);
    }

    method SetTopicConclusion(t: nat, message: nat) returns (r: Result<Unit>)
      requires t in work.topics
      modifies this
      ensures r.Ok? ==> work == old(work).(topics := old(work).topics[t := old(work).topics[t].(conclusion := message)])
      ensures r.Err? ==> r.fault == Broken
    {
      var works: bool := *;
      if !works {
        return Err(Broken);
      }
      work := work.(topics := work.topics[t := work.topics[t].(conclusion := message)]);
      return Ok(Unit);
    }

    /** `missing` is the error its caller answers for a message out of scope. */
    method QuotedMessage(channel: nat, id: nat, missing: Error) returns (r: Result<Message>)
      ensures r.Ok? ==> HasMessage(work, channel, id) && r.value == work.messages[id]
      ensures r.Err? && r.fault != Broken ==> !HasMessage(work, channel, id) && r.fault == Rule(missing)
    {
      var works: bool := *;
      if !works {
        return Err(Broken);
      }
      return if HasMessage(work, channel, id) then Ok(work.messages[id]) else Err(Rule(missing));
    }

    method CountChannelPins(channel: nat) returns (r: Result<nat>)
      ensures r.Ok? ==> r.value == |PinsIn(work.messages, work.pins, channel)|
      ensures r.Err? ==> r.fault == Broken
    {
      var works: bool := *;
      return if works then Ok(|PinsIn(work.messages, work.pins, channel)|) else Err(Broken);
    }

    method SetPins(pins: map<nat, nat>) returns (r: Result<Unit>)
      modifies this
      ensures r.Ok? ==> work == old(work).(pins := pins)
      ensures r.Err? ==> r.fault == Broken
    {
      var works: bool := *;
      if !works {
        return Err(Broken);
      }
      work := work.(pins := pins);
      return Ok(Unit);
    }
  }

  class Conversations {
    const env: Env
    var db: Db
    var names: T.Names
    var raised: nat
    ghost var past: seq<World>     // the worlds passed, the present one last

    ghost function View(): World
      reads this
    {
      World(db, names, raised)
    }

    ghost predicate Valid()
      reads this
    {
      Inv(db, env.lower) && T.Unique(names, env.texts.lower)
    }

    /** Each world passed follows from the one before by one transaction. */
    ghost predicate Recorded()
      reads this
    {
      past != [] && Path(env, past) && past[|past| - 1] == View()
    }

    constructor (env: Env)
      ensures Valid() && Recorded() && View() == NOTHING && past == [NOTHING] && this.env == env
    {
      this.env, db, names, raised, past := env, Empty(), map[], 0, [NOTHING];
      EmptyInv(env.lower);
    }

    /** The world that a transaction left goes on record. */
    ghost method Record(op: Op, answer: Answer)
      requires past != [] && Path(env, past) && Enabled(past[|past| - 1].db, op) && Step(env, past[|past| - 1], op, answer, View())
      modifies this`past
      ensures Recorded() && past == old(past) + [View()]
    {
      hide Enabled, Step;
      assert (past + [View()])[..|past|] == past;
      past := past + [View()];
    }

    /** What a fault answers; the transaction is rolled back. */
    function Answered(fault: Fault, t: nat): Answer {
      match fault
      case Broken => Failed
      case Rule(error) => Refused(error)
      case Taken => KeyTaken(t)
    }

    /** The commit: confirmed, refused, or unknown and then either. */
    method Commit(tx: Tx, done: Answer) returns (answer: Answer)
      modifies this`db
      ensures (answer == done && db == tx.work) || (answer == Failed && db == old(db))
           || (answer == Unknown && (db == old(db) || db == tx.work))
    {
      var confirmed: bool, known: bool, written: bool := *, *, *;
      if confirmed || (!known && written) {
        db := tx.work;
      }
      return if confirmed then done else if known then Failed else Unknown;
    }

    /** Notifier.Raise, only after a confirmed commit. */
    method Raise(at: nat)
      modifies this`raised
      ensures raised == Max(old(raised), at)
    {
      raised := Max(raised, at);
    }

    // ----- branching -----

    method ValidateBranch(b: Branch) returns (valid: bool)
      ensures valid <==> ValidBranch(b)
    {
      if |b.messages| == 0 || |b.messages| > MAX_BRANCH {
        return false;
      }
      var seen := {};
      for i := 0 to |b.messages|
        invariant forall x :: x in seen <==> x in b.messages[..i]
        invariant Distinct(b.messages[..i])
      {
        if b.messages[i] in seen {
          return false;
        }
        seen := seen + {b.messages[i]};
        assert b.messages[..i + 1] == b.messages[..i] + [b.messages[i]];
      }
      assert b.messages[..|b.messages|] == b.messages;
      return !(b.to.Some? && b.newName != "") && !(b.to.Some? && b.to.value == b.from);
    }

    method Destine(tx: Tx, channel: nat, b: Branch, newTopic: nat) returns (r: Result<Topic>)
      requires b.to.None? ==> env.topicName(b.newName).Some?
      modifies tx
      ensures r.Ok? ==> tx.work == Prepared(env, old(tx.work), channel, b, newTopic)
      ensures r.Ok? ==> Destination(b, newTopic) in tx.work.topics && r.value == tx.work.topics[Destination(b, newTopic)]
      ensures r.Ok? ==> if b.to.Some? then HasTopic(old(tx.work), channel, b.to.value)
                        else !NameTaken(old(tx.work).topics, channel, env.topicName(b.newName).value, env.lower)
      ensures r.Err? && r.fault != Broken ==>
        r.fault == Rule(if b.to.Some? then TopicNotFound else TopicNameTaken)
        && if b.to.Some? then !HasTopic(old(tx.work), channel, b.to.value)
           else NameTaken(old(tx.work).topics, channel, env.topicName(b.newName).value, env.lower)
    {
      if b.to.Some? {
        r := tx.GetTopic(channel, b.to.value);
      } else {
        r := tx.CreateTopic(channel, newTopic, env.topicName(b.newName).value, env.lower);
      }
    }

    /** MoveMessages and its event; fewer moved than selected is a conflict. */
    method Move(tx: Tx, channel: nat, from: nat, to: nat, ids: seq<nat>, at: nat) returns (r: Result<Unit>)
      requires at > 0 && Distinct(ids)
      modifies tx
      ensures var s := old(tx.work); r.Ok? ==> tx.work == WithMove(s.(last := at - 1), channel, from, to, ids).(last := s.last)
      ensures r.Ok? ==> !Conflicts(old(tx.work), channel, from, ids)
      ensures r.Err? && r.fault != Broken ==> r.fault == Rule(BranchConflict) && Conflicts(old(tx.work), channel, from, ids)
    {
      hide MovedMessages, MovedFrom, Staying;
      ghost var s := tx.work;
      var count :- tx.MoveMessages(channel, from, to, ids, at);
      MovedCount(s.messages, channel, from, ids);
      if count != |ids| {
        assert !forall id :: id in ids ==> InTopic(s, channel, from, id);
        return Err(Rule(BranchConflict));
      }
      AllMoved(s.messages, channel, from, to, ids, at);
      r := tx.Append(at, Moved(channel, from, to, ids));
    }

    /** Inserts a message, marks it read by its author and appends its event. */
    method PostMessage(tx: Tx, id: nat, m: Message, at: nat) returns (r: Result<Unit>)
      requires at > 0 && tx.work.last == at && id !in tx.work.messages
      modifies tx
      ensures var s := old(tx.work);
              r.Ok? ==> tx.work == WithMessage(s.(last := at - 1), id, m, Previous(s.messages, m.channel, at))
      ensures r.Ok? ==> m.key.None? || (m.member, m.key.value) !in old(tx.work).keys
      ensures r.Err? && r.fault != Broken ==> m.key.Some? && (m.member, m.key.value) in old(tx.work).keys && r.fault == Taken
    {
      hide Previous;
      ghost var s := tx.work;
      var posted :- tx.InsertMessage(id, m.(at := at, moved := 0));
      PreviousSame(s.messages, id, posted, m.channel, at);
      r := Announce(tx, id, m, at);
    }

    /** Marks the message read by its author, from the channel's previous one
        on, and appends its event. */
    method Announce(tx: Tx, id: nat, m: Message, at: nat) returns (r: Result<Unit>)
      requires at > 0
      modifies tx
      ensures var s := old(tx.work);
              r.Ok? ==> tx.work == s.(ranges := s.ranges + [ReadRange(id, Previous(s.messages, m.channel, at) + 1, at + 1)],
                                      log := s.log + [Logged(at, Posted(m.channel, id, m.topic, m.member))])
      ensures r.Err? ==> r.fault == Broken
    {
      hide Previous;
      var previous :- tx.LastMessageBefore(m.channel, at);
      var _ :- tx.MarkRead(id, previous + 1, at + 1);
      r := tx.Append(at, Posted(m.channel, id, m.topic, m.member));
    }

    /** The first half of run's closure: both sequences, the lookups and the move. */
    method BranchMove(tx: Tx, channel: nat, b: Branch, newTopic: nat) returns (r: Result<(Topic, Topic)>)
      requires ValidBranch(b) && (b.to.None? ==> env.topicName(b.newName).Some?) && newTopic !in tx.work.topics
      modifies tx
      ensures r.Ok? ==> BranchRefusal(env, old(tx.work), channel, b).None?
      ensures r.Ok? ==>
        var s := old(tx.work);
        var prepared, to := Prepared(env, s, channel, b, newTopic), Destination(b, newTopic);
        && b.from in s.topics && b.from in prepared.topics && to in prepared.topics
        && r.value == (s.topics[b.from], prepared.topics[to])
        && tx.work == WithMove(prepared, channel, b.from, to, b.messages).(last := s.last + 2)
      ensures r.Err? && r.fault != Broken ==> r.fault.Rule? && BranchRefusal(env, old(tx.work), channel, b) == Some(r.fault.error)
    {
      hide NameTaken, Previous, WithMove, BranchRefusal, Prepared, ValidBranch, Conflicts, Destination, WithTopic, Distinct, HasTopic;
      ghost var s := tx.work;
      var moveSeq :- tx.NextEventSeq();
      var noticeSeq :- tx.NextEventSeq();
      Refusals(env, s, tx.work, channel, b);
      PreparedLater(env, s, channel, b, newTopic);
      var source :- tx.GetTopic(channel, b.from);
      var destination :- Destine(tx, channel, b, newTopic);
      SameMessages(s, tx.work, channel, b.from, b.messages);
      var _ :- Move(tx, channel, b.from, Destination(b, newTopic), b.messages, moveSeq);
      return Ok((source, destination));
    }

    method Reopen(tx: Tx, channel: nat, t: nat) returns (r: Result<nat>)
      requires t in tx.work.topics
      modifies tx
      ensures r.Ok? ==> tx.work == WithConclusion(old(tx.work), channel, t, 0) && r.value == tx.work.last
      ensures r.Err? ==> r.fault == Broken
    {
      var _ :- tx.SetTopicConclusion(t, 0);
      var at :- tx.NextEventSeq();
      var _ :- tx.Append(at, ResolutionChanged(channel, t));
      return Ok(at);
    }

    /** run's closure: the move, the notice, and the reopening when the source's
        conclusion moved. */
    method BranchTx(tx: Tx, channel: nat, member: nat, b: Branch, newTopic: nat, notice: nat) returns (r: Result<nat>)
      requires ValidBranch(b) && (b.to.None? ==> env.topicName(b.newName).Some?)
      requires newTopic !in tx.work.topics && notice !in tx.work.messages
      modifies tx
      ensures r.Ok? ==> BranchRefusal(env, old(tx.work), channel, b).None? && r.value == tx.work.last
      ensures r.Ok? ==> tx.work == Branched(env, old(tx.work), channel, member, b, newTopic, notice)
      ensures r.Err? && r.fault != Broken ==> r.fault.Rule? && BranchRefusal(env, old(tx.work), channel, b) == Some(r.fault.error)
    {
      hide NameTaken, Previous, Notice, WithMove, WithMessage, WithConclusion, Branched, BranchRefusal, Prepared, ValidBranch;
      ghost var s := tx.work;
      var found :- BranchMove(tx, channel, b, newTopic);
      ghost var to, prepared := Destination(b, newTopic), Prepared(env, s, channel, b, newTopic);
      ghost var moved := WithMove(prepared, channel, b.from, to, b.messages);
      PreparedLater(env, s, channel, b, newTopic);
      MoveShape(prepared, channel, b.from, to, b.messages);
      assert tx.work.(last := s.last + 1) == moved && tx.work.messages == moved.messages;
      var m := Notice(env, channel, b.from, member, found.1.name);
      NoticeShape(env, channel, b.from, member, found.1.name);
      var noticeSeq := tx.work.last;
      var _ :- PostMessage(tx, notice, m, noticeSeq);
      PostShape(moved, notice, m, Previous(moved.messages, channel, noticeSeq));
      BranchedIs(env, s, channel, member, b, newTopic, notice);
      if found.0.conclusion != 0 && found.0.conclusion in b.messages {
        noticeSeq :- Reopen(tx, channel, b.from);
      }
      return Ok(noticeSeq);
    }

    method Branch(channel: nat, member: nat, b: Branch, newTopic: nat, notice: nat) returns (answer: Answer)
      requires Valid() && Enabled(db, BranchOff(channel, member, b, newTopic, notice))
      modifies this`db, this`raised
      ensures Valid() && Step(env, old(View()), BranchOff(channel, member, b, newTopic, notice), answer, View())
    {
      hide Inv, Branched, BranchRefusal, ValidBranch;
      var valid := ValidateBranch(b);
      if !valid || (b.to.None? && env.topicName(b.newName).None?) {
        Unusable(env, db, channel, b);
        return Refused(if !valid then InvalidBranch else InvalidTopicName);
      }
      var tx := new Tx(db);
      var r := BranchTx(tx, channel, member, b, newTopic, notice);
      if r.Err? {
        return if r.fault.Rule? then Refused(r.fault.error) else Failed;
      }
      OutcomeKept(env, db, BranchOff(channel, member, b, newTopic, notice));
      var done := Done(Destination(b, newTopic), notice, false);
      answer := Commit(tx, done);
      if answer == done {
        Raise(r.value);
      }
    }

    // ----- resolving -----

    /** change's closure. Ok(0) is its sentinel: nothing to change. */
    method ResolveTx(tx: Tx, channel: nat, t: nat, message: Option<nat>) returns (r: Result<nat>)
      modifies tx
      ensures r.Ok? ==> ResolveRefusal(old(tx.work), channel, 1, t, message).None?
      ensures r.Ok? ==>
        var conclusion := if message.Some? then message.value else 0;
        if r.value == 0 then old(tx.work).topics[t].conclusion == conclusion
        else old(tx.work).topics[t].conclusion != conclusion && tx.work == WithConclusion(old(tx.work), channel, t, conclusion) && r.value == tx.work.last
      ensures r.Err? && r.fault != Broken ==> r.fault.Rule? && ResolveRefusal(old(tx.work), channel, 1, t, message) == Some(r.fault.error)
    {
      var at :- tx.NextEventSeq();
      var topic :- tx.GetTopic(channel, t);
      var conclusion := 0;
      if message.Some? {
        if topic.isDefault {
          return Err(Rule(DefaultTopicResolution));
        }
        var chosen :- tx.QuotedMessage(channel, message.value, MessageNotFound);
        if chosen.topic != t {
          return Err(Rule(ConclusionConflict));
        }
        conclusion := message.value;
      }
      if conclusion == topic.conclusion {
        return Ok(0);
      }
      var _ :- tx.SetTopicConclusion(t, conclusion);
      var _ :- tx.Append(at, ResolutionChanged(channel, t));
      return Ok(at);
    }

    method Resolve(channel: nat, member: nat, t: nat, message: Option<nat>) returns (answer: Answer)
      requires Valid()
      modifies this`db, this`raised
      ensures Valid() && Step(env, old(View()), Op.Resolve(channel, member, t, message), answer, View())
    {
      hide Inv, WithConclusion;
      if member == 0 {
        return Refused(NotFound);
      }
      var tx := new Tx(db);
      var r := ResolveTx(tx, channel, t, message);
      if r.Err? {
        return if r.fault.Rule? then Refused(r.fault.error) else Failed;
      }
      var done := Done(t, if message.Some? then message.value else 0, false);
      if r.value == 0 {
        return done;
      }
      OutcomeKept(env, db, Op.Resolve(channel, member, t, message));
      answer := Commit(tx, done);
      if answer == done {
        Raise(r.value);
      }
    }

    // ----- pinning -----

    method PinTx(tx: Tx, channel: nat, member: nat, id: nat, pin: bool) returns (r: Result<nat>)
      requires member != 0
      modifies tx
      ensures r.Ok? ==> PinRefusal(old(tx.work), channel, member, id, pin).None?
      ensures r.Ok? ==>
        if r.value == 0 then pin == (id in old(tx.work).pins)
        else pin != (id in old(tx.work).pins) && r.value == tx.work.last
             && tx.work == WithPins(old(tx.work), channel, id, if pin then old(tx.work).pins[id := member] else old(tx.work).pins - {id})
      ensures r.Err? && r.fault != Broken ==> r.fault.Rule? && PinRefusal(old(tx.work), channel, member, id, pin) == Some(r.fault.error)
    {
      hide PinsIn;
      var at :- tx.NextEventSeq();
      var _ :- tx.GetDefaultTopic(channel);
      var _ :- tx.QuotedMessage(channel, id, MessageNotFound);
      if pin == (id in tx.work.pins) {
        return Ok(0);
      }
      if pin {
        var count :- tx.CountChannelPins(channel);
        if count >= MAX_PINS {
          return Err(Rule(PinLimit));
        }
        var _ :- tx.SetPins(tx.work.pins[id := member]);
      } else {
        var _ :- tx.SetPins(tx.work.pins - {id});
      }
      var _ :- tx.Append(at, PinsChanged(channel, id));
      return Ok(at);
    }

    method SetPin(channel: nat, member: nat, id: nat, pin: bool) returns (answer: Answer)
      requires Valid()
      modifies this`db, this`raised
      ensures Valid() && Step(env, old(View()), Op.SetPin(channel, member, id, pin), answer, View())
    {
      hide Inv, WithPins, PinsIn;
      if member == 0 {
        return Refused(NotFound);
      }
      var tx := new Tx(db);
      var r := PinTx(tx, channel, member, id, pin);
      if r.Err? {
        return if r.fault.Rule? then Refused(r.fault.error) else Failed;
      }
      var done := Done(0, id, false);
      if r.value == 0 {
        return done;
      }
      OutcomeKept(env, db, Op.SetPin(channel, member, id, pin));
      answer := Commit(tx, done);
      if answer == done {
        Raise(r.value);
      }
    }

    // ----- posting -----

    /** The requested place: default, then the answered topic, then the given one. */
    method FindPlace(tx: Tx, channel: nat, r: Request) returns (place: Result<nat>)
      requires Inv(tx.work.(last := |tx.work.log|), env.lower)
      ensures place.Ok? ==> PlaceRefusal(tx.work, channel, r).None? && place.value == Requested(tx.work, channel, r)
      ensures place.Err? && place.fault != Broken ==> place.fault.Rule? && PlaceRefusal(tx.work, channel, r) == Some(place.fault.error)
    {
      hide Inv;
      var t :- tx.GetDefaultTopic(channel);
      if r.reply.Some? {
        var original :- tx.QuotedMessage(channel, r.reply.value, MessageNotFound);
        TopicOfMessage(tx.work.(last := |tx.work.log|), env.lower, r.reply.value);
        var _ :- tx.GetTopic(channel, original.topic);
        t := original.topic;
      }
      if r.topic.Some? {
        var _ :- tx.GetTopic(channel, r.topic.value);
        t := r.topic.value;
      }
      return Ok(t);
    }

    /** quoteOf's text of the original, with the references as given. */
    method Excerpt(r: Request, references: T.Names, body: string) returns (text: Option<string>)
      ensures text == Quoted(env, references, r, body)
    {
      var shown := T.EntryText(env.texts, references, r.unknown, body);
      if r.part.None? {
        return T.Valid(env.texts, shown);
      }
      var chosen := T.Valid(env.texts, r.part.value);
      return if chosen.Some? && T.Occurs(chosen.value, shown) then chosen else None;
    }

    method FindQuote(tx: Tx, channel: nat, r: Request, references: T.Names) returns (quote: Result<Option<Quote>>)
      ensures quote.Ok? ==> QuoteRefusal(env, references, tx.work, channel, r).None? && quote.value == QuoteOf(env, references, tx.work, r)
      ensures quote.Err? && quote.fault != Broken ==>
        quote.fault.Rule? && QuoteRefusal(env, references, tx.work, channel, r) == Some(quote.fault.error)
    {
      if r.quote.None? {
        return Ok(None);
      }
      hide Quoted;
      var original :- tx.QuotedMessage(channel, r.quote.value, QuoteNotFound);
      var text := Excerpt(r, references, original.body);
      return if text.None? then Err(Rule(InvalidBody)) else Ok(Some(Quote(r.quote.value, text.value)));
    }

    /** Send's closure; `place` is what it found when it found the key taken. */
    method InsertTx(tx: Tx, channel: nat, member: nat, r: Request, draft: Draft, id: nat) returns (result: Result<nat>, place: nat)
      requires Inv(tx.work, env.lower) && id !in tx.work.messages
      modifies tx
      ensures var outcome := InsertOutcome(env, old(tx.work), channel, member, r, draft, id);
              && (result.Ok? ==> outcome == Commits(tx.work, Done(place, id, false)) && result.value == tx.work.last)
              && (result.Err? && result.fault != Broken ==> outcome == Keeps(Answered(result.fault, place)))
    {
      hide Inv, PlaceRefusal, QuoteRefusal, QuoteOf, Requested, Previous, WithMessage, Typed;
      ghost var s := tx.work;
      place := 0;
      var at := tx.NextEventSeq();
      if at.Err? {
        return Err(Broken), place;
      }
      if r.cursor.Some? && r.cursor.value >= at.value {
        return Err(Rule(InvalidPostCursor)), place;
      }
      SequenceOnly(env, draft.quoted, s, tx.work, channel, r);
      var found := FindPlace(tx, channel, r);
      if found.Err? {
        return Err(found.fault), place;
      }
      place := found.value;
      var quote := FindQuote(tx, channel, r, draft.quoted);
      if quote.Err? {
        return Err(quote.fault), place;
      }
      var proof := if r.key.Some? then env.prove(Typed(env, r)) else 0;
      var m := Message(channel, place, member, draft.body, 0, 0, r.key, proof, quote.value, r.reply);
      assert m == Composed(env, s, channel, member, r, draft, place);
      var posted := PostMessage(tx, id, m, at.value);
      assert tx.work.last == s.last + 1 || posted.Err? by { PostShape(s, id, m, Previous(s.messages, channel, s.last + 1)); }
      result := if posted.Ok? then Ok(at.value) else Err(posted.fault);
    }

    method Insert(channel: nat, member: nat, r: Request, draft: Draft, id: nat) returns (answer: Answer)
      requires Valid() && Enabled(db, Op.Insert(channel, member, r, draft, id))
      modifies this`db, this`raised
      ensures Valid() && Step(env, old(View()), Op.Insert(channel, member, r, draft, id), answer, View())
      ensures answer == Unknown ==> InsertOutcome(env, old(db), channel, member, r, draft, id).Commits?
    {
      hide Inv, InsertOutcome, T.Unique;
      var tx := new Tx(db);
      var result, place := InsertTx(tx, channel, member, r, draft, id);
      if result.Err? {
        return Answered(result.fault, place);
      }
      OutcomeKept(env, db, Op.Insert(channel, member, r, draft, id));
      var done := Done(place, id, false);
      answer := Commit(tx, done);
      if answer == done {
        Raise(result.value);
      }
    }

    // ----- what others do meanwhile -----

    /** ChangeHandle, or a member who joins. */
    method SetHandle(named: P.ID, handle: string) returns (answer: Answer)
      requires Valid()
      modifies this`names
      ensures Valid() && Step(env, old(View()), Op.SetHandle(named, handle), answer, View())
    {
      hide Inv;
      var works: bool, known: bool := *, *;
      if !works {
        return if known then Failed else Unknown;
      }
      if HandleTakenBy(env, names, named, handle) {
        return Refused(HandleTaken);
      }
      names := names[named := handle];
      return if known then Done(0, 0, false) else Unknown;
    }

    /** Whatever anybody does, with another identifier than the one given out. */
    method Other(op: Op, id: nat)
      requires Valid() && Recorded() && id !in db.messages
      modifies this
      ensures Valid() && Recorded() && id !in db.messages && old(past) <= past
    {
      hide Inv, Step, Grown, T.Unique;
      var answer := Failed;
      ghost var before := View();
      match op
      case BranchOff(channel, member, b, newTopic, notice) =>
        if newTopic !in db.topics && notice != 0 && notice !in db.messages && notice != id {
          answer := Branch(channel, member, b, newTopic, notice);
          Stepped(env, before, op, answer, View(), id);
          Record(op, answer);
        }
      case Resolve(channel, member, t, message) =>
        answer := Resolve(channel, member, t, message);
        Stepped(env, before, op, answer, View(), id);
        Record(op, answer);
      case SetPin(channel, member, message, pin) =>
        answer := SetPin(channel, member, message, pin);
        Stepped(env, before, op, answer, View(), id);
        Record(op, answer);
      case Insert(channel, member, r, draft, x) =>
        if x != 0 && x !in db.messages && x != id {
          answer := Insert(channel, member, r, draft, x);
          Stepped(env, before, op, answer, View(), id);
          Record(op, answer);
        }
      case SetHandle(named, handle) =>
        answer := SetHandle(named, handle);
        Stepped(env, before, op, answer, View(), id);
        Record(op, answer);
      case _ =>
    }

    /** Any number of other transactions. */
    method Others(id: nat)
      requires Valid() && Recorded() && id !in db.messages
      modifies this
      ensures Valid() && Recorded() && id !in db.messages && old(past) <= past
    {
      hide Inv, Path, T.Unique;
      var turns: nat := *;
      while turns > 0
        invariant Valid() && Recorded() && id !in db.messages && old(past) <= past
      {
        var op: Op := *;
        Other(op, id);
        turns := turns - 1;
      }
    }

    // ----- sending -----

    /** repeat: a transaction that only reads, and then, others in between, the
        references of the message quoted, from the directory there is then. */
    method Repeat(channel: nat, member: nat, r: Request, requested: Option<nat>, id: nat) returns (answer: Answer)
      requires Valid() && Recorded() && id !in db.messages
      modifies this
      ensures Valid() && Recorded() && id !in db.messages && old(past) <= past
      ensures answer == Failed || RepeatOutcome(env, old(db), channel, member, r, NamesFor(View(), channel, r), requested) == Keeps(answer)
    {
      hide Inv, PlaceRefusal, Requested, Quoted, Path, Since, T.Unique, T.Valid, T.Occurs, T.Segments;
      ghost var start: nat := |past| - 1;
      var tx := new Tx(db);
      var works: bool := *;
      if !works {
        return Failed;
      }
      if r.key.None? || (member, r.key.value) !in tx.work.keys || tx.work.keys[(member, r.key.value)] !in tx.work.messages {
        return Refused(MessageNotFound);
      }
      var first := tx.work.keys[(member, r.key.value)];
      var stored := tx.work.messages[first];
      var place := requested;
      if requested.None? {
        assert Inv(tx.work.(last := |tx.work.log|), env.lower) by { LastIsLength(db, env.lower); }
        var found := FindPlace(tx, channel, r);
        if found.Err? {
          return Answered(found.fault, 0);
        }
        place := Some(found.value);
      }
      var text := None;
      if r.quote.Some? {
        var original := tx.QuotedMessage(channel, r.quote.value, QuoteNotFound);
        if original.Err? {
          return Answered(original.fault, 0);
        }
        Others(id);
        PathSince(env, past, start, |past| - 1);
        OriginalStays(env, past[start], View(), r.quote.value);
        works := *;
        if !works {
          return Failed;
        }
        text := Excerpt(r, NamesFor(World(db, names, raised), channel, r), original.value.body);
        if text.None? {
          return Refused(InvalidBody);
        }
      }
      var same := env.prove(Typed(env, r)) == stored.proof && stored.channel == channel && SameQuoted(stored.quote, r.quote) && stored.reply == r.reply;
      if !same || (text.Some? && stored.quote.value.text != text.value) {
        return Refused(PostKeyReused);
      }
      return Done(place.value, first, true);
    }

    /** What is made of the typed body before the transaction: handles converted
        with the directory of the start, and its references checked with that
        of the end. */
    method DraftBody(r: Request, tokens: seq<MentionRewrite.Place>, id: nat) returns (body: Option<string>, fails: bool)
      requires Valid() && Recorded() && id !in db.messages
      requires T.Valid(env.texts, r.text).Some? && tokens == T.Typed(env.texts, Typed(env, r))
      modifies this
      ensures Valid() && Recorded() && id !in db.messages && old(past) <= past
      ensures !fails && body.Some? ==>
        T.Valid(env.texts, T.Converted(env.texts, old(names), Typed(env, r))) == body && KnowsAll(env, View(), body.value)
      ensures !fails && body.None? ==>
        var drafted := T.Valid(env.texts, T.Converted(env.texts, old(names), Typed(env, r)));
        drafted.Some? ==> !KnowsAll(env, View(), drafted.value)
    {
      hide Inv, Path, T.Valid, T.Segments, T.Mentioned, T.Typed;
      T.ValidTwice(env.texts, r.text);
      var typed := T.Valid(env.texts, r.text).value;
      var converted := typed;
      if tokens != [] {
        var works: bool := *;
        if !works {
          return None, true;
        }
        converted := ConvertHandles(typed, tokens);
      } else {
        T.NothingTyped(env.texts, names, typed);
      }
      body := T.Valid(env.texts, converted);
      fails := false;
      if body.Some? {
        Others(id);
        var ids := T.Mentioned(T.Segments(env.texts, body.value));
        if ids != {} {
          var works: bool := *;
          fails := !works;
        }
        if !(ids <= names.Keys) {
          body := None;
        }
      }
    }

    method ConvertHandles(typed: string, tokens: seq<MentionRewrite.Place>) returns (converted: string)
      requires T.Unique(names, env.texts.lower) && tokens == T.Typed(env.texts, typed)
      ensures converted == T.Converted(env.texts, names, typed)
    {
      var index := T.ByHandle(names, env.texts.lower);
      var lookup := T.Lookup(index, env.texts.lower);
      ghost var dir := MentionBody.Directory(lookup, env.texts.reserved);
      hide MentionRewrite.Places, MentionBody.ConvertBody, T.Lookup, T.Unique;
      MentionRewrite.PlacesIgnoreLookup(env.texts.cls, ChatBlocks.Lines(typed), 0, T.NoOne(env.texts), dir);
      MentionRewrite.OnePassIsLineByLine(env.texts.cls, typed, dir);
      converted := MentionRewrite.ReplaceHandles(env.texts.cls, typed, tokens, lookup);
    }

    /** A repeat by itself; what it finds is still there when it answers. */
    method Look(channel: nat, member: nat, r: Request, requested: Option<nat>, id: nat, ghost before: Option<Earlier>) returns (answer: Answer)
      requires Valid() && Recorded() && id !in db.messages
      requires before.Some? ==> IsEarlier(env, before.value, channel, member, r, View())
      modifies this
      ensures Valid() && Recorded() && id !in db.messages && old(past) <= past
      ensures answer.Failed? || answer.Refused? || (answer.Done? && answer.repeat && IsStored(env, channel, member, r, answer.message, db))
      ensures before.Some? && answer != Failed ==> Resent(env, before.value, channel, r, View(), answer)
    {
      hide Inv, Path, T.Unique, RepeatOutcome, IsEarlier, IsStored, Resent, NamesFor;
      ghost var start: nat := |past| - 1;
      Others(id);
      if before.Some? {
        EarlierLater(env, before.value, channel, member, r, past, start, |past| - 1);
      }
      ghost var found: nat := |past| - 1;
      answer := Repeat(channel, member, r, requested, id);
      if answer != Failed {
        RepeatAnswers(env, past[found].db, channel, member, r, NamesFor(View(), channel, r), requested);
        if answer.Done? {
          PathSince(env, past, found, |past| - 1);
          StoredStays(env, channel, member, r, answer.message, past[found], View());
        }
        if before.Some? {
          EarlierFound(env, before.value, channel, member, r, past[found], View(), requested, answer);
        }
      }
    }

    /** The references a quote is resolved with, read before the transaction. */
    method References(channel: nat, r: Request, id: nat) returns (references: Option<T.Names>)
      requires Valid() && Recorded() && id !in db.messages
      modifies this
      ensures Valid() && Recorded() && id !in db.messages && old(past) <= past
      ensures references.Some? ==> references.value == NamesFor(View(), channel, r)
    {
      hide Inv, Path, T.Unique;
      if r.quote.None? {
        return Some(map[]);
      }
      Others(id);
      var works: bool := *;
      return if works then Some(NamesFor(World(db, names, raised), channel, r)) else None;
    }

    /** Send: with typed handles and a key first looks for a repeat; then drafts
        the body, reads the quote's references and inserts; and answers a key
        taken with the stored message. Others act between all of these. A new
        message is that of one history step with a draft of this call. `before`
        is an earlier committed send of this request, if there was one: then
        nothing is posted, and unless a store call failed the answer is that
        message, except that its quote read otherwise, or not at all, in the
        world `at` that this call passed. */
    method Send(channel: nat, member: nat, r: Request, id: nat, ghost before: Option<Earlier>) returns (answer: Answer, ghost at: nat)
      requires Valid() && Recorded() && id != 0 && id !in db.messages
      requires before.Some? ==> IsEarlier(env, before.value, channel, member, r, View())
      modifies this
      ensures Valid() && Recorded() && old(past) <= past && |old(past)| - 1 <= at < |past| && !answer.KeyTaken?
      ensures answer.Done? && answer.repeat ==> id !in db.messages && IsStored(env, channel, member, r, answer.message, db)
      ensures answer.Done? && !answer.repeat ==> IsPosted(env, channel, member, r, id, past, |old(past)| - 1, answer)
      ensures answer.Refused? ==> id !in db.messages
      ensures before.Some? && answer != Failed ==> Resent(env, before.value, channel, r, past[at], answer)
    {
      hide Inv, Path, T.Unique, IsEarlier, IsStored, IsPosted, Resent, T.Valid, T.Typed, T.Segments, T.Mentioned, Typed, Step, InsertOutcome,
           NamesFor, Since, Moves, Grown, RepeatOutcome, QuotedAgain, SentBefore, KnowsAll, Drafts;
      ghost var start: nat := |past| - 1;
      at := start;
      if before.Some? {
        EarlierChecks(env, before.value, channel, member, r, View());
      }
      if r.cursor.Some? && (r.cursor.value < 0 || r.cursor.value >= CURSOR_LIMIT) {
        return Refused(InvalidPostCursor), at;
      }
      var typed := T.Valid(env.texts, r.text);
      if typed.None? {
        return Refused(InvalidBody), at;
      }
      TypedIs(env, r);
      var tokens := MentionRewrite.HandleTokens(env.texts.cls, typed.value, T.NoOne(env.texts));
      assert tokens == T.Typed(env.texts, typed.value) by { TokensAre(env.texts, typed.value); }
      if tokens != [] && r.key.Some? {
        answer := Look(channel, member, r, None, id, before);
        at := |past| - 1;
        if before.Some? && answer != Failed {
          ResentIsFound(env, before.value, channel, r, past[at], answer);
        }
        if answer != Refused(MessageNotFound) {
          return;
        }
      }
      answer, at := Compose(channel, member, r, tokens, id, before, start);
    }

    /** The rest of Send, when no repeat has answered: the draft, and the
        transaction with it. */
    method Compose(channel: nat, member: nat, r: Request, tokens: seq<MentionRewrite.Place>, id: nat, ghost before: Option<Earlier>, ghost start: nat)
      returns (answer: Answer, ghost at: nat)
      requires Valid() && Recorded() && id != 0 && id !in db.messages && start < |past|
      requires T.Valid(env.texts, r.text).Some? && tokens == T.Typed(env.texts, Typed(env, r))
      requires before.Some? ==> tokens == [] && IsEarlier(env, before.value, channel, member, r, past[start])
      modifies this
      ensures Valid() && Recorded() && old(past) <= past && start <= at < |past| && !answer.KeyTaken?
      ensures answer.Done? && answer.repeat ==> id !in db.messages && IsStored(env, channel, member, r, answer.message, db)
      ensures answer.Done? && !answer.repeat ==> IsPosted(env, channel, member, r, id, past, start, answer)
      ensures answer.Refused? ==> id !in db.messages
      ensures before.Some? && answer != Failed ==> Resent(env, before.value, channel, r, past[at], answer)
    {
      hide Inv, Path, T.Unique, IsEarlier, IsStored, IsPosted, Resent, T.Valid, T.Typed, T.Segments, T.Mentioned, Typed, KnowsAll, Drafts, NamesFor;
      ghost var a: nat := |past| - 1;
      at := a;
      var body, fails := DraftBody(r, tokens, id);
      ghost var b: nat := |past| - 1;
      if fails {
        return Failed, at;
      }
      if before.Some? {
        EarlierLater(env, before.value, channel, member, r, past, start, b);
        EarlierBody(env, before.value, channel, member, r, past[a], past[b], tokens);
      }
      if body.None? {
        return Refused(InvalidBody), at;
      }
      var references := References(channel, r, id);
      if references.None? {
        return Failed, at;
      }
      var draft := Draft(body.value, references.value);
      DraftedNow(env, past[a], past[b], View(), channel, r, draft);
      answer, at := Post(channel, member, r, draft, id, before, start, a, b);
    }

    /** The transaction, and the repeat if it finds the key taken. The draft is
        of the worlds passed at `a`, `b` and now. */
    method Post(channel: nat, member: nat, r: Request, draft: Draft, id: nat, ghost before: Option<Earlier>,
                ghost start: nat, ghost a: nat, ghost b: nat) returns (answer: Answer, ghost at: nat)
      requires Valid() && Recorded() && id != 0 && id !in db.messages && start <= a <= b < |past|
      requires Drafts(env, past[a], past[b], View(), channel, r, draft) && draft.quoted == NamesFor(View(), channel, r)
      requires before.Some? ==> IsEarlier(env, before.value, channel, member, r, past[start])
      modifies this
      ensures Valid() && Recorded() && old(past) <= past && |old(past)| - 1 <= at < |past| && !answer.KeyTaken?
      ensures answer.Done? && answer.repeat ==> id !in db.messages && IsStored(env, channel, member, r, answer.message, db)
      ensures answer.Done? && !answer.repeat ==> IsPosted(env, channel, member, r, id, past, start, answer)
      ensures answer.Refused? ==> id !in db.messages
      ensures before.Some? && answer != Failed ==> Resent(env, before.value, channel, r, past[at], answer)
    {
      hide Inv, Path, T.Unique, IsEarlier, IsStored, IsPosted, Resent, Step, InsertOutcome, Drafts, NamesFor;
      at := |past| - 1;
      Others(id);
      ghost var i: nat, op := |past| - 1, Op.Insert(channel, member, r, draft, id);
      if before.Some? {
        EarlierLater(env, before.value, channel, member, r, past, start, i);
        EarlierInsert(env, before.value, channel, member, r, past[i], past[at], draft, id);
      }
      answer := Insert(channel, member, r, draft, id);
      InsertAnswers(env, past[i].db, channel, member, r, draft, id);
      Inserted(env, past[i], channel, member, r, draft, id, answer, View());
      Record(op, answer);
      if answer.Done? {
        PostedIs(env, channel, member, r, id, past, start, a, b, at, i, draft, answer);
      }
      if answer.KeyTaken? {
        if before.Some? {
          EarlierLater(env, before.value, channel, member, r, past, start, |past| - 1);
        }
        answer := Look(channel, member, r, Some(answer.topic), id, before);
        at := |past| - 1;
      }
    }
  }

  /** sameQuote: what was quoted then is what the request quotes. */
  predicate SameQuoted(stored: Option<Quote>, requested: Option<nat>) {
    if stored.None? || requested.None? then stored.None? && requested.None? else stored.value.message == requested.value
  }

  /** Each world follows from the one before by one operation. */
  ghost predicate Moves(env: Env, w: World, v: World) {
    exists op, answer :: Enabled(w.db, op) && Step(env, w, op, answer, v)
  }

  ghost predicate Path(env: Env, worlds: seq<World>) {
    var n := |worlds|;
    n > 0 && (n > 1 ==> Path(env, worlds[..n - 1]) && Moves(env, worlds[n - 2], worlds[n - 1]))
  }

  /** What anybody may have done in between: nothing is lost, and no member
      leaves the directory. */
  ghost predicate Since(env: Env, w: World, v: World) {
    Grown(w.db, v.db) && w.names.Keys <= v.names.Keys
  }

  lemma {:induction false} PathSince(env: Env, worlds: seq<World>, i: nat, j: nat)
    requires Path(env, worlds) && i <= j < |worlds|
    ensures Since(env, worlds[i], worlds[j])
  {
    hide Since, Step, Enabled;
    var n := |worlds|;
    if i == j {
      SinceItself(env, worlds[i]);
    } else if j == n - 1 {
      PathSince(env, worlds[..n - 1], i, j - 1);
      var op, answer :| Enabled(worlds[n - 2].db, op) && Step(env, worlds[n - 2], op, answer, worlds[n - 1]);
      StepSince(env, worlds[n - 2], op, answer, worlds[n - 1]);
      SinceTwice(env, worlds[i], worlds[j - 1], worlds[j]);
    } else {
      PathSince(env, worlds[..n - 1], i, j);
    }
  }

  lemma StepSince(env: Env, w: World, op: Op, answer: Answer, v: World)
    requires Enabled(w.db, op) && Step(env, w, op, answer, v)
    ensures Since(env, w, v)
  {
    hide OutcomeOf, HandleTakenBy, Grown, Enabled;
    GrownStep(env, w, op, answer, v);
  }

  lemma SinceItself(env: Env, w: World)
    ensures Since(env, w, w)
  {
    GrownSame(w.db);
  }

  lemma SinceTwice(env: Env, w: World, v: World, u: World)
    requires Since(env, w, v) && Since(env, v, u)
    ensures Since(env, w, u)
  {
    hide Grown;
    GrownTwice(w.db, v.db, u.db);
  }

  lemma Stepped(env: Env, w: World, op: Op, answer: Answer, v: World, id: nat)
    requires Enabled(w.db, op) && Step(env, w, op, answer, v) && id !in w.db.messages
    requires op.BranchOff? ==> op.notice != id
    requires op.Insert? ==> op.id != id
    ensures id !in v.db.messages
  {
    hide OutcomeOf, HandleTakenBy, Enabled;
    if !op.SetHandle? && OutcomeOf(env, w.db, op).Commits? {
      OutcomeIds(env, w.db, op, id);
    }
  }

  /** A step adds no message but its own. */
  lemma OutcomeIds(env: Env, s: Db, op: Op, id: nat)
    requires Enabled(s, op) && OutcomeOf(env, s, op).Commits? && id !in s.messages
    requires op.BranchOff? ==> op.notice != id
    requires op.Insert? ==> op.id != id
    ensures id !in OutcomeOf(env, s, op).db.messages
  {
    hide BranchRefusal, PinRefusal, ResolveRefusal, PlaceRefusal, QuoteRefusal, Previous, Branched, InsertOutcome, Requested, Grown;
    match op
    case BranchOff(channel, member, b, newTopic, notice) =>
      SelectionExists(env, s, channel, b);
      PreparedShape(env, s, channel, b, newTopic);
      BranchShape(env, s, channel, member, b, newTopic, notice);
      MovedBodies(s.messages, b.messages, Destination(b, newTopic), Prepared(env, s, channel, b, newTopic).last + 1);
    case Insert(channel, member, r, draft, x) => InsertedShape(env, s, channel, member, r, draft, x);
    case Resolve(channel, member, t, message) => ResolvedTopic(s, channel, member, t, message);
    case _ =>
  }

  /** A message that others leave is still quoted with the same body. */
  lemma OriginalStays(env: Env, w: World, v: World, id: nat)
    requires Since(env, w, v) && id in w.db.messages
    ensures id in v.db.messages && v.db.messages[id].body == w.db.messages[id].body && v.db.messages[id].channel == w.db.messages[id].channel
  {
  }

  const CURSOR_LIMIT := 0x7fff_ffff_ffff_ffff - 1

  /** A committed send into `db`, as message `id`. */
  datatype Earlier = Earlier(db: Db, request: Request, draft: Draft, id: nat)

  ghost predicate IsEarlier(env: Env, e: Earlier, channel: nat, member: nat, r: Request, now: World) {
    && SameRequest(e.request, r) && SentBefore(env, e.db, channel, member, e.request, e.draft, e.id, now)
    && (r.cursor.Some? ==> 0 <= r.cursor.value < CURSOR_LIMIT)
  }

  /** The directory a request's quote is resolved with in a world. */
  function NamesFor(w: World, channel: nat, r: Request): T.Names {
    if r.quote.Some? then QuoteNames(w, channel, r.quote.value) else map[]
  }

  /** The answer to the request sent again: the stored message if what it quotes
      reads as stored with the directory of the world seen, and else why not. */
  ghost predicate Resent(env: Env, e: Earlier, channel: nat, again: Request, seen: World, answer: Answer) {
    && (e.request.quote.Some? ==> e.request.quote.value in e.db.messages)
    && Answers(Keeps(answer), e.id, None, QuotedAgain(env, e.db, e.request, e.draft, again, NamesFor(seen, channel, again)))
  }

  /** In this world what the request quotes reads as it was stored. */
  ghost predicate ReadsAsStored(env: Env, e: Earlier, channel: nat, again: Request, w: World)
    requires e.request.quote.Some? ==> e.request.quote.value in e.db.messages
  {
    e.request.quote.Some? ==>
      var body := e.db.messages[e.request.quote.value].body;
      Quoted(env, NamesFor(w, channel, again), again, body) == Quoted(env, e.draft.quoted, e.request, body)
  }

  /** What Send's answer comes to: the stored message exactly if the quote read
      as stored in the world seen. */
  lemma AnswersAsRead(env: Env, e: Earlier, channel: nat, member: nat, r: Request, start: World, seen: World, answer: Answer)
    requires IsEarlier(env, e, channel, member, r, start) && Resent(env, e, channel, r, seen, answer)
    ensures ReadsAsStored(env, e, channel, r, seen) <==> answer.Done?
    ensures answer.Done? ==> answer.repeat && answer.message == e.id
    ensures !answer.Done? ==> answer == Refused(InvalidBody) || answer == Refused(PostKeyReused)
  {
    hide Quoted, NamesFor, InsertOutcome, QuoteRefusal, Inv, Grown, T.Segments, T.Mentioned, T.Valid, T.Converted, T.Unique;
    if r.quote.Some? {
      EarlierQuote(env, e, channel, member, r, start);
    }
  }

  lemma EarlierQuote(env: Env, e: Earlier, channel: nat, member: nat, r: Request, w: World)
    requires IsEarlier(env, e, channel, member, r, w) && r.quote.Some?
    ensures HasMessage(e.db, channel, r.quote.value) && Quoted(env, e.draft.quoted, e.request, e.db.messages[r.quote.value].body).Some?
  {
    hide Quoted, InsertOutcome, Inv, Grown, T.Segments, T.Mentioned, T.Valid, T.Converted, T.Unique;
    InsertedShape(env, e.db, channel, member, e.request, e.draft, e.id);
  }

  function HandleOf(names: T.Names, m: P.ID): Option<string> {
    if m in names then Some(names[m]) else None
  }

  /** In this world nobody whom the quoted message mentions has another handle
      than the earlier send went by. */
  ghost predicate HandlesKept(env: Env, e: Earlier, w: World) {
    e.request.quote.Some? && e.request.quote.value in e.db.messages ==>
      forall m :: m in T.Mentioned(T.Segments(env.texts, e.db.messages[e.request.quote.value].body)) ==>
        HandleOf(w.names, m) == HandleOf(e.draft.quoted, m)
  }

  /** So if in no world that a send passed somebody whom the quoted message
      mentions has another handle, a request sent again from the same locale is
      answered with the stored message, unless a call of the store failed. */
  lemma UnchangedHandlesAnswer(env: Env, e: Earlier, channel: nat, member: nat, worlds: seq<World>, start: nat, at: nat, answer: Answer)
    requires Path(env, worlds) && start <= at < |worlds|
    requires IsEarlier(env, e, channel, member, e.request, worlds[start]) && Resent(env, e, channel, e.request, worlds[at], answer)
    requires forall i :: start <= i < |worlds| ==> HandlesKept(env, e, worlds[i])
    ensures answer.Done? && answer.repeat && answer.message == e.id
  {
    hide Path, IsEarlier, Quoted, Resent, T.Segments, T.Mentioned;
    var r := e.request;
    PathSince(env, worlds, start, at);
    AnswersAsRead(env, e, channel, member, r, worlds[start], worlds[at], answer);
    if r.quote.Some? {
      EarlierQuote(env, e, channel, member, r, worlds[start]);
      assert HandlesKept(env, e, worlds[at]);
      EarlierOriginal(env, e, channel, member, worlds[start], worlds[at]);
      SameHandles(env, worlds[at].names, e.draft.quoted, r, e.db.messages[r.quote.value].body);
    }
  }

  lemma SameHandles(env: Env, names: T.Names, names': T.Names, r: Request, body: string)
    requires forall m :: m in T.Mentioned(T.Segments(env.texts, body)) ==> HandleOf(names, m) == HandleOf(names', m)
    ensures Quoted(env, names, r, body) == Quoted(env, names', r, body)
  {
    hide T.Segments, T.Mentioned, T.Valid, T.Occurs;
    T.SameText(names, r.unknown, names', r.unknown, T.Segments(env.texts, body));
  }

  /** The message quoted is there in every later world. */
  lemma EarlierOriginal(env: Env, e: Earlier, channel: nat, member: nat, w: World, v: World)
    requires IsEarlier(env, e, channel, member, e.request, w) && Since(env, w, v) && e.request.quote.Some?
    ensures NamesFor(v, channel, e.request) == v.names
  {
    hide Quoted, InsertOutcome, QuoteRefusal, Inv, T.Segments, T.Mentioned, T.Valid, T.Converted, T.Unique;
    EarlierQuote(env, e, channel, member, e.request, w);
    InsertedShape(env, e.db, channel, member, e.request, e.draft, e.id);
  }

  /** The stored message is one of this request's: channel, typed body, and the
      messages it answers and quotes. */
  predicate Matches(env: Env, channel: nat, r: Request, stored: Message) {
    && stored.channel == channel && stored.reply == r.reply && (r.key.Some? ==> stored.proof == env.prove(Typed(env, r)))
    && r.quote.Some? == stored.quote.Some? && (r.quote.Some? ==> stored.quote.value.message == r.quote.value)
  }

  /** The author's key stores that message, and it is one of this request's. */
  predicate IsStored(env: Env, channel: nat, member: nat, r: Request, id: nat, s: Db) {
    && r.key.Some? && (member, r.key.value) in s.keys && s.keys[(member, r.key.value)] == id && id in s.messages
    && s.messages[id].member == member && Matches(env, channel, r, s.messages[id])
  }

  /** The references of a body are members of the world's directory. */
  ghost predicate KnowsAll(env: Env, w: World, body: string) {
    T.Mentioned(T.Segments(env.texts, body)) <= w.names.Keys
  }

  /** A new message: one step of the worlds passed since `start`, by a draft made
      of earlier ones, each later than the last, committed and announced. */
  ghost predicate IsPosted(env: Env, channel: nat, member: nat, r: Request, id: nat, worlds: seq<World>, start: nat, answer: Answer) {
    exists a, b, c, i, draft :: start <= a <= b <= c <= i < |worlds| - 1
      && Drafts(env, worlds[a], worlds[b], worlds[c], channel, r, draft)
      && InsertOutcome(env, worlds[i].db, channel, member, r, draft, id) == Commits(worlds[i + 1].db, answer)
      && worlds[i + 1].raised >= worlds[i + 1].db.last
  }

  lemma PostedIs(env: Env, channel: nat, member: nat, r: Request, id: nat, worlds: seq<World>, start: nat,
                 a: nat, b: nat, c: nat, i: nat, draft: Draft, answer: Answer)
    requires start <= a <= b <= c <= i < |worlds| - 1 && Drafts(env, worlds[a], worlds[b], worlds[c], channel, r, draft)
    requires InsertOutcome(env, worlds[i].db, channel, member, r, draft, id) == Commits(worlds[i + 1].db, answer)
    requires worlds[i + 1].raised >= worlds[i + 1].db.last
    ensures IsPosted(env, channel, member, r, id, worlds, start, answer)
  {
    hide Drafts, InsertOutcome;
  }

  lemma DraftedNow(env: Env, a: World, b: World, c: World, channel: nat, r: Request, draft: Draft)
    requires T.Valid(env.texts, r.text).Some? && T.Unique(a.names, env.texts.lower)
    requires T.Valid(env.texts, T.Converted(env.texts, a.names, Typed(env, r))) == Some(draft.body) && KnowsAll(env, b, draft.body)
    requires draft.quoted == NamesFor(c, channel, r)
    ensures Drafts(env, a, b, c, channel, r, draft)
  {
    hide T.Valid, T.Converted, T.Unique, T.Segments, T.Mentioned;
  }

  lemma TypedIs(env: Env, r: Request)
    requires T.Valid(env.texts, r.text).Some?
    ensures Typed(env, r) == T.Valid(env.texts, r.text).value
  {
  }

  lemma TokensAre(texts: T.Texts, body: string)
    ensures T.Typed(texts, body) == MentionRewrite.Places(texts.cls, ChatBlocks.Lines(body), 0, T.NoOne(texts))
  {
  }

  lemma EarlierStays(env: Env, e: Earlier, channel: nat, member: nat, r: Request, w: World, v: World)
    requires IsEarlier(env, e, channel, member, r, w) && Since(env, w, v)
    ensures IsEarlier(env, e, channel, member, r, v)
  {
    hide Grown, InsertOutcome, Inv, T.Segments, T.Mentioned, T.Valid, T.Converted, T.Unique;
    GrownTwice(InsertOutcome(env, e.db, channel, member, e.request, e.draft, e.id).db, w.db, v.db);
  }

  lemma EarlierChecks(env: Env, e: Earlier, channel: nat, member: nat, r: Request, w: World)
    requires IsEarlier(env, e, channel, member, r, w)
    ensures r.key.Some? && (r.cursor.Some? ==> 0 <= r.cursor.value < CURSOR_LIMIT) && T.Valid(env.texts, r.text).Some?
  {
    hide Grown, InsertOutcome, Inv, T.Segments, T.Mentioned, T.Valid, T.Converted, T.Unique;
  }

  lemma EarlierLater(env: Env, e: Earlier, channel: nat, member: nat, r: Request, worlds: seq<World>, i: nat, j: nat)
    requires Path(env, worlds) && i <= j < |worlds| && IsEarlier(env, e, channel, member, r, worlds[i])
    ensures IsEarlier(env, e, channel, member, r, worlds[j])
  {
    hide Path, IsEarlier, Since;
    PathSince(env, worlds, i, j);
    EarlierStays(env, e, channel, member, r, worlds[i], worlds[j]);
  }

  lemma EarlierFound(env: Env, e: Earlier, channel: nat, member: nat, r: Request, w: World, seen: World, requested: Option<nat>, answer: Answer)
    requires IsEarlier(env, e, channel, member, r, w) && Inv(w.db, env.lower)
    requires RepeatOutcome(env, w.db, channel, member, r, NamesFor(seen, channel, r), requested) == Keeps(answer)
    ensures Resent(env, e, channel, r, seen, answer)
  {
    hide Inv, SentBefore, RepeatOutcome, QuotedAgain, NamesFor;
    SentBeforeFinds(env, e.db, channel, member, e.request, e.draft, e.id, w, r, NamesFor(seen, channel, r), requested);
  }

  lemma ResentIsFound(env: Env, e: Earlier, channel: nat, r: Request, seen: World, answer: Answer)
    requires Resent(env, e, channel, r, seen, answer)
    ensures answer != Refused(MessageNotFound)
  {
    hide Quoted, NamesFor;
  }

  /** Without typed handles the body drafted again is the one drafted then, and
      its references are still members. */
  lemma EarlierBody(env: Env, e: Earlier, channel: nat, member: nat, r: Request, a: World, w: World, tokens: seq<MentionRewrite.Place>)
    requires IsEarlier(env, e, channel, member, r, w) && tokens == T.Typed(env.texts, Typed(env, r)) && T.Unique(a.names, env.texts.lower)
    ensures tokens == [] ==>
              T.Valid(env.texts, T.Converted(env.texts, a.names, Typed(env, r))) == Some(e.draft.body) && KnowsAll(env, w, e.draft.body)
  {
    hide Grown, InsertOutcome, Inv, T.Segments, T.Mentioned, T.Valid, T.Converted, T.Unique, T.Typed;
    var typed := Typed(env, r);
    assert typed == Typed(env, e.request);
    var names: T.Names :| T.Unique(names, env.texts.lower) && T.Valid(env.texts, T.Converted(env.texts, names, typed)) == Some(e.draft.body);
    if tokens == [] {
      T.NothingTyped(env.texts, names, typed);
      T.NothingTyped(env.texts, a.names, typed);
    }
  }

  /** The transaction finds the key taken, or the quote not to be had. */
  lemma EarlierInsert(env: Env, e: Earlier, channel: nat, member: nat, r: Request, w: World, seen: World, draft: Draft, id: nat)
    requires IsEarlier(env, e, channel, member, r, w) && Inv(w.db, env.lower) && draft.quoted == NamesFor(seen, channel, r)
    ensures var outcome := InsertOutcome(env, w.db, channel, member, r, draft, id);
            outcome.Keeps? && (outcome.answer.KeyTaken? || Resent(env, e, channel, r, seen, outcome.answer))
  {
    hide Inv, Grown, RepeatOutcome, PlaceRefusal, Quoted, Requested, Composed, WithMessage, Previous, T.Segments, T.Mentioned, T.Valid,
         T.Converted, T.Unique, NamesFor;
    SentBeforeFinds(env, e.db, channel, member, e.request, e.draft, e.id, w, r, draft.quoted, None);
    InsertedShape(env, e.db, channel, member, e.request, e.draft, e.id);
    var u := InsertOutcome(env, e.db, channel, member, e.request, e.draft, e.id).db;
    GrownTwice(e.db, u, w.db);
    EarlierLast(env, e.db, channel, member, e.request, e.draft, e.id, w.db);
    SamePlace(e.db, channel, e.request, r);
    PlaceKept(e.db, w.db, channel, r);
    QuoteShape(env, e.draft.quoted, e.db, channel, e.request);
    QuoteKept(env, draft.quoted, e.db, w.db, channel, r);
  }

  lemma EarlierLast(env: Env, s: Db, channel: nat, member: nat, r: Request, draft: Draft, id: nat, now: Db)
    requires InsertOutcome(env, s, channel, member, r, draft, id).Commits?
    requires var u := InsertOutcome(env, s, channel, member, r, draft, id).db;
             Inv(u, env.lower) && Grown(u, now)
    requires Inv(now, env.lower)
    ensures s.last < now.last && (r.cursor.Some? ==> r.cursor.value < now.last)
  {
    hide Inv, PlaceRefusal, QuoteRefusal, Requested, Composed, Previous;
    LastIsLength(now, env.lower);
    LastIsLength(InsertOutcome(env, s, channel, member, r, draft, id).db, env.lower);
  }

  /** What is stored under a key stays so. */
  lemma StoredStays(env: Env, channel: nat, member: nat, r: Request, id: nat, w: World, v: World)
    requires r.key.Some? && (member, r.key.value) in w.db.keys && w.db.keys[(member, r.key.value)] == id && id in w.db.messages
    requires Matches(env, channel, r, w.db.messages[id]) && Since(env, w, v) && Inv(w.db, env.lower) && Inv(v.db, env.lower)
    ensures IsStored(env, channel, member, r, id, v.db)
  {
    hide Inv, Grown, Typed;
    KeyOwner(w.db, env.lower, member, r.key.value);
    KeyOf(w.db, v.db, env.lower, id);
    StoredPost(w.db, v.db, id);
  }

  lemma KeyOwner(s: Db, lower: string -> string, member: nat, key: nat)
    requires Inv(s, lower) && (member, key) in s.keys
    ensures var id := s.keys[(member, key)]; id in s.messages && s.messages[id].member == member && s.messages[id].key == Some(key)
  {
    hide LogInv, MessagesInv, EventsInv, ConclusionsInv, DefaultsInv, NamesInv, PinsInv, ReadsInv;
  }

  /** What the insert's answer says of the world it leaves. */
  lemma Inserted(env: Env, w: World, channel: nat, member: nat, r: Request, draft: Draft, id: nat, answer: Answer, v: World)
    requires Step(env, w, Op.Insert(channel, member, r, draft, id), answer, v)
    ensures answer == Failed || answer == Unknown || answer == InsertOutcome(env, w.db, channel, member, r, draft, id).answer
    ensures !answer.Done? && !answer.Unknown? ==> v == w
    ensures InsertOutcome(env, w.db, channel, member, r, draft, id).Keeps? ==> v == w
    ensures answer.Done? && InsertOutcome(env, w.db, channel, member, r, draft, id).Commits? ==>
              v.raised >= v.db.last && InsertOutcome(env, w.db, channel, member, r, draft, id) == Commits(v.db, answer)
  {
    hide InsertOutcome;
    InsertAnswers(env, w.db, channel, member, r, draft, id);
  }

  lemma RepeatAnswers(env: Env, s: Db, channel: nat, member: nat, r: Request, names: T.Names, requested: Option<nat>)
    ensures var outcome := RepeatOutcome(env, s, channel, member, r, names, requested);
            && outcome.Keeps? && (outcome.answer.Refused? || outcome.answer.Done?)
            && (outcome.answer.Done? ==>
                  && outcome.answer.repeat && r.key.Some? && (member, r.key.value) in s.keys
                  && s.keys[(member, r.key.value)] == outcome.answer.message && outcome.answer.message in s.messages
                  && Matches(env, channel, r, s.messages[outcome.answer.message]))
  {
    hide PlaceRefusal, QuoteRefusal, QuoteOf, Typed;
  }

  lemma InsertAnswers(env: Env, s: Db, channel: nat, member: nat, r: Request, draft: Draft, id: nat)
    ensures var outcome := InsertOutcome(env, s, channel, member, r, draft, id);
            && (outcome.Keeps? ==> outcome.answer.Refused? || outcome.answer.KeyTaken?)
            && (outcome.Commits? ==> outcome.answer.Done? && !outcome.answer.repeat && outcome.answer.message == id)
  {
    hide PlaceRefusal, QuoteRefusal, WithMessage, Composed, Previous;
    if PlaceRefusal(s, channel, r).None? {
      PlaceFacts(s, channel, r);
    }
  }

  lemma LastIsLength(s: Db, lower: string -> string)
    requires Inv(s, lower)
    ensures s.(last := |s.log|) == s
  {
    hide MessagesInv, EventsInv, ConclusionsInv, DefaultsInv, NamesInv, PinsInv, KeysInv, ReadsInv;
  }

  lemma TopicOfMessage(s: Db, lower: string -> string, id: nat)
    requires Inv(s, lower) && id in s.messages
    ensures HasTopic(s, s.messages[id].channel, s.messages[id].topic)
  {
    hide LogInv, EventsInv, ConclusionsInv, DefaultsInv, NamesInv, PinsInv, KeysInv, ReadsInv, TopicAfter, LastMove;
    assert MessageOk(id, s.messages[id], s.topics, s.log);
  }

  /** Taking the sequence changes nothing the lookups see. */
  lemma SequenceOnly(env: Env, names: T.Names, s: Db, t: Db, channel: nat, r: Request)
    requires Inv(s, env.lower) && t == s.(last := s.last + 1)
    ensures Inv(t.(last := |t.log|), env.lower) && t.(last := s.last) == s
    ensures PlaceRefusal(t, channel, r) == PlaceRefusal(s, channel, r)
    ensures PlaceRefusal(s, channel, r).None? ==> channel in s.channels && (r.reply.Some? ==> r.reply.value in s.messages)
    ensures PlaceRefusal(s, channel, r).None? ==> Requested(t, channel, r) == Requested(s, channel, r)
    ensures QuoteRefusal(env, names, t, channel, r) == QuoteRefusal(env, names, s, channel, r)
    ensures QuoteOf(env, names, t, r) == QuoteOf(env, names, s, r)
  {
    hide Inv;
    LastIsLength(s, env.lower);
  }

  lemma Unusable(env: Env, s: Db, channel: nat, b: Branch)
    ensures !ValidBranch(b) ==> BranchRefusal(env, s, channel, b) == Some(InvalidBranch)
    ensures ValidBranch(b) && b.to.None? && env.topicName(b.newName).None? ==> BranchRefusal(env, s, channel, b) == Some(InvalidTopicName)
  {
    hide NameTaken;
  }

  /** Taking sequences changes neither the refusals nor the destination. */
  lemma Refusals(env: Env, s: Db, t: Db, channel: nat, b: Branch)
    requires t == s.(last := t.last) && ValidBranch(b) && (b.to.None? ==> env.topicName(b.newName).Some?)
    ensures BranchRefusal(env, s, channel, b)
         == if !HasTopic(t, channel, b.from) || (b.to.Some? && !HasTopic(t, channel, b.to.value)) then Some(TopicNotFound)
            else if b.to.None? && NameTaken(t.topics, channel, env.topicName(b.newName).value, env.lower) then Some(TopicNameTaken)
            else if Conflicts(s, channel, b.from, b.messages) then Some(BranchConflict) else None
    ensures Distinct(b.messages)
  {
    hide NameTaken;
    SameMessages(s, t, channel, b.from, b.messages);
  }

  lemma PreparedLater(env: Env, s: Db, channel: nat, b: Branch, newTopic: nat)
    requires newTopic !in s.topics
    ensures Prepared(env, s.(last := s.last + 2), channel, b, newTopic) == Prepared(env, s, channel, b, newTopic).(last := s.last + 2)
    ensures var prepared := Prepared(env, s, channel, b, newTopic); prepared.last == s.last && prepared.messages == s.messages
    ensures var prepared := Prepared(env, s, channel, b, newTopic); forall t :: t in s.topics ==> t in prepared.topics && prepared.topics[t] == s.topics[t]
  {
  }

  lemma BranchedIs(env: Env, s: Db, channel: nat, member: nat, b: Branch, newTopic: nat, notice: nat)
    requires b.from in Prepared(env, s, channel, b, newTopic).topics && Destination(b, newTopic) in Prepared(env, s, channel, b, newTopic).topics
    ensures var to, prepared := Destination(b, newTopic), Prepared(env, s, channel, b, newTopic);
            var moved := WithMove(prepared, channel, b.from, to, b.messages);
            var m := Notice(env, channel, b.from, member, prepared.topics[to].name);
            var posted := WithMessage(moved, notice, m, Previous(moved.messages, channel, moved.last + 1));
            && b.from in posted.topics
            && Branched(env, s, channel, member, b, newTopic, notice)
            == if TakesConclusion(s, b) then WithConclusion(posted, channel, b.from, 0) else posted
  {
    hide Previous, Notice, MovedMessages, Prepared;
  }

  lemma SameMessages(s: Db, t: Db, channel: nat, topic: nat, ids: seq<nat>)
    requires s.messages == t.messages
    ensures Conflicts(t, channel, topic, ids) == Conflicts(s, channel, topic, ids)
  {
    forall id ensures InTopic(t, channel, topic, id) == InTopic(s, channel, topic, id) {
    }
  }
}
