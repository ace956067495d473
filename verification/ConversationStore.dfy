/** One organisation's conversation database (internal/conversation/ports.go):
    channels, topics, messages, pins and the event log, the changes that
    transactions make to them, and what each change keeps. */
module ConversationStore {
  import opened Common

  /** `name` is the normalised name; a default topic has none. `conclusion` is
      the message that resolved the topic, 0 while it is open. */
  datatype Topic = Topic(channel: nat, isDefault: bool, name: string, conclusion: nat)

  datatype Quote = Quote(message: nat, text: string)

  /** `moved` is the sequence of the latest move, 0 when there was none; `proof`
      the digest of the typed body a keyed message was sent with. */
  datatype Message = Message(
    channel: nat, topic: nat, member: nat, body: string, at: nat, moved: nat,
    key: Option<nat>, proof: nat, quote: Option<Quote>, reply: Option<nat>)

  datatype Event =
    | Posted(channel: nat, message: nat, topic: nat, member: nat)
    | Moved(channel: nat, from: nat, to: nat, messages: seq<nat>)
    | PinsChanged(channel: nat, message: nat)
    | ResolutionChanged(channel: nat, topic: nat)

  datatype Logged = Logged(at: nat, event: Event)

  /** A range of sequences the author of `message` was marked to have read. */
  datatype ReadRange = ReadRange(message: nat, lo: nat, hi: nat)

  /** `channels` points at each channel's default topic, `keys` is the index of
      keyed messages by author, `pins` names who pinned a message. */
  datatype Db = Db(
    last: nat, channels: map<nat, nat>, topics: map<nat, Topic>, messages: map<nat, Message>,
    keys: map<(nat, nat), nat>, pins: map<nat, nat>, ranges: seq<ReadRange>, log: seq<Logged>)

  const MAX_PINS := 50

  function Empty(): Db {
    Db(0, map[], map[], map[], map[], map[], [], [])
  }

  // ----- lookups -----

  predicate HasTopic(s: Db, channel: nat, t: nat) {
    t in s.topics && s.topics[t].channel == channel
  }

  predicate HasMessage(s: Db, channel: nat, id: nat) {
    id in s.messages && s.messages[id].channel == channel
  }

  predicate NameTaken(topics: map<nat, Topic>, channel: nat, name: string, lower: string -> string) {
    exists t :: t in topics && topics[t].channel == channel && !topics[t].isDefault && lower(topics[t].name) == lower(name)
  }

  function PinsIn(messages: map<nat, Message>, pins: map<nat, nat>, channel: nat): set<nat> {
    set id | id in pins && id in messages && messages[id].channel == channel
  }

  ghost predicate IsPrevious(messages: map<nat, Message>, channel: nat, at: nat, previous: nat) {
    && previous < Max(at, 1)
    && (previous != 0 ==> exists id :: id in messages && messages[id].channel == channel && messages[id].at == previous)
    && forall id :: id in messages && messages[id].channel == channel && messages[id].at < at ==> messages[id].at <= previous
  }

  /** LastMessageBefore: the sequence of the channel's message before, or zero. */
  function Previous(messages: map<nat, Message>, channel: nat, at: nat): (previous: nat)
    ensures IsPrevious(messages, channel, at, previous)
  {
    if at <= 1 then 0
    else if exists id :: id in messages && messages[id].channel == channel && messages[id].at == at - 1 then at - 1
    else Previous(messages, channel, at - 1)
  }

  // ----- changes, each with its event -----

  function Logs(s: Db, e: Event): Db {
    s.(last := s.last + 1, log := s.log + [Logged(s.last + 1, e)])
  }

  function WithChannel(s: Db, channel: nat, t: nat): Db {
    s.(channels := s.channels[channel := t], topics := s.topics[t := Topic(channel, true, "", 0)])
  }

  function WithTopic(s: Db, channel: nat, t: nat, name: string): Db {
    s.(topics := s.topics[t := Topic(channel, false, name, 0)])
  }

  function MovedMessages(messages: map<nat, Message>, ids: seq<nat>, to: nat, at: nat): map<nat, Message> {
    map id | id in messages :: if id in ids then messages[id].(topic := to, moved := at) else messages[id]
  }

  function WithMove(s: Db, channel: nat, from: nat, to: nat, ids: seq<nat>): Db {
    Logs(s.(messages := MovedMessages(s.messages, ids, to, s.last + 1)), Moved(channel, from, to, ids))
  }

  /** A new message, its key, its author's read range and its event. */
  function WithMessage(s: Db, id: nat, m: Message, previous: nat): Db {
    var keys := if m.key.Some? then s.keys[(m.member, m.key.value) := id] else s.keys;
    Logs(s.(messages := s.messages[id := m.(at := s.last + 1, moved := 0)], keys := keys,
            ranges := s.ranges + [ReadRange(id, previous + 1, s.last + 2)]),
         Posted(m.channel, id, m.topic, m.member))
  }

  function WithConclusion(s: Db, channel: nat, t: nat, message: nat): Db
    requires t in s.topics
  {
    Logs(s.(topics := s.topics[t := s.topics[t].(conclusion := message)]), ResolutionChanged(channel, t))
  }

  function WithPins(s: Db, channel: nat, message: nat, pins: map<nat, nat>): Db {
    Logs(s.(pins := pins), PinsChanged(channel, message))
  }

  // ----- what a reader of the log knows -----

  /** The topic a message is in after replaying the log. */
  function TopicAfter(log: seq<Logged>, id: nat): Option<nat> {
    if log == [] then None
    else
      var e := log[|log| - 1].event;
      if e.Posted? && e.message == id then Some(e.topic)
      else if e.Moved? && id in e.messages then Some(e.to)
      else TopicAfter(log[..|log| - 1], id)
  }

  /** The sequence of the last move of a message, or zero. */
  function LastMove(log: seq<Logged>, id: nat): nat {
    if log == [] then 0
    else if log[|log| - 1].event.Moved? && id in log[|log| - 1].event.messages then log[|log| - 1].at
    else LastMove(log[..|log| - 1], id)
  }

  // ----- the invariant -----

  /** One event per sequence, without a gap. */
  ghost predicate LogInv(last: nat, log: seq<Logged>) {
    |log| == last && forall i :: 0 <= i < |log| ==> log[i].at == i + 1
  }

  /** Every message has its event; the log says which topic it is in and which
      move was its last; and its topic is one of its channel's. */
  ghost predicate MessageOk(id: nat, m: Message, topics: map<nat, Topic>, log: seq<Logged>) {
    && id != 0 && 1 <= m.at <= |log|
    && (var e := log[m.at - 1].event; e.Posted? && e.message == id && e.channel == m.channel && e.member == m.member)
    && m.topic in topics && topics[m.topic].channel == m.channel
    && TopicAfter(log, id) == Some(m.topic) && LastMove(log, id) == m.moved
  }

  ghost predicate MessagesInv(messages: map<nat, Message>, topics: map<nat, Topic>, log: seq<Logged>) {
    forall id :: id in messages ==> MessageOk(id, messages[id], topics, log)
  }

  /** Every posting event has its message, every move moved messages. */
  ghost predicate EventOk(i: nat, e: Event, messages: map<nat, Message>) {
    && (e.Posted? ==> e.message in messages && messages[e.message].at == i + 1)
    && (e.Moved? ==> Distinct(e.messages) && forall id :: id in e.messages ==> id in messages)
  }

  ghost predicate EventsInv(log: seq<Logged>, messages: map<nat, Message>) {
    forall i :: 0 <= i < |log| ==> EventOk(i, log[i].event, messages)
  }

  /** A set conclusion is a message now in that same topic, not a default one. */
  ghost predicate ConclusionOk(t: nat, topic: Topic, messages: map<nat, Message>) {
    topic.conclusion != 0 ==>
      !topic.isDefault && topic.conclusion in messages && messages[topic.conclusion].topic == t
  }

  ghost predicate ConclusionsInv(topics: map<nat, Topic>, messages: map<nat, Message>) {
    forall t :: t in topics ==> ConclusionOk(t, topics[t], messages)
  }

  /** Each channel has exactly one default topic. */
  ghost predicate DefaultsInv(channels: map<nat, nat>, topics: map<nat, Topic>) {
    && (forall c :: c in channels ==> channels[c] in topics && topics[channels[c]].channel == c && topics[channels[c]].isDefault)
    && (forall t :: t in topics ==> topics[t].channel in channels)
    && (forall t :: t in topics && topics[t].isDefault ==> channels[topics[t].channel] == t)
  }

  ghost predicate NamesInv(topics: map<nat, Topic>, lower: string -> string) {
    forall t, u :: t in topics && u in topics && t != u && topics[t].channel == topics[u].channel
                   && !topics[t].isDefault && !topics[u].isDefault
                   ==> lower(topics[t].name) != lower(topics[u].name)
  }

  ghost predicate PinsInv(messages: map<nat, Message>, pins: map<nat, nat>) {
    && (forall id :: id in pins ==> id in messages)
    && (forall channel :: |PinsIn(messages, pins, channel)| <= MAX_PINS)
  }

  /** A key stores one message of its author. */
  ghost predicate KeysInv(keys: map<(nat, nat), nat>, messages: map<nat, Message>) {
    && (forall k :: k in keys ==> keys[k] in messages && messages[keys[k]].member == k.0 && messages[keys[k]].key == Some(k.1))
    && (forall id :: id in messages && messages[id].key.Some? ==>
                       (messages[id].member, messages[id].key.value) in keys && keys[(messages[id].member, messages[id].key.value)] == id)
  }

  /** Each read range covers the author's own message and no other one of the
      channel, whatever was posted before or since. */
  ghost predicate ReadOk(r: ReadRange, messages: map<nat, Message>, last: nat) {
    && r.message in messages && r.lo <= messages[r.message].at < r.hi <= last + 1
    && forall id :: id in messages && messages[id].channel == messages[r.message].channel && r.lo <= messages[id].at < r.hi
                    ==> id == r.message
  }

  ghost predicate ReadsInv(ranges: seq<ReadRange>, messages: map<nat, Message>, last: nat) {
    forall i :: 0 <= i < |ranges| ==> ReadOk(ranges[i], messages, last)
  }

  ghost predicate Inv(s: Db, lower: string -> string) {
    && LogInv(s.last, s.log) && MessagesInv(s.messages, s.topics, s.log) && EventsInv(s.log, s.messages)
    && ConclusionsInv(s.topics, s.messages) && DefaultsInv(s.channels, s.topics) && NamesInv(s.topics, lower)
    && PinsInv(s.messages, s.pins) && KeysInv(s.keys, s.messages) && ReadsInv(s.ranges, s.messages, s.last)
  }

  // ----- the log -----

  lemma LogMore(last: nat, log: seq<Logged>, e: Event)
    requires LogInv(last, log)
    ensures LogInv(last + 1, log + [Logged(last + 1, e)])
  {
  }

  lemma ReplayMore(log: seq<Logged>, l: Logged, id: nat)
    ensures TopicAfter(log + [l], id)
         == if l.event.Posted? && l.event.message == id then Some(l.event.topic)
            else if l.event.Moved? && id in l.event.messages then Some(l.event.to) else TopicAfter(log, id)
    ensures LastMove(log + [l], id) == if l.event.Moved? && id in l.event.messages then l.at else LastMove(log, id)
  {
    assert (log + [l])[..|log|] == log;
  }

  /** Nothing in the log is about a message that does not exist. */
  lemma {:induction false} Unheard(log: seq<Logged>, messages: map<nat, Message>, id: nat)
    requires EventsInv(log, messages) && id !in messages
    ensures TopicAfter(log, id) == None && LastMove(log, id) == 0
  {
    if log != [] {
      assert EventOk(|log| - 1, log[|log| - 1].event, messages);
      var earlier := log[..|log| - 1];
      forall i | 0 <= i < |earlier| ensures EventOk(i, earlier[i].event, messages) {
        assert EventOk(i, log[i].event, messages);
      }
      Unheard(log[..|log| - 1], messages, id);
    }
  }

  /** An event that neither posts nor moves messages changes what no one knows. */
  lemma QuietEvent(messages: map<nat, Message>, topics: map<nat, Topic>, log: seq<Logged>, l: Logged)
    requires MessagesInv(messages, topics, log) && EventsInv(log, messages) && !l.event.Posted? && !l.event.Moved?
    ensures MessagesInv(messages, topics, log + [l]) && EventsInv(log + [l], messages)
  {
    hide TopicAfter, LastMove;
    forall id | id in messages ensures MessageOk(id, messages[id], topics, log + [l]) {
      assert MessageOk(id, messages[id], topics, log);
      ReplayMore(log, l, id);
    }
    var after := log + [l];
    forall i | 0 <= i < |after| ensures EventOk(i, after[i].event, messages) {
      if i < |log| {
        assert EventOk(i, log[i].event, messages);
      }
    }
  }

  lemma MoreReads(ranges: seq<ReadRange>, messages: map<nat, Message>, last: nat)
    requires ReadsInv(ranges, messages, last)
    ensures ReadsInv(ranges, messages, last + 1)
  {
    forall i | 0 <= i < |ranges| ensures ReadOk(ranges[i], messages, last + 1) {
      assert ReadOk(ranges[i], messages, last);
    }
  }

  // ----- channels and topics -----

  lemma TopicAdded(messages: map<nat, Message>, topics: map<nat, Topic>, log: seq<Logged>, t: nat, topic: Topic)
    requires MessagesInv(messages, topics, log) && ConclusionsInv(topics, messages) && t !in topics && topic.conclusion == 0
    ensures MessagesInv(messages, topics[t := topic], log) && ConclusionsInv(topics[t := topic], messages)
  {
    hide TopicAfter, LastMove;
    var after := topics[t := topic];
    forall id | id in messages ensures MessageOk(id, messages[id], after, log) {
      assert MessageOk(id, messages[id], topics, log);
    }
    forall u | u in after ensures ConclusionOk(u, after[u], messages) {
      if u != t {
        assert ConclusionOk(u, topics[u], messages);
      }
    }
  }

  lemma ChannelKept(s: Db, lower: string -> string, channel: nat, t: nat)
    requires Inv(s, lower) && channel !in s.channels && t !in s.topics
    ensures Inv(WithChannel(s, channel, t), lower)
  {
    hide LogInv, MessagesInv, EventsInv, ConclusionsInv, PinsInv, KeysInv, ReadsInv;
    TopicAdded(s.messages, s.topics, s.log, t, Topic(channel, true, "", 0));
  }

  lemma TopicKept(s: Db, lower: string -> string, channel: nat, t: nat, name: string)
    requires Inv(s, lower) && channel in s.channels && t !in s.topics && !NameTaken(s.topics, channel, name, lower)
    ensures Inv(WithTopic(s, channel, t, name), lower)
  {
    hide LogInv, MessagesInv, EventsInv, ConclusionsInv, PinsInv, KeysInv, ReadsInv;
    TopicAdded(s.messages, s.topics, s.log, t, Topic(channel, false, name, 0));
  }

  // ----- conclusions and pins -----

  /** A conclusion changes, whatever it was. */
  lemma ConclusionKept(s: Db, lower: string -> string, channel: nat, t: nat, message: nat)
    requires LogInv(s.last, s.log) && MessagesInv(s.messages, s.topics, s.log) && EventsInv(s.log, s.messages)
    requires DefaultsInv(s.channels, s.topics) && NamesInv(s.topics, lower)
    requires PinsInv(s.messages, s.pins) && KeysInv(s.keys, s.messages) && ReadsInv(s.ranges, s.messages, s.last)
    requires t in s.topics && forall u :: u in s.topics && u != t ==> ConclusionOk(u, s.topics[u], s.messages)
    requires ConclusionOk(t, s.topics[t].(conclusion := message), s.messages)
    ensures Inv(WithConclusion(s, channel, t, message), lower)
  {
    hide LogInv, EventsInv, PinsInv, KeysInv, ReadsInv, TopicAfter, LastMove, DefaultsInv, NamesInv, ConclusionOk;
    var topics := s.topics[t := s.topics[t].(conclusion := message)];
    forall id | id in s.messages ensures MessageOk(id, s.messages[id], topics, s.log) {
      assert MessageOk(id, s.messages[id], s.topics, s.log);
    }
    SameTopics(s.channels, s.topics, lower, t, message);
    hide MessagesInv;
    LogMore(s.last, s.log, ResolutionChanged(channel, t));
    QuietEvent(s.messages, topics, s.log, Logged(s.last + 1, ResolutionChanged(channel, t)));
    MoreReads(s.ranges, s.messages, s.last);
  }

  lemma SameTopics(channels: map<nat, nat>, topics: map<nat, Topic>, lower: string -> string, t: nat, message: nat)
    requires DefaultsInv(channels, topics) && NamesInv(topics, lower) && t in topics
    ensures var after := topics[t := topics[t].(conclusion := message)]; DefaultsInv(channels, after) && NamesInv(after, lower)
  {
  }

  lemma PinsKept(s: Db, lower: string -> string, channel: nat, message: nat, pins: map<nat, nat>)
    requires Inv(s, lower) && PinsInv(s.messages, pins)
    ensures Inv(WithPins(s, channel, message, pins), lower)
  {
    hide LogInv, MessagesInv, EventsInv, PinsInv, KeysInv, ReadsInv, DefaultsInv, NamesInv, ConclusionsInv;
    LogMore(s.last, s.log, PinsChanged(channel, message));
    QuietEvent(s.messages, s.topics, s.log, Logged(s.last + 1, PinsChanged(channel, message)));
    MoreReads(s.ranges, s.messages, s.last);
  }

  lemma PinAdded(messages: map<nat, Message>, pins: map<nat, nat>, id: nat, pinner: nat)
    requires PinsInv(messages, pins) && id in messages && id !in pins
    requires |PinsIn(messages, pins, messages[id].channel)| < MAX_PINS
    ensures PinsInv(messages, pins[id := pinner])
  {
    var after := pins[id := pinner];
    forall channel ensures |PinsIn(messages, after, channel)| <= MAX_PINS {
      if channel == messages[id].channel {
        assert PinsIn(messages, after, channel) == PinsIn(messages, pins, channel) + {id};
      } else {
        assert PinsIn(messages, after, channel) == PinsIn(messages, pins, channel);
      }
    }
  }

  lemma PinRemoved(messages: map<nat, Message>, pins: map<nat, nat>, id: nat)
    requires PinsInv(messages, pins)
    ensures PinsInv(messages, pins - {id})
  {
    forall channel ensures |PinsIn(messages, pins - {id}, channel)| <= MAX_PINS {
      assert PinsIn(messages, pins - {id}, channel) == PinsIn(messages, pins, channel) - {id};
    }
  }

  /** Messages that keep their channels keep the counts of pins. */
  lemma SamePins(before: map<nat, Message>, after: map<nat, Message>, pins: map<nat, nat>)
    requires PinsInv(before, pins) && before.Keys <= after.Keys
    requires forall id :: id in before ==> after[id].channel == before[id].channel
    ensures PinsInv(after, pins)
  {
    forall channel ensures |PinsIn(after, pins, channel)| <= MAX_PINS {
      assert PinsIn(after, pins, channel) == PinsIn(before, pins, channel);
    }
  }

  // ----- posting -----

  lemma PostedMessages(s: Db, id: nat, m: Message)
    requires LogInv(s.last, s.log) && MessagesInv(s.messages, s.topics, s.log) && EventsInv(s.log, s.messages)
    requires id != 0 && id !in s.messages && m.topic in s.topics && s.topics[m.topic].channel == m.channel
    requires m.at == s.last + 1 && m.moved == 0
    ensures var messages, log := s.messages[id := m], s.log + [Logged(s.last + 1, Posted(m.channel, id, m.topic, m.member))];
            MessagesInv(messages, s.topics, log) && EventsInv(log, messages)
  {
    hide TopicAfter, LastMove;
    var l := Logged(s.last + 1, Posted(m.channel, id, m.topic, m.member));
    var messages, log := s.messages[id := m], s.log + [l];
    Unheard(s.log, s.messages, id);
    forall x | x in messages ensures MessageOk(x, messages[x], s.topics, log) {
      ReplayMore(s.log, l, x);
      if x != id {
        assert MessageOk(x, s.messages[x], s.topics, s.log);
      }
    }
    forall i | 0 <= i < |log| ensures EventOk(i, log[i].event, messages) {
      if i < |s.log| {
        assert EventOk(i, s.log[i].event, s.messages);
      }
    }
  }

  lemma PostedReads(s: Db, id: nat, m: Message, previous: nat)
    requires ReadsInv(s.ranges, s.messages, s.last) && id !in s.messages && m.at == s.last + 1
    requires IsPrevious(s.messages, m.channel, s.last + 1, previous)
    requires forall x :: x in s.messages ==> s.messages[x].at <= s.last
    ensures ReadsInv(s.ranges + [ReadRange(id, previous + 1, s.last + 2)], s.messages[id := m], s.last + 1)
  {
    var messages, ranges := s.messages[id := m], s.ranges + [ReadRange(id, previous + 1, s.last + 2)];
    forall i | 0 <= i < |ranges| ensures ReadOk(ranges[i], messages, s.last + 1) {
      if i < |s.ranges| {
        assert ReadOk(s.ranges[i], s.messages, s.last);
      }
    }
  }

  lemma PostedConclusions(topics: map<nat, Topic>, messages: map<nat, Message>, id: nat, m: Message, t: nat)
    requires id !in messages && t in topics && ConclusionOk(t, topics[t], messages)
    ensures ConclusionOk(t, topics[t], messages[id := m])
  {
  }

  lemma SeqsBelow(s: Db)
    requires LogInv(s.last, s.log) && MessagesInv(s.messages, s.topics, s.log)
    ensures forall x :: x in s.messages ==> s.messages[x].at <= s.last
  {
    hide TopicAfter, LastMove;
    forall x | x in s.messages ensures s.messages[x].at <= s.last {
      assert MessageOk(x, s.messages[x], s.topics, s.log);
    }
  }

  /** All that posting keeps but the conclusions, which a move may leave open. */
  ghost predicate Upright(s: Db, lower: string -> string) {
    && LogInv(s.last, s.log) && MessagesInv(s.messages, s.topics, s.log) && EventsInv(s.log, s.messages)
    && DefaultsInv(s.channels, s.topics) && NamesInv(s.topics, lower)
    && PinsInv(s.messages, s.pins) && KeysInv(s.keys, s.messages) && ReadsInv(s.ranges, s.messages, s.last)
  }

  lemma PostKept(s: Db, lower: string -> string, id: nat, m: Message, previous: nat)
    requires Upright(s, lower) && id != 0 && id !in s.messages && m.topic in s.topics && s.topics[m.topic].channel == m.channel
    requires m.key.Some? ==> (m.member, m.key.value) !in s.keys
    requires IsPrevious(s.messages, m.channel, s.last + 1, previous)
    ensures Upright(WithMessage(s, id, m, previous), lower)
    ensures forall t :: t in s.topics && ConclusionOk(t, s.topics[t], s.messages)
                        ==> ConclusionOk(t, s.topics[t], WithMessage(s, id, m, previous).messages)
  {
    hide MessagesInv, EventsInv, DefaultsInv, NamesInv, PinsInv, KeysInv, ReadsInv, ConclusionOk, IsPrevious;
    var posted := m.(at := s.last + 1, moved := 0);
    PostedMessages(s, id, posted);
    SeqsBelow(s);
    PostedReads(s, id, posted, previous);
    SamePins(s.messages, s.messages[id := posted], s.pins);
    PostedKeys(s.keys, s.messages, id, posted);
    forall t | t in s.topics && ConclusionOk(t, s.topics[t], s.messages)
      ensures ConclusionOk(t, s.topics[t], s.messages[id := posted])
    {
      PostedConclusions(s.topics, s.messages, id, posted, t);
    }
  }

  lemma PostedKeys(keys: map<(nat, nat), nat>, messages: map<nat, Message>, id: nat, m: Message)
    requires KeysInv(keys, messages) && id !in messages && (m.key.Some? ==> (m.member, m.key.value) !in keys)
    ensures KeysInv(if m.key.Some? then keys[(m.member, m.key.value) := id] else keys, messages[id := m])
  {
  }

  // ----- moving -----

  /** What a move needs: distinct messages, all in the source, and another topic
      of the channel. */
  ghost predicate CanMove(s: Db, channel: nat, from: nat, to: nat, ids: seq<nat>) {
    && Distinct(ids) && from != to && to in s.topics && s.topics[to].channel == channel
    && forall id :: id in ids ==> id in s.messages && s.messages[id].channel == channel && s.messages[id].topic == from
  }

  lemma MovedOk(s: Db, channel: nat, from: nat, to: nat, ids: seq<nat>)
    requires LogInv(s.last, s.log) && MessagesInv(s.messages, s.topics, s.log) && EventsInv(s.log, s.messages)
    requires CanMove(s, channel, from, to, ids)
    ensures var u := WithMove(s, channel, from, to, ids); MessagesInv(u.messages, u.topics, u.log) && EventsInv(u.log, u.messages)
  {
    hide TopicAfter, LastMove;
    var l := Logged(s.last + 1, Moved(channel, from, to, ids));
    var u := WithMove(s, channel, from, to, ids);
    forall id | id in u.messages ensures MessageOk(id, u.messages[id], u.topics, u.log) {
      ReplayMore(s.log, l, id);
      assert MessageOk(id, s.messages[id], s.topics, s.log);
    }
    forall i | 0 <= i < |u.log| ensures EventOk(i, u.log[i].event, u.messages) {
      if i < |s.log| {
        assert EventOk(i, s.log[i].event, s.messages);
      }
    }
  }

  lemma MovedReads(ranges: seq<ReadRange>, messages: map<nat, Message>, last: nat, ids: seq<nat>, to: nat, at: nat)
    requires ReadsInv(ranges, messages, last)
    ensures ReadsInv(ranges, MovedMessages(messages, ids, to, at), last + 1)
  {
    var after := MovedMessages(messages, ids, to, at);
    forall i | 0 <= i < |ranges| ensures ReadOk(ranges[i], after, last + 1) {
      assert ReadOk(ranges[i], messages, last);
    }
  }

  lemma MovedKeys(keys: map<(nat, nat), nat>, messages: map<nat, Message>, ids: seq<nat>, to: nat, at: nat)
    requires KeysInv(keys, messages)
    ensures KeysInv(keys, MovedMessages(messages, ids, to, at))
  {
  }

  lemma MovedPins(messages: map<nat, Message>, ids: seq<nat>, to: nat, at: nat, pins: map<nat, nat>)
    requires PinsInv(messages, pins)
    ensures PinsInv(MovedMessages(messages, ids, to, at), pins)
  {
    hide PinsInv;
    SamePins(messages, MovedMessages(messages, ids, to, at), pins);
  }

  /** A move can only take the source's own conclusion away. */
  lemma MoveKept(s: Db, lower: string -> string, channel: nat, from: nat, to: nat, ids: seq<nat>)
    requires Inv(s, lower) && CanMove(s, channel, from, to, ids)
    ensures Upright(WithMove(s, channel, from, to, ids), lower)
    ensures forall t :: t in s.topics && (t != from || s.topics[t].conclusion !in ids)
                        ==> ConclusionOk(t, s.topics[t], WithMove(s, channel, from, to, ids).messages)
  {
    hide MessagesInv, EventsInv, DefaultsInv, NamesInv, PinsInv, KeysInv, ReadsInv, ConclusionOk, ConclusionsInv, CanMove, MovedMessages;
    MovedConclusions(s, lower, channel, from, to, ids);
    MovedOk(s, channel, from, to, ids);
    MovedReads(s.ranges, s.messages, s.last, ids, to, s.last + 1);
    MovedKeys(s.keys, s.messages, ids, to, s.last + 1);
    MovedPins(s.messages, ids, to, s.last + 1, s.pins);
  }

  lemma MovedConclusions(s: Db, lower: string -> string, channel: nat, from: nat, to: nat, ids: seq<nat>)
    requires Inv(s, lower) && CanMove(s, channel, from, to, ids)
    ensures forall t :: t in s.topics && (t != from || s.topics[t].conclusion !in ids)
                        ==> ConclusionOk(t, s.topics[t], WithMove(s, channel, from, to, ids).messages)
  {
    hide LogInv, MessagesInv, EventsInv, DefaultsInv, NamesInv, PinsInv, KeysInv, ReadsInv;
    var messages := WithMove(s, channel, from, to, ids).messages;
    forall t | t in s.topics && (t != from || s.topics[t].conclusion !in ids) ensures ConclusionOk(t, s.topics[t], messages) {
      assert ConclusionOk(t, s.topics[t], s.messages);
    }
  }
}
