/** Typing activity of an organisation (internal/typing): who types in which
    topic, counted once more per channel for the channel's feed; a member's
    accepted streams in a channel; and one expiry timer per active topic, whose
    callback may come too late. */
module Typing {
  import opened Common
  import opened TypingSummary

  /** Topic 0 is the channel's feed. */
  datatype Place = Place(channel: nat, topic: nat)

  datatype Key = Key(member: nat, channel: nat)

  /** A member's accepted streams in a channel, with the current timer of each
      topic they are active in. Such records are never reused. */
  datatype Streams = Streams(key: Key, count: int, topics: map<nat, nat>)

  datatype Timer = Timer(streams: nat, topic: nat, fired: bool)

  datatype Opened = Opened(streams: nat, closed: bool)

  datatype State = State(
    generation: nat, places: map<Place, Summary>, streams: map<Key, nat>, lives: map<nat, Streams>,
    timers: map<nat, Timer>, opens: map<nat, Opened>)

  /** `order` is the order in which a last close happens to visit the topics. */
  datatype Action =
    | Open(key: Key, stream: nat, record: nat)
    | Close(stream: nat, order: seq<nat>)
    | Start(place: Place, typist: Typist, timer: nat)
    | Stop(place: Place, member: nat)
    | Fire(timer: nat)

  function Init(): State {
    State(0, map[], map[], map[], map[], map[])
  }

  // ----- steps -----

  function Feed(channel: nat): Place {
    Place(channel, 0)
  }

  function At(places: map<Place, Summary>, p: Place): Summary {
    if p in places then places[p] else EMPTY
  }

  predicate Active(places: map<Place, Summary>, p: Place, m: nat) {
    m in At(places, p).members
  }

  /** A start counts in the topic and in its channel's feed. */
  function StartedPlaces(places: map<Place, Summary>, p: Place, typist: Typist, g: nat): map<Place, Summary> {
    places[p := Started(At(places, p), typist, g)][Feed(p.channel) := Started(At(places, Feed(p.channel)), typist, g)]
  }

  function StoppedAt(p: Summary, m: nat, g: nat): Summary {
    if m in p.members then Stopped(p, m, g) else p
  }

  function StoppedPlaces(places: map<Place, Summary>, p: Place, m: nat, g: nat): map<Place, Summary> {
    places[p := StoppedAt(At(places, p), m, g)][Feed(p.channel) := StoppedAt(At(places, Feed(p.channel)), m, g)]
  }

  function WithTopics(lives: map<nat, Streams>, x: nat, topics: map<nat, nat>): map<nat, Streams> {
    if x in lives then lives[x := lives[x].(topics := topics)] else lives
  }

  function TopicsOf(streams: map<Key, nat>, lives: map<nat, Streams>, key: Key): map<nat, nat> {
    if key in streams && streams[key] in lives then lives[streams[key]].topics else map[]
  }

  /** start: refreshes the topic's timer; only a new activity is counted. */
  function AfterStart(s: State, p: Place, typist: Typist, t: nat): State {
    var key := Key(typist.member, p.channel);
    if p.topic == 0 || key !in s.streams then s
    else
      var x, topics := s.streams[key], TopicsOf(s.streams, s.lives, key);
      var timed := s.(lives := WithTopics(s.lives, x, topics[p.topic := t]), timers := s.timers[t := Timer(x, p.topic, false)]);
      if Active(s.places, p, typist.member) then timed
      else timed.(generation := s.generation + 1, places := StartedPlaces(s.places, p, typist, s.generation + 1))
  }

  /** stop: ends the member's activity in one topic, if there is any. */
  function AfterStop(s: State, p: Place, m: nat): State {
    var key := Key(m, p.channel);
    if p.topic == 0 || !Active(s.places, p, m) then s
    else
      var topics := TopicsOf(s.streams, s.lives, key) - {p.topic};
      s.(generation := s.generation + 1, places := StoppedPlaces(s.places, p, m, s.generation + 1),
         lives := if key in s.streams then WithTopics(s.lives, s.streams[key], topics) else s.lives)
  }

  /** A stream without a channel is not counted. */
  function AfterOpen(s: State, key: Key, stream: nat, x: nat): State
    requires key in s.streams ==> s.streams[key] in s.lives
  {
    if key.channel == 0 then s
    else
      var y := if key in s.streams then s.streams[key] else x;
      var live := if key in s.streams then s.lives[y] else Streams(key, 0, map[]);
      s.(streams := s.streams[key := y], lives := s.lives[y := live.(count := live.count + 1)],
         opens := s.opens[stream := Opened(y, false)])
  }

  function StopAll(s: State, key: Key, order: seq<nat>): State
    decreases |order|
  {
    if order == [] then s else StopAll(AfterStop(s, Place(key.channel, order[0]), key.member), key, order[1..])
  }

  /** Open's cleanup: the last one stops every activity, then drops the record. */
  function AfterClose(s: State, stream: nat, order: seq<nat>): State
    requires stream in s.opens && s.opens[stream].streams in s.lives
  {
    var x := s.opens[stream].streams;
    if s.opens[stream].closed then s
    else
      var live := s.lives[x].(count := s.lives[x].count - 1);
      var left := s.(lives := s.lives[x := live], opens := s.opens[stream := Opened(x, true)]);
      if live.count != 0 then left
      else
        var stopped := StopAll(left, live.key, order);
        stopped.(streams := stopped.streams - {live.key})
  }

  /** The timer's callback: nothing unless it is still the topic's timer. */
  predicate IsCurrent(s: State, t: nat) {
    && t in s.timers && s.timers[t].streams in s.lives
    && var topics := s.lives[s.timers[t].streams].topics;
       s.timers[t].topic in topics && topics[s.timers[t].topic] == t
  }

  function AfterFire(s: State, t: nat): State
    requires t in s.timers && s.timers[t].streams in s.lives
  {
    var fired := s.(timers := s.timers[t := s.timers[t].(fired := true)]);
    var key := s.lives[s.timers[t].streams].key;
    if !IsCurrent(s, t) then fired else AfterStop(fired, Place(key.channel, s.timers[t].topic), key.member)
  }

  ghost predicate Enabled(s: State, a: Action) {
    match a
    case Open(key, stream, x) => stream !in s.opens && x !in s.lives && (key in s.streams ==> s.streams[key] in s.lives)
    case Close(stream, order) =>
      && stream in s.opens && s.opens[stream].streams in s.lives
      && Distinct(order) && Elements(order) == s.lives[s.opens[stream].streams].topics.Keys
    case Start(_, _, t) => t !in s.timers
    case Stop(_, _) => true
    case Fire(t) => t in s.timers && !s.timers[t].fired && s.timers[t].streams in s.lives
  }

  function Next(s: State, a: Action): State
    requires Enabled(s, a)
  {
    match a
    case Open(key, stream, x) => AfterOpen(s, key, stream, x)
    case Close(stream, order) => AfterClose(s, stream, order)
    case Start(p, typist, t) => AfterStart(s, p, typist, t)
    case Stop(p, m) => AfterStop(s, p, m)
    case Fire(t) => AfterFire(s, t)
  }

  // ----- what a viewer sees -----

  datatype Snapshot = Snapshot(generation: nat, placeGeneration: nat, typists: seq<Typist>, remaining: int)

  /** Read: up to three of the four candidates, and how many are left. */
  function Read(s: State, p: Place, viewer: nat): Snapshot {
    if p !in s.places then Snapshot(s.generation, 0, [], 0)
    else
      var summary := s.places[p];
      var shown := FirstThree(NotViewer(summary.latest, viewer));
      Snapshot(s.generation, summary.generation, shown,
               |summary.members| - (if viewer in summary.members then 1 else 0) - |shown|)
  }

  // ----- the invariant -----

  /** One activity per topic; the summaries are in order. */
  ghost predicate PlaceOk(p: Place, summary: Summary, g: nat) {
    && SummaryOk(summary) && summary.generation <= g
    && (p.topic != 0 ==> forall m :: m in summary.members ==> summary.members[m].count == 1)
  }

  ghost predicate PlacesInv(places: map<Place, Summary>, g: nat) {
    forall p :: p in places ==> PlaceOk(p, places[p], g)
  }

  ghost function TopicsIn(places: map<Place, Summary>, m: nat, channel: nat): set<Place> {
    set p | p in places && p.channel == channel && p.topic != 0 && m in places[p].members
  }

  /** The feed counts the channel's topics the member is active in. */
  ghost predicate FeedOk(places: map<Place, Summary>, m: nat, channel: nat) {
    Count(At(places, Feed(channel)), m) == |TopicsIn(places, m, channel)|
  }

  ghost predicate FeedInv(places: map<Place, Summary>) {
    forall m, channel :: FeedOk(places, m, channel)
  }

  ghost predicate Held(streams: map<Key, nat>, lives: map<nat, Streams>, x: nat) {
    x in lives && lives[x].key in streams && streams[lives[x].key] == x
  }

  ghost predicate LiveOk(streams: map<Key, nat>, lives: map<nat, Streams>, x: nat) {
    x in lives && 0 !in lives[x].topics && (!Held(streams, lives, x) ==> lives[x].topics == map[])
  }

  ghost predicate KeysInv(streams: map<Key, nat>, lives: map<nat, Streams>) {
    && (forall k :: k in streams ==> streams[k] in lives && lives[streams[k]].key == k)
    && (forall x :: x in lives ==> LiveOk(streams, lives, x))
  }

  ghost function OpenOf(opens: map<nat, Opened>, x: nat): set<nat> {
    set o | o in opens && opens[o].streams == x && !opens[o].closed
  }

  ghost predicate CountOk(streams: map<Key, nat>, lives: map<nat, Streams>, opens: map<nat, Opened>, x: nat) {
    x in lives && lives[x].count == |OpenOf(opens, x)| && (Held(streams, lives, x) <==> lives[x].count > 0)
  }

  ghost predicate CountsInv(streams: map<Key, nat>, lives: map<nat, Streams>, opens: map<nat, Opened>) {
    && (forall o :: o in opens ==> opens[o].streams in lives)
    && (forall x :: x in lives ==> CountOk(streams, lives, opens, x))
  }

  ghost predicate TimersOk(x: nat, topics: map<nat, nat>, timers: map<nat, Timer>) {
    forall topic :: topic in topics ==> topics[topic] in timers && timers[topics[topic]] == Timer(x, topic, false)
  }

  ghost predicate TimersInv(lives: map<nat, Streams>, timers: map<nat, Timer>) {
    && (forall x :: x in lives ==> TimersOk(x, lives[x].topics, timers))
    && (forall t :: t in timers ==> timers[t].streams in lives)
  }

  ghost predicate ActiveOk(places: map<Place, Summary>, streams: map<Key, nat>, lives: map<nat, Streams>, p: Place, m: nat) {
    Active(places, p, m) <==> p.topic in TopicsOf(streams, lives, Key(m, p.channel))
  }

  /** Active in a topic: there is a current timer for it under an open stream. */
  ghost predicate ActiveInv(places: map<Place, Summary>, streams: map<Key, nat>, lives: map<nat, Streams>) {
    forall p: Place, m: nat :: p.topic != 0 ==> ActiveOk(places, streams, lives, p, m)
  }

  /** What also holds between the stops of a last close. */
  ghost predicate Core(s: State) {
    && PlacesInv(s.places, s.generation) && FeedInv(s.places) && KeysInv(s.streams, s.lives)
    && TimersInv(s.lives, s.timers) && ActiveInv(s.places, s.streams, s.lives)
  }

  ghost predicate Inv(s: State) {
    Core(s) && CountsInv(s.streams, s.lives, s.opens)
  }

  // ----- places -----

  /** Only the member's counts at a topic and its feed differ, by d. */
  ghost predicate Shifted(before: map<Place, Summary>, after: map<Place, Summary>, p: Place, m: nat, d: int) {
    forall q: Place, n: nat ::
      Count(At(after, q), n) == Count(At(before, q), n) + if n == m && (q == p || q == Feed(p.channel)) then d else 0
  }

  lemma PlaceFacts(places: map<Place, Summary>, p: Place, g: nat)
    requires PlacesInv(places, g)
    ensures PlaceOk(p, At(places, p), g)
  {
  }

  lemma PlacesSet(places: map<Place, Summary>, p: Place, a: Summary, feed: Place, b: Summary, g: nat)
    requires PlacesInv(places, g) && PlaceOk(p, a, g + 1) && PlaceOk(feed, b, g + 1)
    ensures PlacesInv(places[p := a][feed := b], g + 1)
  {
    hide SummaryOk;
    var after := places[p := a][feed := b];
    forall q | q in after ensures PlaceOk(q, after[q], g + 1) {
      if q != p && q != feed {
        assert PlaceOk(q, places[q], g);
      }
    }
  }

  lemma StartedPlacesOk(places: map<Place, Summary>, p: Place, typist: Typist, g: nat)
    requires PlacesInv(places, g) && p.topic != 0 && !Active(places, p, typist.member)
    ensures PlacesInv(StartedPlaces(places, p, typist, g + 1), g + 1)
    ensures Shifted(places, StartedPlaces(places, p, typist, g + 1), p, typist.member, 1)
  {
    hide SummaryOk, Started, Count, PlacesInv;
    var feed := Feed(p.channel);
    PlaceFacts(places, p, g);
    PlaceFacts(places, feed, g);
    StartedOk(At(places, p), typist, g + 1);
    StartedOk(At(places, feed), typist, g + 1);
    StartedOnce(At(places, p), typist, g + 1);
    PlacesSet(places, p, Started(At(places, p), typist, g + 1), feed, Started(At(places, feed), typist, g + 1), g);
  }

  lemma StartedOnce(p: Summary, typist: Typist, g: nat)
    requires typist.member !in p.members && forall m :: m in p.members ==> p.members[m].count == 1
    ensures forall m :: m in Started(p, typist, g).members ==> Started(p, typist, g).members[m].count == 1
  {
    hide Names;
  }

  lemma StoppedPlacesOk(places: map<Place, Summary>, p: Place, m: nat, g: nat)
    requires PlacesInv(places, g) && p.topic != 0 && Active(places, p, m) && Active(places, Feed(p.channel), m)
    ensures PlacesInv(StoppedPlaces(places, p, m, g + 1), g + 1)
    ensures Shifted(places, StoppedPlaces(places, p, m, g + 1), p, m, -1)
  {
    hide SummaryOk, Stopped, Count, PlacesInv;
    var feed := Feed(p.channel);
    PlaceFacts(places, p, g);
    PlaceFacts(places, feed, g);
    StoppedOk(At(places, p), m, g + 1);
    StoppedOk(At(places, feed), m, g + 1);
    StoppedOnce(At(places, p), m, g + 1);
    PlacesSet(places, p, Stopped(At(places, p), m, g + 1), feed, Stopped(At(places, feed), m, g + 1), g);
  }

  lemma StoppedOnce(p: Summary, m: nat, g: nat)
    requires m in p.members && forall n :: n in p.members ==> p.members[n].count == 1
    ensures forall n :: n in Stopped(p, m, g).members ==> Stopped(p, m, g).members[n].count == 1
  {
    hide Names, Without;
  }

  /** A member is active where they count; in a topic they count once. */
  lemma CountFacts(places: map<Place, Summary>, p: Place, m: nat, g: nat)
    requires PlacesInv(places, g)
    ensures Active(places, p, m) <==> Count(At(places, p), m) != 0
    ensures p.topic != 0 && Active(places, p, m) ==> Count(At(places, p), m) == 1
  {
    PlaceFacts(places, p, g);
    hide PlacesInv, Names, NewestFirst;
    var summary := At(places, p);
    if m in summary.members {
      assert ActivityOk(m, summary.members[m], summary.generation);
    }
  }

  lemma ActiveShifted(before: map<Place, Summary>, after: map<Place, Summary>, p: Place, m: nat, d: int, g: nat, q: Place, n: nat)
    requires PlacesInv(before, g) && PlacesInv(after, g + 1) && Shifted(before, after, p, m, d)
    requires p.topic != 0 && d == (if Active(before, p, m) then -1 else 1) && q.topic != 0
    ensures Active(after, q, n) <==> if q == p && n == m then d == 1 else Active(before, q, n)
  {
    hide PlacesInv, Count, At, Active;
    CountFacts(before, q, n, g);
    CountFacts(after, q, n, g + 1);
  }

  lemma FeedKept(before: map<Place, Summary>, after: map<Place, Summary>, p: Place, m: nat, d: int, g: nat)
    requires PlacesInv(before, g) && PlacesInv(after, g + 1) && Shifted(before, after, p, m, d)
    requires p.topic != 0 && d == (if Active(before, p, m) then -1 else 1) && FeedInv(before)
    ensures FeedInv(after)
  {
    hide PlacesInv, Count;
    forall n: nat, channel: nat ensures FeedOk(after, n, channel) {
      assert FeedOk(before, n, channel);
      TopicsShifted(before, after, p, m, d, g, n, channel);
    }
  }

  lemma TopicsAre(places: map<Place, Summary>, m: nat, channel: nat, q: Place)
    ensures q in TopicsIn(places, m, channel) <==> q.channel == channel && q.topic != 0 && Active(places, q, m)
  {
  }

  lemma TopicsShifted(before: map<Place, Summary>, after: map<Place, Summary>, p: Place, m: nat, d: int, g: nat, n: nat, channel: nat)
    requires PlacesInv(before, g) && PlacesInv(after, g + 1) && Shifted(before, after, p, m, d)
    requires p.topic != 0 && d == (if Active(before, p, m) then -1 else 1)
    ensures |TopicsIn(after, n, channel)|
         == |TopicsIn(before, n, channel)| + if n == m && channel == p.channel then d else 0
  {
    hide PlacesInv, Shifted, TopicsIn, Active;
    var a, b := TopicsIn(before, n, channel), TopicsIn(after, n, channel);
    forall q: Place
      ensures q in b <==> if q == p && n == m && channel == p.channel then d == 1 else q in a
      ensures q == p && n == m && channel == p.channel ==> (q in a <==> d == -1)
    {
      TopicsAre(before, n, channel, q);
      TopicsAre(after, n, channel, q);
      if q.topic != 0 {
        ActiveShifted(before, after, p, m, d, g, q, n);
      }
    }
    if n == m && channel == p.channel {
      if d == 1 {
        assert b == a + {p};
      } else {
        assert a == b + {p};
      }
    } else {
      assert a == b;
    }
  }

  // ----- streams and timers -----

  lemma TopicsHeld(streams: map<Key, nat>, lives: map<nat, Streams>, x: nat)
    requires KeysInv(streams, lives) && x in lives && lives[x].topics != map[]
    ensures Held(streams, lives, x) && TopicsOf(streams, lives, lives[x].key) == lives[x].topics
  {
    assert LiveOk(streams, lives, x);
  }

  /** The topics of one held record change. */
  lemma TopicsKept(streams: map<Key, nat>, lives: map<nat, Streams>, key: Key, topics: map<nat, nat>)
    requires KeysInv(streams, lives) && key in streams && 0 !in topics
    ensures var after := WithTopics(lives, streams[key], topics);
            && KeysInv(streams, after) && after.Keys == lives.Keys
            && TopicsOf(streams, after, key) == topics
            && (forall k :: k != key ==> TopicsOf(streams, after, k) == TopicsOf(streams, lives, k))
  {
    var x := streams[key];
    var after := WithTopics(lives, x, topics);
    forall y | y in after ensures LiveOk(streams, after, y) {
      assert LiveOk(streams, lives, y);
    }
  }

  lemma TimersKept(lives: map<nat, Streams>, timers: map<nat, Timer>, x: nat, topics: map<nat, nat>)
    requires TimersInv(lives, timers) && TimersOk(x, topics, timers)
    ensures TimersInv(WithTopics(lives, x, topics), timers)
  {
    var after := WithTopics(lives, x, topics);
    forall y | y in after ensures TimersOk(y, after[y].topics, timers) {
      assert TimersOk(y, lives[y].topics, timers);
    }
  }

  lemma TimerAdded(lives: map<nat, Streams>, timers: map<nat, Timer>, t: nat, timer: Timer)
    requires TimersInv(lives, timers) && t !in timers && timer.streams in lives
    ensures TimersInv(lives, timers[t := timer])
  {
    forall y | y in lives ensures TimersOk(y, lives[y].topics, timers[t := timer]) {
      assert TimersOk(y, lives[y].topics, timers);
    }
  }

  lemma CountsKept(streams: map<Key, nat>, lives: map<nat, Streams>, opens: map<nat, Opened>, x: nat, topics: map<nat, nat>)
    requires CountsInv(streams, lives, opens)
    ensures CountsInv(streams, WithTopics(lives, x, topics), opens)
  {
    var after := WithTopics(lives, x, topics);
    forall y | y in after ensures CountOk(streams, after, opens, y) {
      assert CountOk(streams, lives, opens, y);
    }
  }

  // ----- Start and Stop -----

  lemma RefreshKept(s: State, p: Place, m: nat, t: nat)
    requires Core(s) && p.topic != 0 && Key(m, p.channel) in s.streams && t !in s.timers
    ensures var key := Key(m, p.channel);
            var x, topics := s.streams[key], TopicsOf(s.streams, s.lives, key)[p.topic := t];
            var after := WithTopics(s.lives, x, topics);
            && KeysInv(s.streams, after) && TimersInv(after, s.timers[t := Timer(x, p.topic, false)])
            && TopicsOf(s.streams, after, key) == topics
            && (forall k :: k != key ==> TopicsOf(s.streams, after, k) == TopicsOf(s.streams, s.lives, k))
  {
    hide PlacesInv, FeedInv, ActiveInv, TimersInv, WithTopics;
    var key := Key(m, p.channel);
    var x := s.streams[key];
    var timer := Timer(x, p.topic, false);
    assert LiveOk(s.streams, s.lives, x);
    hide KeysInv;
    TopicsKept(s.streams, s.lives, key, s.lives[x].topics[p.topic := t]);
    TimerAdded(s.lives, s.timers, t, timer);
    TopicTimers(s.lives, s.timers, x, p.topic, t);
    TimersKept(s.lives, s.timers[t := timer], x, s.lives[x].topics[p.topic := t]);
  }

  lemma TopicTimers(lives: map<nat, Streams>, timers: map<nat, Timer>, x: nat, topic: nat, t: nat)
    requires TimersInv(lives, timers) && x in lives && t !in timers
    ensures TimersOk(x, lives[x].topics[topic := t], timers[t := Timer(x, topic, false)])
  {
    assert TimersOk(x, lives[x].topics, timers);
  }

  lemma StartKept(s: State, p: Place, typist: Typist, t: nat)
    requires Core(s) && t !in s.timers
    ensures Core(AfterStart(s, p, typist, t))
  {
    var m, key := typist.member, Key(typist.member, p.channel);
    hide PlacesInv, FeedInv, KeysInv, TimersInv, WithTopics, StartedPlaces, Active, TopicsOf;
    if p.topic != 0 && key in s.streams {
      RefreshKept(s, p, m, t);
      var x, topics := s.streams[key], TopicsOf(s.streams, s.lives, key)[p.topic := t];
      var lives := WithTopics(s.lives, x, topics);
      var started := Active(s.places, p, m);
      var places := if started then s.places else StartedPlaces(s.places, p, typist, s.generation + 1);
      if !started {
        StartedPlacesOk(s.places, p, typist, s.generation);
        FeedKept(s.places, places, p, m, 1, s.generation);
      }
      forall q: Place, n: nat | q.topic != 0 ensures ActiveOk(places, s.streams, lives, q, n) {
        assert ActiveOk(s.places, s.streams, s.lives, q, n);
        if !started {
          ActiveShifted(s.places, places, p, m, 1, s.generation, q, n);
        }
      }
    }
  }

  lemma FeedActive(places: map<Place, Summary>, p: Place, m: nat, g: nat)
    requires PlacesInv(places, g) && FeedInv(places) && p.topic != 0 && Active(places, p, m)
    ensures Active(places, Feed(p.channel), m)
  {
    hide PlacesInv, Count;
    TopicsAre(places, m, p.channel, p);
    assert FeedOk(places, m, p.channel);
    assert p in TopicsIn(places, m, p.channel);
    CountFacts(places, Feed(p.channel), m, g);
  }

  lemma StopKept(s: State, p: Place, m: nat)
    requires Core(s)
    ensures Core(AfterStop(s, p, m))
  {
    var key := Key(m, p.channel);
    hide PlacesInv, FeedInv, KeysInv, TimersInv, WithTopics, StoppedPlaces, Active, TopicsOf;
    if p.topic != 0 && Active(s.places, p, m) {
      assert ActiveOk(s.places, s.streams, s.lives, p, m);
      StopLives(s, p, m);
      var topics := TopicsOf(s.streams, s.lives, key) - {p.topic};
      var lives := WithTopics(s.lives, s.streams[key], topics);
      var places := StoppedPlaces(s.places, p, m, s.generation + 1);
      FeedActive(s.places, p, m, s.generation);
      StoppedPlacesOk(s.places, p, m, s.generation);
      FeedKept(s.places, places, p, m, -1, s.generation);
      forall q: Place, n: nat | q.topic != 0 ensures ActiveOk(places, s.streams, lives, q, n) {
        assert ActiveOk(s.places, s.streams, s.lives, q, n);
        ActiveShifted(s.places, places, p, m, -1, s.generation, q, n);
      }
    }
  }

  lemma StopLives(s: State, p: Place, m: nat)
    requires KeysInv(s.streams, s.lives) && TimersInv(s.lives, s.timers)
    requires p.topic in TopicsOf(s.streams, s.lives, Key(m, p.channel))
    ensures var key := Key(m, p.channel);
            && key in s.streams
            && var topics := TopicsOf(s.streams, s.lives, key) - {p.topic};
               var after := WithTopics(s.lives, s.streams[key], topics);
               && KeysInv(s.streams, after) && TimersInv(after, s.timers)
               && TopicsOf(s.streams, after, key) == topics
               && (forall k :: k != key ==> TopicsOf(s.streams, after, k) == TopicsOf(s.streams, s.lives, k))
  {
    hide TimersInv, WithTopics;
    var key := Key(m, p.channel);
    var x := s.streams[key];
    assert LiveOk(s.streams, s.lives, x);
    hide KeysInv;
    var topics := s.lives[x].topics - {p.topic};
    TopicsKept(s.streams, s.lives, key, topics);
    assert TimersOk(x, topics, s.timers) by { FewerTimers(s.lives, s.timers, x, topics); }
    TimersKept(s.lives, s.timers, x, topics);
  }

  lemma FewerTimers(lives: map<nat, Streams>, timers: map<nat, Timer>, x: nat, topics: map<nat, nat>)
    requires TimersInv(lives, timers) && x in lives
    requires forall topic :: topic in topics ==> topic in lives[x].topics && topics[topic] == lives[x].topics[topic]
    ensures TimersOk(x, topics, timers)
  {
    assert TimersOk(x, lives[x].topics, timers);
  }

  lemma StartCounts(s: State, p: Place, typist: Typist, t: nat)
    requires CountsInv(s.streams, s.lives, s.opens)
    ensures var u := AfterStart(s, p, typist, t); CountsInv(u.streams, u.lives, u.opens)
  {
    hide CountsInv, WithTopics, Active, StartedPlaces;
    var key := Key(typist.member, p.channel);
    if key in s.streams {
      CountsKept(s.streams, s.lives, s.opens, s.streams[key], TopicsOf(s.streams, s.lives, key)[p.topic := t]);
    }
  }

  lemma StopCounts(s: State, p: Place, m: nat)
    requires CountsInv(s.streams, s.lives, s.opens)
    ensures var u := AfterStop(s, p, m); CountsInv(u.streams, u.lives, u.opens)
  {
    hide CountsInv, WithTopics, Active, StoppedPlaces;
    var key := Key(m, p.channel);
    if key in s.streams {
      CountsKept(s.streams, s.lives, s.opens, s.streams[key], TopicsOf(s.streams, s.lives, key) - {p.topic});
    }
  }

  // ----- Open and its cleanup -----

  /** The records' keys and counts are the same. */
  ghost predicate SameRecords(a: map<nat, Streams>, b: map<nat, Streams>) {
    a.Keys == b.Keys && forall x :: x in a ==> a[x].key == b[x].key && a[x].count == b[x].count
  }

  lemma OpenedKeys(streams: map<Key, nat>, lives: map<nat, Streams>, key: Key, y: nat, live: Streams)
    requires KeysInv(streams, lives) && live.key == key
    requires if key in streams then y == streams[key] && y in lives && live.topics == lives[y].topics
             else y !in lives && live.topics == map[]
    ensures KeysInv(streams[key := y], lives[y := live])
    ensures forall k :: TopicsOf(streams[key := y], lives[y := live], k) == TopicsOf(streams, lives, k)
  {
    var streams', lives' := streams[key := y], lives[y := live];
    forall x | x in lives' ensures LiveOk(streams', lives', x) {
      if x != y {
        assert LiveOk(streams, lives, x);
      } else if y in lives {
        assert LiveOk(streams, lives, y);
      }
    }
  }

  lemma RecordTimers(lives: map<nat, Streams>, timers: map<nat, Timer>, y: nat, live: Streams)
    requires TimersInv(lives, timers) && live.topics == (if y in lives then lives[y].topics else map[])
    ensures TimersInv(lives[y := live], timers)
  {
    var after := lives[y := live];
    forall x | x in after ensures TimersOk(x, after[x].topics, timers) {
      if x in lives {
        assert TimersOk(x, lives[x].topics, timers);
      }
    }
  }

  lemma SameActive(places: map<Place, Summary>, streams: map<Key, nat>, lives: map<nat, Streams>,
                   streams': map<Key, nat>, lives': map<nat, Streams>)
    requires ActiveInv(places, streams, lives)
    requires forall k :: TopicsOf(streams', lives', k) == TopicsOf(streams, lives, k)
    ensures ActiveInv(places, streams', lives')
  {
    hide Active, TopicsOf;
    forall p: Place, m: nat | p.topic != 0 ensures ActiveOk(places, streams', lives', p, m) {
      assert ActiveOk(places, streams, lives, p, m);
    }
  }

  lemma OpenedCount(opens: map<nat, Opened>, lives: map<nat, Streams>, stream: nat, y: nat, x: nat)
    requires stream !in opens
    ensures |OpenOf(opens[stream := Opened(y, false)], x)| == |OpenOf(opens, x)| + if x == y then 1 else 0
  {
    var after := OpenOf(opens[stream := Opened(y, false)], x);
    if x == y {
      assert after == OpenOf(opens, x) + {stream};
    } else {
      assert after == OpenOf(opens, x);
    }
  }

  lemma OpenCounts(s: State, key: Key, stream: nat, x: nat)
    requires KeysInv(s.streams, s.lives) && CountsInv(s.streams, s.lives, s.opens)
    requires Enabled(s, Open(key, stream, x))
    ensures var u := AfterOpen(s, key, stream, x); CountsInv(u.streams, u.lives, u.opens)
  {
    hide OpenOf, TopicsOf;
    if key.channel != 0 {
      var u := AfterOpen(s, key, stream, x);
      var y := u.streams[key];
      if key !in s.streams {
        NoneOpen(s.opens, s.lives, x);
      }
      forall z | z in u.lives ensures CountOk(u.streams, u.lives, u.opens, z) {
        OpenedCount(s.opens, s.lives, stream, y, z);
        if z in s.lives {
          assert CountOk(s.streams, s.lives, s.opens, z);
        }
      }
    }
  }

  lemma NoneOpen(opens: map<nat, Opened>, lives: map<nat, Streams>, x: nat)
    requires x !in lives && forall o :: o in opens ==> opens[o].streams in lives
    ensures |OpenOf(opens, x)| == 0
  {
    assert OpenOf(opens, x) == {};
  }

  lemma OpenKept(s: State, key: Key, stream: nat, x: nat)
    requires Inv(s) && Enabled(s, Open(key, stream, x))
    ensures Inv(AfterOpen(s, key, stream, x))
  {
    hide PlacesInv, FeedInv, ActiveInv, KeysInv, TimersInv, CountsInv;
    if key.channel != 0 {
      OpenCounts(s, key, stream, x);
      var y := if key in s.streams then s.streams[key] else x;
      var live := if key in s.streams then s.lives[y] else Streams(key, 0, map[]);
      live := live.(count := live.count + 1);
      assert live.key == key by { KeyOf(s.streams, s.lives, key); }
      OpenedKeys(s.streams, s.lives, key, y, live);
      RecordTimers(s.lives, s.timers, y, live);
      SameActive(s.places, s.streams, s.lives, s.streams[key := y], s.lives[y := live]);
    }
  }

  lemma KeyOf(streams: map<Key, nat>, lives: map<nat, Streams>, key: Key)
    requires KeysInv(streams, lives)
    ensures key in streams ==> streams[key] in lives && lives[streams[key]].key == key
  {
  }

  lemma StopShape(s: State, p: Place, m: nat)
    requires Core(s)
    ensures var u, key := AfterStop(s, p, m), Key(m, p.channel);
            && u.streams == s.streams && u.opens == s.opens && u.timers == s.timers && SameRecords(s.lives, u.lives)
            && TopicsOf(u.streams, u.lives, key).Keys <= TopicsOf(s.streams, s.lives, key).Keys
            && (p.topic != 0 ==> TopicsOf(u.streams, u.lives, key).Keys == TopicsOf(s.streams, s.lives, key).Keys - {p.topic})
  {
    hide PlacesInv, FeedInv, TimersInv, StoppedPlaces, Active;
    var key := Key(m, p.channel);
    if p.topic != 0 {
      assert ActiveOk(s.places, s.streams, s.lives, p, m);
      hide ActiveInv;
      KeyOf(s.streams, s.lives, key);
    }
  }

  /** Stopping every topic in turn leaves the record without topics. */
  lemma {:induction false} StopAllKept(s: State, key: Key, order: seq<nat>)
    requires Core(s) && 0 !in order
    ensures var u := StopAll(s, key, order);
            && Core(u) && u.streams == s.streams && u.opens == s.opens && u.timers == s.timers && SameRecords(s.lives, u.lives)
            && TopicsOf(u.streams, u.lives, key).Keys == TopicsOf(s.streams, s.lives, key).Keys - Elements(order)
    decreases |order|
  {
    hide Core, TopicsOf, AfterStop;
    if order != [] {
      var p := Place(key.channel, order[0]);
      StopKept(s, p, key.member);
      StopShape(s, p, key.member);
      assert 0 !in order[1..];
      StopAllKept(AfterStop(s, p, key.member), key, order[1..]);
      assert Elements(order) == {order[0]} + Elements(order[1..]) by {
        assert order == [order[0]] + order[1..];
      }
    }
  }

  lemma ClosedCount(opens: map<nat, Opened>, stream: nat, x: nat)
    requires stream in opens && !opens[stream].closed
    ensures |OpenOf(opens[stream := Opened(opens[stream].streams, true)], x)|
         == |OpenOf(opens, x)| - if x == opens[stream].streams then 1 else 0
  {
    var after := OpenOf(opens[stream := Opened(opens[stream].streams, true)], x);
    if x == opens[stream].streams {
      assert OpenOf(opens, x) == after + {stream};
    } else {
      assert OpenOf(opens, x) == after;
    }
  }

  lemma CloseCounts(streams: map<Key, nat>, lives: map<nat, Streams>, opens: map<nat, Opened>, stream: nat, lives': map<nat, Streams>)
    requires KeysInv(streams, lives) && CountsInv(streams, lives, opens)
    requires stream in opens && !opens[stream].closed && opens[stream].streams in lives
    requires var x := opens[stream].streams; SameRecords(lives[x := lives[x].(count := lives[x].count - 1)], lives')
    ensures var x := opens[stream].streams;
            var streams' := if lives[x].count == 1 then streams - {lives[x].key} else streams;
            CountsInv(streams', lives', opens[stream := Opened(x, true)])
  {
    hide OpenOf, TopicsOf;
    var x := opens[stream].streams;
    var streams' := if lives[x].count == 1 then streams - {lives[x].key} else streams;
    var opens' := opens[stream := Opened(x, true)];
    assert CountOk(streams, lives, opens, x);
    ClosedCount(opens, stream, x);
    forall z | z in lives' ensures CountOk(streams', lives', opens', z) {
      ClosedCount(opens, stream, z);
      assert CountOk(streams, lives, opens, z);
    }
  }

  lemma DroppedKeys(streams: map<Key, nat>, lives: map<nat, Streams>, key: Key)
    requires KeysInv(streams, lives) && TopicsOf(streams, lives, key).Keys == {}
    ensures KeysInv(streams - {key}, lives)
    ensures forall k :: TopicsOf(streams - {key}, lives, k) == TopicsOf(streams, lives, k)
  {
    assert TopicsOf(streams, lives, key) == map[];
    forall x | x in lives ensures LiveOk(streams - {key}, lives, x) {
      assert LiveOk(streams, lives, x);
    }
  }

  lemma OpenIsHeld(streams: map<Key, nat>, lives: map<nat, Streams>, opens: map<nat, Opened>, stream: nat)
    requires CountsInv(streams, lives, opens) && stream in opens && !opens[stream].closed
    ensures opens[stream].streams in lives && lives[opens[stream].streams].count > 0
    ensures Held(streams, lives, opens[stream].streams)
  {
    var x := opens[stream].streams;
    assert CountOk(streams, lives, opens, x);
    assert stream in OpenOf(opens, x);
  }

  /** One stream fewer, before any stops. */
  lemma LeftKept(s: State, stream: nat)
    requires Inv(s) && stream in s.opens && !s.opens[stream].closed
    ensures var x := s.opens[stream].streams;
            && Held(s.streams, s.lives, x) && 0 !in s.lives[x].topics
            && Core(s.(lives := s.lives[x := s.lives[x].(count := s.lives[x].count - 1)], opens := s.opens[stream := Opened(x, true)]))
  {
    hide PlacesInv, FeedInv, ActiveInv, TimersInv, CountsInv;
    OpenIsHeld(s.streams, s.lives, s.opens, stream);
    var x := s.opens[stream].streams;
    var live := s.lives[x].(count := s.lives[x].count - 1);
    assert LiveOk(s.streams, s.lives, x);
    OpenedKeys(s.streams, s.lives, live.key, x, live);
    RecordTimers(s.lives, s.timers, x, live);
    SameActive(s.places, s.streams, s.lives, s.streams[live.key := x], s.lives[x := live]);
    assert s.streams[live.key := x] == s.streams;
  }

  lemma CloseKept(s: State, stream: nat, order: seq<nat>)
    requires Inv(s) && Enabled(s, Close(stream, order))
    ensures Inv(AfterClose(s, stream, order))
  {
    hide PlacesInv, FeedInv, ActiveInv, TimersInv, CountsInv, KeysInv, StopAll;
    if !s.opens[stream].closed {
      LeftKept(s, stream);
      var x := s.opens[stream].streams;
      var live := s.lives[x].(count := s.lives[x].count - 1);
      var left := s.(lives := s.lives[x := live], opens := s.opens[stream := Opened(x, true)]);
      assert 0 in order ==> 0 in Elements(order);
      StopAllKept(left, live.key, order);
      if live.count != 0 {
        CloseCounts(s.streams, s.lives, s.opens, stream, left.lives);
      } else {
        var stopped := StopAll(left, live.key, order);
        CloseCounts(s.streams, s.lives, s.opens, stream, stopped.lives);
        DroppedKeys(stopped.streams, stopped.lives, live.key);
        SameActive(stopped.places, stopped.streams, stopped.lives, stopped.streams - {live.key}, stopped.lives);
      }
    }
  }

  // ----- the timer's callback -----

  lemma FiredTimers(lives: map<nat, Streams>, timers: map<nat, Timer>, t: nat)
    requires TimersInv(lives, timers) && t in timers
    requires forall x, topic :: x in lives && topic in lives[x].topics ==> lives[x].topics[topic] != t
    ensures TimersInv(lives, timers[t := timers[t].(fired := true)])
  {
    var after := timers[t := timers[t].(fired := true)];
    forall x | x in lives ensures TimersOk(x, lives[x].topics, after) {
      assert TimersOk(x, lives[x].topics, timers);
    }
  }

  /** Only its own record and topic can hold a timer. */
  lemma TimerHolder(s: State, t: nat)
    requires TimersInv(s.lives, s.timers)
    ensures forall x, topic :: x in s.lives && topic in s.lives[x].topics && s.lives[x].topics[topic] == t
                               ==> IsCurrent(s, t) && s.timers[t] == Timer(x, topic, false)
  {
    forall x, topic | x in s.lives && topic in s.lives[x].topics && s.lives[x].topics[topic] == t
      ensures IsCurrent(s, t) && s.timers[t] == Timer(x, topic, false)
    {
      assert TimersOk(x, s.lives[x].topics, s.timers);
    }
  }

  lemma FireShape(s: State, t: nat)
    requires t in s.timers && s.timers[t].streams in s.lives && IsCurrent(s, t)
    ensures var key, fired := s.lives[s.timers[t].streams].key, s.timers[t := s.timers[t].(fired := true)];
            AfterFire(s, t) == AfterStop(s, Place(key.channel, s.timers[t].topic), key.member).(timers := fired)
  {
    hide WithTopics, Active, StoppedPlaces, TopicsOf;
  }

  lemma FireKept(s: State, t: nat)
    requires Inv(s) && Enabled(s, Fire(t))
    ensures Inv(AfterFire(s, t))
  {
    hide PlacesInv, FeedInv, ActiveInv, TimersInv, CountsInv, KeysInv, AfterStop, IsCurrent;
    if !IsCurrent(s, t) {
      TimerHolder(s, t);
      FiredTimers(s.lives, s.timers, t);
    } else {
      FireShape(s, t);
      var key := s.lives[s.timers[t].streams].key;
      var p := Place(key.channel, s.timers[t].topic);
      StopKept(s, p, key.member);
      StopCounts(s, p, key.member);
      var u := AfterStop(s, p, key.member);
      StoppedTimer(s, t);
      TimerHolder(u, t);
      FiredTimers(u.lives, u.timers, t);
    }
  }

  /** Stopping the topic of a current timer takes the timer away. */
  lemma StoppedTimer(s: State, t: nat)
    requires Core(s) && IsCurrent(s, t)
    ensures var key := s.lives[s.timers[t].streams].key;
            var u := AfterStop(s, Place(key.channel, s.timers[t].topic), key.member);
            u.timers == s.timers && !IsCurrent(u, t)
  {
    var x, topic := s.timers[t].streams, s.timers[t].topic;
    var key := s.lives[x].key;
    var p := Place(key.channel, topic);
    assert topic != 0 by { assert LiveOk(s.streams, s.lives, x); }
    StopShape(s, p, key.member);
    StopKept(s, p, key.member);
    var u := AfterStop(s, p, key.member);
    hide PlacesInv, FeedInv, ActiveInv, TimersInv, KeysInv, AfterStop, TopicsOf;
    if IsCurrent(u, t) {
      TopicsHeld(u.streams, u.lives, x);
    }
  }

  lemma InvKept(s: State, a: Action)
    requires Inv(s) && Enabled(s, a)
    ensures Inv(Next(s, a))
  {
    hide Core, CountsInv, AfterOpen, AfterClose, AfterStart, AfterStop, AfterFire;
    match a
    case Open(key, stream, x) => OpenKept(s, key, stream, x);
    case Close(stream, order) => CloseKept(s, stream, order);
    case Start(p, typist, t) => StartKept(s, p, typist, t); StartCounts(s, p, typist, t);
    case Stop(p, m) => StopKept(s, p, m); StopCounts(s, p, m);
    case Fire(t) => FireKept(s, t);
  }
}
