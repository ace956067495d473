module TypingRuns {
  /** Over whole runs: feeds count topics, topics have one timer, four candidates
      suffice, nothing changes silently, and late timers stop nothing. */

  import opened TypingSummary
  import opened Typing

  ghost predicate StepAt(trace: seq<State>, actions: seq<Action>, i: nat)
    requires i < |actions| < |trace|
  {
    Enabled(trace[i], actions[i]) && trace[i + 1] == Next(trace[i], actions[i])
  }

  ghost predicate IsRun(trace: seq<State>, actions: seq<Action>) {
    && |trace| == |actions| + 1 && trace[0] == Init()
    && forall i :: 0 <= i < |actions| ==> StepAt(trace, actions, i)
  }

  lemma InitInv()
    ensures Inv(Init())
  {
    forall m: nat, channel: nat ensures FeedOk(map[], m, channel) {
      assert TopicsIn(map[], m, channel) == {};
    }
  }

  lemma RunInv(trace: seq<State>, actions: seq<Action>, n: nat)
    requires IsRun(trace, actions) && n < |trace|
    ensures Inv(trace[n])
  {
    hide Inv, Next, Enabled, Init;
    InitInv();
    var i := 0;
    while i < n
      invariant i <= n && Inv(trace[i])
    {
      assert StepAt(trace, actions, i);
      InvKept(trace[i], actions[i]);
      i := i + 1;
    }
  }

  /** A member's feed activity is the number of the channel's topics they are
      active in, and in each of those they are counted once. */
  lemma FeedCountsTopics(trace: seq<State>, actions: seq<Action>, n: nat, m: nat, channel: nat)
    requires IsRun(trace, actions) && n < |trace|
    ensures var places := trace[n].places;
            && Count(At(places, Feed(channel)), m) == |TopicsIn(places, m, channel)|
            && (forall p :: p in TopicsIn(places, m, channel) ==> Count(At(places, p), m) == 1)
  {
    RunInv(trace, actions, n);
    hide IsRun, PlacesInv, ActiveInv, TimersInv, CountsInv, KeysInv, Count, TopicsIn, Active;
    var s := trace[n];
    assert FeedOk(s.places, m, channel);
    forall p | p in TopicsIn(s.places, m, channel) ensures Count(At(s.places, p), m) == 1 {
      TopicsAre(s.places, m, channel, p);
      CountFacts(s.places, p, m, s.generation);
    }
  }

  /** The timers that could stop the member's activity in a topic. */
  ghost predicate Expires(s: State, t: nat, p: Place, m: nat) {
    IsCurrent(s, t) && !s.timers[t].fired && s.timers[t].topic == p.topic && s.lives[s.timers[t].streams].key == Key(m, p.channel)
  }

  /** The member has an accepted stream in the channel. */
  ghost predicate HasStream(s: State, m: nat, channel: nat) {
    exists o :: o in s.opens && !s.opens[o].closed && s.opens[o].streams in s.lives && s.lives[s.opens[o].streams].key == Key(m, channel)
  }

  /** Each active topic has exactly one current timer that can still fire, and
      the member has an open stream in the channel; elsewhere there is none. */
  lemma OneTimerPerTopic(trace: seq<State>, actions: seq<Action>, n: nat, p: Place, m: nat)
    requires IsRun(trace, actions) && n < |trace| && p.topic != 0
    ensures Active(trace[n].places, p, m) <==> exists t :: Expires(trace[n], t, p, m)
    ensures forall t, u :: Expires(trace[n], t, p, m) && Expires(trace[n], u, p, m) ==> t == u
    ensures Active(trace[n].places, p, m) ==> HasStream(trace[n], m, p.channel)
  {
    RunInv(trace, actions, n);
    TimerOfTopic(trace[n], p, m);
    hide IsRun, Inv, Active, Expires, HasStream;
  }

  lemma TimerOfTopic(s: State, p: Place, m: nat)
    requires Inv(s) && p.topic != 0
    ensures Active(s.places, p, m) <==> exists t :: Expires(s, t, p, m)
    ensures forall t, u :: Expires(s, t, p, m) && Expires(s, u, p, m) ==> t == u
    ensures Active(s.places, p, m) ==> HasStream(s, m, p.channel)
  {
    hide PlacesInv, FeedInv, TimersInv, CountsInv, Active;
    var key := Key(m, p.channel);
    assert ActiveOk(s.places, s.streams, s.lives, p, m);
    forall t | Expires(s, t, p, m) ensures p.topic in TopicsOf(s.streams, s.lives, key) && TopicsOf(s.streams, s.lives, key)[p.topic] == t {
      TopicsHeld(s.streams, s.lives, s.timers[t].streams);
    }
    if p.topic in TopicsOf(s.streams, s.lives, key) {
      var x := s.streams[key];
      CurrentTimer(s, x, p.topic);
      OpenStream(s, x);
      assert Expires(s, s.lives[x].topics[p.topic], p, m);
    }
  }

  lemma CurrentTimer(s: State, x: nat, topic: nat)
    requires TimersInv(s.lives, s.timers) && x in s.lives && topic in s.lives[x].topics
    ensures var t := s.lives[x].topics[topic]; IsCurrent(s, t) && !s.timers[t].fired && s.timers[t] == Timer(x, topic, false)
  {
    assert TimersOk(x, s.lives[x].topics, s.timers);
  }

  lemma OpenStream(s: State, x: nat)
    requires CountsInv(s.streams, s.lives, s.opens) && Held(s.streams, s.lives, x)
    ensures exists o :: o in s.opens && !s.opens[o].closed && s.opens[o].streams == x
  {
    assert CountOk(s.streams, s.lives, s.opens, x);
    assert OpenOf(s.opens, x) != {};
    var o :| o in OpenOf(s.opens, x);
  }

  /** A member without an accepted stream in a channel is shown nowhere in it,
      neither in a topic nor in the feed. */
  lemma NobodyTypesWithoutAStream(trace: seq<State>, actions: seq<Action>, n: nat, p: Place, m: nat)
    requires IsRun(trace, actions) && n < |trace| && !HasStream(trace[n], m, p.channel)
    ensures !Active(trace[n].places, p, m)
  {
    RunInv(trace, actions, n);
    var s := trace[n];
    hide IsRun, PlacesInv, ActiveInv, TimersInv, CountsInv, KeysInv, Count, TopicsIn, Active, HasStream;
    forall q: Place ensures q !in TopicsIn(s.places, m, p.channel) {
      TopicsAre(s.places, m, p.channel, q);
      if q.topic != 0 {
        TimerOfTopic(s, q, m);
      }
    }
    if p.topic == 0 {
      assert TopicsIn(s.places, m, p.channel) == {};
      assert FeedOk(s.places, m, p.channel);
      CountFacts(s.places, p, m, s.generation);
    } else {
      TimerOfTopic(s, p, m);
    }
  }

  /** What a viewer reads is the first three of everyone but themselves, newest
      start first, and how many more there are: the four candidates suffice. */
  lemma ReadShowsTheNewest(trace: seq<State>, actions: seq<Action>, n: nat, p: Place, viewer: nat)
    requires IsRun(trace, actions) && n < |trace|
    ensures var s := trace[n];
            var summary, seen := At(s.places, p), Read(s, p, viewer);
            var others := NotViewer(Everyone(summary), viewer);
            && seen.typists == FirstThree(others) && seen.remaining == |others| - |seen.typists|
            && |Everyone(summary)| == |summary.starts| == |summary.members| && NewestFirst(summary.starts, summary.members)
            && (forall k :: 0 <= k < |summary.starts| ==> Everyone(summary)[k].member == summary.starts[k])
            && seen.placeGeneration <= seen.generation
  {
    RunInv(trace, actions, n);
    var s := trace[n];
    var summary := At(s.places, p);
    hide IsRun, ActiveInv, TimersInv, CountsInv, KeysInv, FeedInv, Names, NotViewer, FirstThree, NewestFirst, Everyone;
    PlaceFacts(s.places, p, s.generation);
    FourSuffice(summary, viewer);
    EveryoneOnce(summary);
    EmptyShown(viewer);
  }

  lemma EmptyShown(viewer: nat)
    ensures NotViewer(Everyone(EMPTY), viewer) == [] == FirstThree([])
  {
  }

  // ----- what is announced -----

  /** The place's generation says whether what it shows has changed. */
  ghost predicate Announced(a: Summary, b: Summary) {
    && a.generation <= b.generation
    && (a.generation == b.generation ==> a.members.Keys == b.members.Keys && a.starts == b.starts && a.latest == b.latest)
  }

  ghost predicate AllAnnounced(s: State, u: State) {
    s.generation <= u.generation && forall p :: Announced(At(s.places, p), At(u.places, p))
  }

  lemma StartAnnounced(s: State, p: Place, typist: Typist, t: nat)
    requires PlacesInv(s.places, s.generation)
    ensures AllAnnounced(s, AfterStart(s, p, typist, t))
  {
    hide SummaryOk, Names, PlacesInv;
    PlaceFacts(s.places, p, s.generation);
    PlaceFacts(s.places, Feed(p.channel), s.generation);
  }

  lemma StopAnnounced(s: State, p: Place, m: nat)
    requires PlacesInv(s.places, s.generation)
    ensures AllAnnounced(s, AfterStop(s, p, m))
  {
    hide SummaryOk, Names, PlacesInv;
    PlaceFacts(s.places, p, s.generation);
    PlaceFacts(s.places, Feed(p.channel), s.generation);
  }

  lemma AnnouncedTwice(s: State, u: State, v: State)
    requires AllAnnounced(s, u) && AllAnnounced(u, v)
    ensures AllAnnounced(s, v)
  {
    hide At;
    forall p ensures Announced(At(s.places, p), At(v.places, p)) {
      assert Announced(At(s.places, p), At(u.places, p)) && Announced(At(u.places, p), At(v.places, p));
    }
  }

  lemma {:induction false} StopAllAnnounced(s: State, key: Key, order: seq<nat>)
    requires Core(s)
    ensures AllAnnounced(s, StopAll(s, key, order))
    decreases |order|
  {
    hide PlacesInv, FeedInv, ActiveInv, TimersInv, KeysInv, AfterStop, At;
    if order != [] {
      var p := Place(key.channel, order[0]);
      StopAnnounced(s, p, key.member);
      StopKept(s, p, key.member);
      StopAllAnnounced(AfterStop(s, p, key.member), key, order[1..]);
      AnnouncedTwice(s, AfterStop(s, p, key.member), StopAll(s, key, order));
    }
  }

  lemma StepAnnounced(s: State, a: Action)
    requires Inv(s) && Enabled(s, a)
    ensures AllAnnounced(s, Next(s, a))
  {
    hide PlacesInv, FeedInv, ActiveInv, TimersInv, KeysInv, CountsInv, AfterStop, AfterStart, StopAll, At;
    match a
    case Open(key, stream, x) =>
    case Close(stream, order) =>
      if !s.opens[stream].closed {
        LeftKept(s, stream);
        var x := s.opens[stream].streams;
        var live := s.lives[x].(count := s.lives[x].count - 1);
        StopAllAnnounced(s.(lives := s.lives[x := live], opens := s.opens[stream := Opened(x, true)]), live.key, order);
      }
    case Start(p, typist, t) => StartAnnounced(s, p, typist, t);
    case Stop(p, m) => StopAnnounced(s, p, m);
    case Fire(t) =>
      var fired := s.(timers := s.timers[t := s.timers[t].(fired := true)]);
      var key := s.lives[s.timers[t].streams].key;
      StopAnnounced(fired, Place(key.channel, s.timers[t].topic), key.member);
  }

  /** No change is silent: between two moments at which a place has the same
      generation, every viewer reads the same names and the same rest. */
  lemma NoSilentChange(trace: seq<State>, actions: seq<Action>, m: nat, n: nat, p: Place, viewer: nat)
    requires IsRun(trace, actions) && m <= n < |trace|
    requires At(trace[m].places, p).generation == At(trace[n].places, p).generation
    ensures Read(trace[m], p, viewer).typists == Read(trace[n], p, viewer).typists
    ensures Read(trace[m], p, viewer).remaining == Read(trace[n], p, viewer).remaining
  {
    hide Inv, Next, Enabled, Init, At, AllAnnounced, NotViewer, FirstThree;
    SameAnnounced(trace[m]);
    var i := m;
    while i < n
      invariant m <= i <= n && AllAnnounced(trace[m], trace[i])
    {
      RunInv(trace, actions, i);
      assert StepAt(trace, actions, i);
      StepAnnounced(trace[i], actions[i]);
      AnnouncedTwice(trace[m], trace[i], trace[i + 1]);
      i := i + 1;
    }
    assert Announced(At(trace[m].places, p), At(trace[n].places, p)) by { AnnouncedAt(trace[m], trace[n], p); }
    SameReading(trace[m], trace[n], p, viewer);
  }

  lemma AnnouncedAt(s: State, u: State, p: Place)
    requires AllAnnounced(s, u)
    ensures Announced(At(s.places, p), At(u.places, p))
  {
  }

  lemma SameAnnounced(s: State)
    ensures AllAnnounced(s, s)
  {
  }

  lemma SameReading(s: State, u: State, p: Place, viewer: nat)
    requires At(s.places, p).members.Keys == At(u.places, p).members.Keys && At(s.places, p).latest == At(u.places, p).latest
    ensures Read(s, p, viewer).typists == Read(u, p, viewer).typists && Read(s, p, viewer).remaining == Read(u, p, viewer).remaining
  {
    hide Names, NotViewer, FirstThree;
    EmptyShown(viewer);
    ReadOfAt(s, p, viewer);
    ReadOfAt(u, p, viewer);
    assert |At(s.places, p).members| == |At(s.places, p).members.Keys|;
    assert |At(u.places, p).members| == |At(u.places, p).members.Keys|;
  }

  lemma ReadOfAt(s: State, p: Place, viewer: nat)
    ensures var summary, seen := At(s.places, p), Read(s, p, viewer);
            && seen.typists == FirstThree(NotViewer(summary.latest, viewer))
            && seen.remaining == |summary.members| - (if viewer in summary.members then 1 else 0) - |seen.typists|
  {
    EmptyShown(viewer);
  }

  // ----- timers that come too late -----

  /** The records a current timer could be in. */
  lemma StartTimers(s: State, p: Place, typist: Typist, t: nat, u: nat)
    requires u in s.timers && t !in s.timers && !IsCurrent(s, u)
    ensures u in AfterStart(s, p, typist, t).timers && !IsCurrent(AfterStart(s, p, typist, t), u)
  {
    hide StartedPlaces, Active;
  }

  lemma StopTimers(s: State, p: Place, m: nat, u: nat)
    requires u in s.timers && !IsCurrent(s, u)
    ensures AfterStop(s, p, m).timers == s.timers && !IsCurrent(AfterStop(s, p, m), u)
  {
    hide StoppedPlaces, Active;
  }

  lemma {:induction false} StopAllTimers(s: State, key: Key, order: seq<nat>, u: nat)
    requires u in s.timers && !IsCurrent(s, u)
    ensures StopAll(s, key, order).timers == s.timers && !IsCurrent(StopAll(s, key, order), u)
    decreases |order|
  {
    hide IsCurrent, AfterStop;
    if order != [] {
      var p := Place(key.channel, order[0]);
      StopTimers(s, p, key.member, u);
      StopAllTimers(AfterStop(s, p, key.member), key, order[1..], u);
    }
  }

  lemma CloseTimers(s: State, stream: nat, order: seq<nat>, u: nat)
    requires u in s.timers && !IsCurrent(s, u) && Enabled(s, Close(stream, order))
    ensures u in AfterClose(s, stream, order).timers && !IsCurrent(AfterClose(s, stream, order), u)
  {
    hide StopAll;
    var x := s.opens[stream].streams;
    var live := s.lives[x].(count := s.lives[x].count - 1);
    var left := s.(lives := s.lives[x := live], opens := s.opens[stream := Opened(x, true)]);
    assert !IsCurrent(left, u);
    StopAllTimers(left, live.key, order, u);
  }

  lemma FireTimers(s: State, t: nat, u: nat)
    requires u in s.timers && !IsCurrent(s, u) && Enabled(s, Fire(t))
    ensures u in AfterFire(s, t).timers && !IsCurrent(AfterFire(s, t), u)
  {
    hide AfterStop;
    var fired := s.(timers := s.timers[t := s.timers[t].(fired := true)]);
    assert !IsCurrent(fired, u);
    var key := s.lives[s.timers[t].streams].key;
    StopTimers(fired, Place(key.channel, s.timers[t].topic), key.member, u);
  }

  lemma StaleKept(s: State, a: Action, u: nat)
    requires u in s.timers && !IsCurrent(s, u) && Inv(s) && Enabled(s, a)
    ensures u in Next(s, a).timers && !IsCurrent(Next(s, a), u)
  {
    match a
    case Open(key, stream, x) => OpenTimers(s, key, stream, x, u);
    case Close(stream, order) => CloseTimers(s, stream, order, u);
    case Start(p, typist, t) => StartTimers(s, p, typist, t, u);
    case Stop(p, m) => StopTimers(s, p, m, u);
    case Fire(t) => FireTimers(s, t, u);
  }

  lemma OpenTimers(s: State, key: Key, stream: nat, x: nat, u: nat)
    requires u in s.timers && !IsCurrent(s, u) && Enabled(s, Open(key, stream, x))
    ensures u in AfterOpen(s, key, stream, x).timers && !IsCurrent(AfterOpen(s, key, stream, x), u)
  {
  }

  /** A timer that was replaced or whose topic was stopped never counts again:
      whenever its callback comes, it stops nothing. */
  lemma LateTimersStopNothing(trace: seq<State>, actions: seq<Action>, m: nat, n: nat, t: nat)
    requires IsRun(trace, actions) && m <= n < |trace| && t in trace[m].timers && !IsCurrent(trace[m], t)
    ensures t in trace[n].timers && !IsCurrent(trace[n], t)
    ensures n < |actions| && actions[n] == Fire(t) ==> trace[n + 1].places == trace[n].places && trace[n + 1].generation == trace[n].generation
  {
    hide Inv, Next, Enabled, Init, IsCurrent;
    var i := m;
    while i < n
      invariant m <= i <= n && t in trace[i].timers && !IsCurrent(trace[i], t)
    {
      RunInv(trace, actions, i);
      assert StepAt(trace, actions, i);
      StaleKept(trace[i], actions[i], t);
      i := i + 1;
    }
    if n < |actions| && actions[n] == Fire(t) {
      assert StepAt(trace, actions, n);
      LateFire(trace[n], t);
    }
  }

  lemma LateFire(s: State, t: nat)
    requires Enabled(s, Fire(t)) && !IsCurrent(s, t)
    ensures Next(s, Fire(t)).places == s.places && Next(s, Fire(t)).generation == s.generation
  {
  }
}
