/** Typing one step at a time, seen from the actions: whose streams there are,
    which timer a topic has and since when a member is active.
    TypingExact states what comes of it. */
module TypingSteps {
  import opened Common
  import opened TypingSummary
  import opened Typing
  import opened TypingRuns

  // ----- what the actions say -----

  predicate OpensOf(a: Action, key: Key) {
    a.Open? && a.key == key && key.channel != 0
  }

  ghost predicate NoClose(actions: seq<Action>, i: nat, n: nat, stream: nat)
    requires n <= |actions|
  {
    forall k :: i < k < n ==> !(actions[k].Close? && actions[k].stream == stream)
  }

  /** The stream was accepted for the key and its cleanup has not run by n. */
  ghost predicate IsOpen(actions: seq<Action>, n: nat, key: Key, stream: nat)
    requires n <= |actions|
  {
    exists i :: 0 <= i < n && OpensOf(actions[i], key) && actions[i].stream == stream && NoClose(actions, i, n, stream)
  }

  ghost predicate NoneOpen(actions: seq<Action>, n: nat, key: Key)
    requires n <= |actions|
  {
    forall stream :: !IsOpen(actions, n, key, stream)
  }

  /** A cleanup after which the key has no stream left. */
  ghost predicate LastClose(actions: seq<Action>, k: nat, key: Key)
    requires k < |actions|
  {
    actions[k].Close? && IsOpen(actions, k, key, actions[k].stream) && NoneOpen(actions, k + 1, key)
  }

  predicate StartOf(a: Action, p: Place, m: nat) {
    a.Start? && a.place == p && a.typist.member == m
  }

  /** A start that counts: under an accepted stream of the channel. */
  ghost predicate Begins(actions: seq<Action>, k: nat, p: Place, m: nat)
    requires k < |actions|
  {
    StartOf(actions[k], p, m) && !NoneOpen(actions, k, Key(m, p.channel))
  }

  /** What ends the activity whose latest start made timer t. */
  ghost predicate Ends(actions: seq<Action>, k: nat, p: Place, m: nat, t: nat)
    requires k < |actions|
  {
    actions[k] == Stop(p, m) || actions[k] == Fire(t) || LastClose(actions, k, Key(m, p.channel))
  }

  ghost predicate Undisturbed(actions: seq<Action>, i: nat, n: nat, p: Place, m: nat, t: nat)
    requires n <= |actions|
  {
    forall k :: i < k < n ==> !Begins(actions, k, p, m) && !Ends(actions, k, p, m, t)
  }

  /** The latest start that counts made timer t, and nothing has ended it. */
  ghost predicate Types(actions: seq<Action>, n: nat, p: Place, m: nat, t: nat)
    requires n <= |actions|
  {
    exists i :: 0 <= i < n && Begins(actions, i, p, m) && actions[i].timer == t && Undisturbed(actions, i, n, p, m, t)
  }

  // ----- one step, seen from the actions -----

  lemma OpenNext(actions: seq<Action>, n: nat, key: Key, o: nat)
    requires n < |actions|
    ensures IsOpen(actions, n + 1, key, o) <==>
              || (OpensOf(actions[n], key) && actions[n].stream == o)
              || (IsOpen(actions, n, key, o) && !(actions[n].Close? && actions[n].stream == o))
  {
    if IsOpen(actions, n, key, o) && !(actions[n].Close? && actions[n].stream == o) {
      var i :| 0 <= i < n && OpensOf(actions[i], key) && actions[i].stream == o && NoClose(actions, i, n, o);
      assert NoClose(actions, i, n + 1, o);
    }
    if OpensOf(actions[n], key) && actions[n].stream == o {
      assert NoClose(actions, n, n + 1, o);
    }
    if IsOpen(actions, n + 1, key, o) {
      var i :| 0 <= i < n + 1 && OpensOf(actions[i], key) && actions[i].stream == o && NoClose(actions, i, n + 1, o);
      assert i < n ==> NoClose(actions, i, n, o);
    }
  }

  lemma TypesNext(actions: seq<Action>, n: nat, p: Place, m: nat, t: nat)
    requires n < |actions|
    ensures Types(actions, n + 1, p, m, t) <==>
              if Begins(actions, n, p, m) then actions[n].timer == t
              else Types(actions, n, p, m, t) && !Ends(actions, n, p, m, t)
  {
    hide IsOpen, NoneOpen, LastClose;
    if Begins(actions, n, p, m) && actions[n].timer == t {
      assert Undisturbed(actions, n, n + 1, p, m, t);
    }
    if Types(actions, n, p, m, t) && !Begins(actions, n, p, m) && !Ends(actions, n, p, m, t) {
      var i :| 0 <= i < n && Begins(actions, i, p, m) && actions[i].timer == t && Undisturbed(actions, i, n, p, m, t);
      assert Undisturbed(actions, i, n + 1, p, m, t);
    }
    if Types(actions, n + 1, p, m, t) {
      var i :| 0 <= i < n + 1 && Begins(actions, i, p, m) && actions[i].timer == t && Undisturbed(actions, i, n + 1, p, m, t);
      assert i < n ==> Undisturbed(actions, i, n, p, m, t);
    }
  }

  // ----- what the state says -----

  ghost predicate Has(s: State, key: Key, o: nat) {
    o in s.opens && !s.opens[o].closed && s.opens[o].streams in s.lives && s.lives[s.opens[o].streams].key == key
  }

  ghost predicate HasNone(s: State, key: Key) {
    forall o :: !Has(s, key, o)
  }

  /** The topic's timer. */
  predicate TimerIs(s: State, p: Place, m: nat, t: nat) {
    var topics := TopicsOf(s.streams, s.lives, Key(m, p.channel));
    p.topic in topics && topics[p.topic] == t
  }

  lemma KeyKnown(s: State, key: Key)
    requires KeysInv(s.streams, s.lives) && CountsInv(s.streams, s.lives, s.opens)
    ensures key in s.streams <==> !HasNone(s, key)
  {
    if key in s.streams {
      OpenStream(s, s.streams[key]);
      var o :| o in s.opens && !s.opens[o].closed && s.opens[o].streams == s.streams[key];
      assert Has(s, key, o);
    }
    if o :| Has(s, key, o) {
      OpenIsHeld(s.streams, s.lives, s.opens, o);
    }
  }

  // ----- one step: streams -----

  lemma OpenHas(s: State, key: Key, stream: nat, x: nat, k: Key)
    requires KeysInv(s.streams, s.lives) && CountsInv(s.streams, s.lives, s.opens) && Enabled(s, Open(key, stream, x))
    ensures forall o :: Has(AfterOpen(s, key, stream, x), k, o) <==>
              (OpensOf(Open(key, stream, x), k) && stream == o) || Has(s, k, o)
  {
    hide OpenOf, TopicsOf;
  }

  lemma SameHas(s: State, u: State, k: Key)
    requires s.opens == u.opens && SameRecords(s.lives, u.lives)
    ensures forall o :: Has(u, k, o) <==> Has(s, k, o)
  {
  }

  lemma StartRecords(s: State, p: Place, typist: Typist, t: nat)
    requires KeysInv(s.streams, s.lives)
    ensures var u := AfterStart(s, p, typist, t); u.opens == s.opens && SameRecords(s.lives, u.lives)
  {
    hide Active, StartedPlaces;
  }

  /** What a cleanup that counts does first: one stream fewer. */
  function Left(s: State, stream: nat): State
    requires stream in s.opens && s.opens[stream].streams in s.lives
  {
    var x := s.opens[stream].streams;
    s.(lives := s.lives[x := s.lives[x].(count := s.lives[x].count - 1)], opens := s.opens[stream := Opened(x, true)])
  }

  lemma CloseIs(s: State, stream: nat, order: seq<nat>)
    requires Enabled(s, Close(stream, order)) && !s.opens[stream].closed
    ensures var left, live := Left(s, stream), s.lives[s.opens[stream].streams];
            AfterClose(s, stream, order)
              == if live.count != 1 then left
                 else StopAll(left, live.key, order).(streams := StopAll(left, live.key, order).streams - {live.key})
    ensures 0 !in s.lives[s.opens[stream].streams].topics ==> 0 !in order
  {
    hide StopAll;
    assert 0 in order ==> 0 in Elements(order);
  }

  lemma LeftShape(s: State, stream: nat)
    requires Inv(s) && stream in s.opens && !s.opens[stream].closed
    ensures var x, left := s.opens[stream].streams, Left(s, stream);
            && Core(left) && Held(s.streams, s.lives, x) && 0 !in s.lives[x].topics
            && left.streams == s.streams && left.opens == s.opens[stream := Opened(x, true)] && left.places == s.places
            && left.generation == s.generation && left.lives.Keys == s.lives.Keys
            && (forall y :: y in s.lives ==> left.lives[y].key == s.lives[y].key)
            && (forall k :: TopicsOf(left.streams, left.lives, k) == TopicsOf(s.streams, s.lives, k))
  {
    hide PlacesInv, FeedInv, ActiveInv, TimersInv, CountsInv, KeysInv;
    LeftKept(s, stream);
  }

  /** A close that counts: one stream fewer, and after the last one all stops. */
  lemma CloseShape(s: State, stream: nat, order: seq<nat>)
    requires Inv(s) && Enabled(s, Close(stream, order)) && !s.opens[stream].closed
    ensures var u, x := AfterClose(s, stream, order), s.opens[stream].streams;
            && u.opens == s.opens[stream := Opened(x, true)] && u.lives.Keys == s.lives.Keys
            && (forall y :: y in s.lives ==> u.lives[y].key == s.lives[y].key)
            && Held(s.streams, s.lives, x)
            && u.streams == (if s.lives[x].count == 1 then s.streams - {s.lives[x].key} else s.streams)
  {
    hide Core, CountsInv, StopAll, Left, AfterClose, TopicsOf;
    LeftShape(s, stream);
    CloseIs(s, stream, order);
    StopAllKept(Left(s, stream), s.lives[s.opens[stream].streams].key, order);
  }

  lemma CloseHas(s: State, stream: nat, order: seq<nat>, k: Key)
    requires Inv(s) && Enabled(s, Close(stream, order))
    ensures forall o :: Has(AfterClose(s, stream, order), k, o) <==> Has(s, k, o) && o != stream
  {
    hide PlacesInv, FeedInv, ActiveInv, TimersInv, CountsInv, KeysInv, StopAll, AfterClose;
    if s.opens[stream].closed {
      ClosedAlready(s, stream, order);
    } else {
      CloseShape(s, stream, order);
    }
  }

  lemma ClosedAlready(s: State, stream: nat, order: seq<nat>)
    requires Enabled(s, Close(stream, order)) && s.opens[stream].closed
    ensures AfterClose(s, stream, order) == s
  {
  }

  // ----- one step: timers of topics -----

  lemma OpenTopics(s: State, key: Key, stream: nat, x: nat)
    requires Inv(s) && Enabled(s, Open(key, stream, x))
    ensures var u := AfterOpen(s, key, stream, x); forall k :: TopicsOf(u.streams, u.lives, k) == TopicsOf(s.streams, s.lives, k)
    ensures AfterOpen(s, key, stream, x).places == s.places && AfterOpen(s, key, stream, x).generation == s.generation
  {
    hide PlacesInv, FeedInv, ActiveInv, TimersInv, CountsInv, KeysInv;
    if key.channel != 0 {
      var y := if key in s.streams then s.streams[key] else x;
      var live := if key in s.streams then s.lives[y] else Streams(key, 0, map[]);
      live := live.(count := live.count + 1);
      assert live.key == key by { KeyOf(s.streams, s.lives, key); }
      OpenedKeys(s.streams, s.lives, key, y, live);
    }
  }

  lemma StartTopics(s: State, p: Place, typist: Typist, t: nat)
    requires Core(s) && t !in s.timers
    ensures var u, key := AfterStart(s, p, typist, t), Key(typist.member, p.channel);
            && (forall k :: k != key ==> TopicsOf(u.streams, u.lives, k) == TopicsOf(s.streams, s.lives, k))
            && TopicsOf(u.streams, u.lives, key)
               == if p.topic != 0 && key in s.streams then TopicsOf(s.streams, s.lives, key)[p.topic := t]
                  else TopicsOf(s.streams, s.lives, key)
  {
    hide PlacesInv, FeedInv, KeysInv, TimersInv, ActiveInv, WithTopics, StartedPlaces, Active, TopicsOf;
    if p.topic != 0 && Key(typist.member, p.channel) in s.streams {
      RefreshKept(s, p, typist.member, t);
    }
  }

  lemma StopTopics(s: State, p: Place, m: nat)
    requires Core(s)
    ensures var u, key := AfterStop(s, p, m), Key(m, p.channel);
            && (forall k :: k != key ==> TopicsOf(u.streams, u.lives, k) == TopicsOf(s.streams, s.lives, k))
            && (forall topic :: topic in TopicsOf(u.streams, u.lives, key) <==>
                  topic in TopicsOf(s.streams, s.lives, key) && (topic != p.topic || p.topic == 0))
            && (forall topic :: topic in TopicsOf(u.streams, u.lives, key) ==>
                  TopicsOf(u.streams, u.lives, key)[topic] == TopicsOf(s.streams, s.lives, key)[topic])
  {
    hide PlacesInv, FeedInv, TimersInv, StoppedPlaces, Active, WithTopics;
    if p.topic != 0 {
      assert ActiveOk(s.places, s.streams, s.lives, p, m);
      hide ActiveInv;
      if p.topic in TopicsOf(s.streams, s.lives, Key(m, p.channel)) {
        StopLives(s, p, m);
      }
    }
  }

  lemma {:induction false} StopAllOthers(s: State, key: Key, order: seq<nat>)
    requires Core(s)
    ensures var u := StopAll(s, key, order);
            forall k :: k != key ==> TopicsOf(u.streams, u.lives, k) == TopicsOf(s.streams, s.lives, k)
    decreases |order|
  {
    hide Core, TopicsOf, AfterStop;
    if order != [] {
      var p := Place(key.channel, order[0]);
      StopKept(s, p, key.member);
      StopTopics(s, p, key.member);
      StopAllOthers(AfterStop(s, p, key.member), key, order[1..]);
    }
  }

  /** The last cleanup leaves its key without a topic, and touches no other. */
  lemma CloseTopics(s: State, stream: nat, order: seq<nat>, key: Key)
    requires Inv(s) && Enabled(s, Close(stream, order))
    ensures var u := AfterClose(s, stream, order);
            TopicsOf(u.streams, u.lives, key)
              == if Has(s, key, stream) && HasNone(u, key) then map[] else TopicsOf(s.streams, s.lives, key)
  {
    hide Core, CountsInv, StopAll, Left, AfterClose, TopicsOf, HasNone;
    if s.opens[stream].closed {
      ClosedAlready(s, stream, order);
    } else {
      LeftShape(s, stream);
      CloseIs(s, stream, order);
      LastOfKey(s, stream, order);
      var left, live := Left(s, stream), s.lives[s.opens[stream].streams];
      if live.count == 1 {
        StopAllKept(left, live.key, order);
        StopAllOthers(left, live.key, order);
        DroppedTopics(StopAll(left, live.key, order).streams, StopAll(left, live.key, order).lives, live.key, key);
      }
    }
  }

  lemma DroppedTopics(streams: map<Key, nat>, lives: map<nat, Streams>, key: Key, k: Key)
    ensures TopicsOf(streams - {key}, lives, k) == if k == key then map[] else TopicsOf(streams, lives, k)
  {
  }

  /** A cleanup is its key's last exactly if it takes the count to zero. */
  lemma LastOfKey(s: State, stream: nat, order: seq<nat>)
    requires Inv(s) && Enabled(s, Close(stream, order)) && !s.opens[stream].closed
    ensures var live := s.lives[s.opens[stream].streams];
            Has(s, live.key, stream) && (live.count == 1 <==> HasNone(AfterClose(s, stream, order), live.key))
  {
    hide Core, CountsInv, AfterClose, TopicsOf, HasNone;
    var x := s.opens[stream].streams;
    CloseShape(s, stream, order);
    assert Inv(AfterClose(s, stream, order)) by { CloseKept(s, stream, order); }
    var u := AfterClose(s, stream, order);
    CoreKeys(u);
    KeyKnown(u, s.lives[x].key);
  }

  lemma CoreKeys(s: State)
    requires Core(s)
    ensures KeysInv(s.streams, s.lives) && TimersInv(s.lives, s.timers)
  {
    hide PlacesInv, FeedInv, KeysInv, TimersInv, ActiveInv;
  }

  /** The timer of a topic is the current timer of its own record. */
  lemma TimerIsCurrent(s: State, p: Place, m: nat, t: nat)
    requires Core(s) && TimerIs(s, p, m, t)
    ensures IsCurrent(s, t) && s.lives[s.timers[t].streams].key == Key(m, p.channel) && s.timers[t].topic == p.topic
  {
    hide PlacesInv, FeedInv, ActiveInv, TimersInv;
    KeyOf(s.streams, s.lives, Key(m, p.channel));
    TimerHolder(s, t);
  }

  lemma CurrentIsTimer(s: State, t: nat)
    requires Core(s) && IsCurrent(s, t)
    ensures var key := s.lives[s.timers[t].streams].key; TimerIs(s, Place(key.channel, s.timers[t].topic), key.member, t)
  {
    hide PlacesInv, FeedInv, ActiveInv, TimersInv, KeysInv;
    CoreKeys(s);
    TopicsHeld(s.streams, s.lives, s.timers[t].streams);
  }

  lemma FireTopics(s: State, t: nat, p: Place, m: nat, u: nat)
    requires Inv(s) && Enabled(s, Fire(t)) && p.topic != 0
    ensures TimerIs(AfterFire(s, t), p, m, u) <==> TimerIs(s, p, m, u) && t != u
  {
    hide Core, CountsInv, AfterStop, TopicsOf, IsCurrent, TimerIs;
    if !IsCurrent(s, t) {
      LateTopics(s, t, p, m, u);
    } else {
      FireShape(s, t);
      CurrentIsTimer(s, t);
      var key := s.lives[s.timers[t].streams].key;
      var q := Place(key.channel, s.timers[t].topic);
      StopTopics(s, q, key.member);
      StoppedTimer(s, q, key.member, p, m, u);
      TimerIsSame(AfterStop(s, q, key.member), AfterFire(s, t), p, m, u);
      if TimerIs(s, p, m, t) {
        TimerIsCurrent(s, p, m, t);
      }
      OneTimer(s, p, m, t, u);
    }
    if TimerIs(s, p, m, t) {
      TimerIsCurrent(s, p, m, t);
    }
  }

  lemma LateTopics(s: State, t: nat, p: Place, m: nat, u: nat)
    requires Enabled(s, Fire(t)) && !IsCurrent(s, t)
    ensures TimerIs(AfterFire(s, t), p, m, u) <==> TimerIs(s, p, m, u)
  {
  }

  lemma TimerIsSame(s: State, v: State, p: Place, m: nat, u: nat)
    requires s.streams == v.streams && s.lives == v.lives
    ensures TimerIs(s, p, m, u) <==> TimerIs(v, p, m, u)
  {
  }

  lemma OneTimer(s: State, p: Place, m: nat, t: nat, u: nat)
    ensures TimerIs(s, p, m, t) && TimerIs(s, p, m, u) ==> t == u
  {
  }

  /** A stop takes the timer of its topic away, and no other. */
  lemma StoppedTimer(s: State, q: Place, n: nat, p: Place, m: nat, u: nat)
    requires Core(s) && p.topic != 0
    ensures TimerIs(AfterStop(s, q, n), p, m, u) <==> TimerIs(s, p, m, u) && !(p == q && m == n)
  {
    hide Core, AfterStop, TopicsOf;
    StopTopics(s, q, n);
  }

  lemma TimerStep(s: State, a: Action, p: Place, m: nat, t: nat)
    requires Inv(s) && Enabled(s, a) && p.topic != 0
    ensures TimerIs(Next(s, a), p, m, t) <==>
              if StartOf(a, p, m) && !HasNone(s, Key(m, p.channel)) then a.timer == t
              else
                && TimerIs(s, p, m, t) && a != Stop(p, m) && a != Fire(t)
                && !(a.Close? && Has(s, Key(m, p.channel), a.stream) && HasNone(Next(s, a), Key(m, p.channel)))
  {
    hide Core, CountsInv, AfterOpen, AfterClose, AfterStart, AfterStop, AfterFire, Has, HasNone, TopicsOf;
    match a {
      case Open(key, stream, x) => OpenTopics(s, key, stream, x);
      case Close(stream, order) => CloseTopics(s, stream, order, Key(m, p.channel));
      case Start(q, typist, u) =>
        StartTopics(s, q, typist, u);
        CoreKeys(s);
        KeyKnown(s, Key(m, p.channel));
      case Stop(q, n) => StoppedTimer(s, q, n, p, m, t);
      case Fire(u) => FireTopics(s, u, p, m, t);
    }
  }

  lemma HasStep(s: State, a: Action, key: Key)
    requires Inv(s) && Enabled(s, a)
    ensures forall o :: Has(Next(s, a), key, o) <==>
              (OpensOf(a, key) && a.stream == o) || (Has(s, key, o) && !(a.Close? && a.stream == o))
  {
    hide Core, CountsInv, AfterOpen, AfterClose, AfterStart, AfterStop, Has, HasNone, TopicsOf;
    CoreKeys(s);
    match a {
      case Open(k, stream, x) => OpenHas(s, k, stream, x, key);
      case Close(stream, order) => CloseHas(s, stream, order, key);
      case Start(q, typist, u) =>
        StartRecords(s, q, typist, u);
        SameHas(s, AfterStart(s, q, typist, u), key);
      case Stop(q, n) =>
        StopShape(s, q, n);
        SameHas(s, AfterStop(s, q, n), key);
      case Fire(u) =>
        FireRecords(s, u);
        SameHas(s, AfterFire(s, u), key);
    }
  }

  lemma FireRecords(s: State, t: nat)
    requires Inv(s) && Enabled(s, Fire(t))
    ensures var u := AfterFire(s, t); u.opens == s.opens && SameRecords(s.lives, u.lives)
  {
    hide Core, CountsInv, AfterStop, TopicsOf, IsCurrent;
    if IsCurrent(s, t) {
      FireShape(s, t);
      var key := s.lives[s.timers[t].streams].key;
      StopShape(s, Place(key.channel, s.timers[t].topic), key.member);
    }
  }

  // ----- the state is what the actions say -----

  lemma AtFirst(actions: seq<Action>, key: Key, p: Place, m: nat, n: nat)
    ensures !Has(Init(), key, n) && !IsOpen(actions, 0, key, n) && !TimerIs(Init(), p, m, n) && !Types(actions, 0, p, m, n)
  {
  }

  /** The streams that count are those accepted and not yet cleaned up. */
  lemma {:induction false} OpensKnown(trace: seq<State>, actions: seq<Action>, n: nat, key: Key)
    requires IsRun(trace, actions) && n < |trace|
    ensures forall o :: IsOpen(actions, n, key, o) <==> Has(trace[n], key, o)
  {
    hide Inv, Next, Enabled, Init, IsOpen, Has, TimerIs, Types;
    if n > 0 {
      OpensKnown(trace, actions, n - 1, key);
      RunInv(trace, actions, n - 1);
      assert StepAt(trace, actions, n - 1);
      HasStep(trace[n - 1], actions[n - 1], key);
    }
    forall o ensures IsOpen(actions, n, key, o) <==> Has(trace[n], key, o) {
      if n > 0 {
        OpenNext(actions, n - 1, key, o);
      } else {
        AtFirst(actions, key, Place(0, 0), 0, o);
      }
    }
  }

  lemma NoneKnown(trace: seq<State>, actions: seq<Action>, n: nat, key: Key)
    requires IsRun(trace, actions) && n < |trace|
    ensures NoneOpen(actions, n, key) <==> HasNone(trace[n], key)
  {
    hide Inv, Next, Enabled, Init, IsOpen, Has;
    OpensKnown(trace, actions, n, key);
  }

  /** A topic's timer is the one its latest start made. */
  lemma {:induction false} TimersKnown(trace: seq<State>, actions: seq<Action>, n: nat, p: Place, m: nat)
    requires IsRun(trace, actions) && n < |trace| && p.topic != 0
    ensures forall t :: Types(actions, n, p, m, t) <==> TimerIs(trace[n], p, m, t)
  {
    hide Inv, Next, Enabled, Init, IsOpen, NoneOpen, Has, HasNone, TimerIs, Types;
    var key := Key(m, p.channel);
    if n > 0 {
      TimersKnown(trace, actions, n - 1, p, m);
      OpensKnown(trace, actions, n - 1, key);
      NoneKnown(trace, actions, n - 1, key);
      NoneKnown(trace, actions, n, key);
      RunInv(trace, actions, n - 1);
      assert StepAt(trace, actions, n - 1);
    }
    forall t ensures Types(actions, n, p, m, t) <==> TimerIs(trace[n], p, m, t) {
      if n > 0 {
        TypesNext(actions, n - 1, p, m, t);
        TimerStep(trace[n - 1], actions[n - 1], p, m, t);
      } else {
        AtFirst(actions, key, p, m, t);
      }
    }
  }

  // ----- who started when -----

  /** Whoever is still active is so since the same start. */
  ghost predicate Lasting(before: map<Place, Summary>, after: map<Place, Summary>) {
    forall p: Place, m: nat :: Active(after, p, m) ==> Active(before, p, m) && SameStart(At(before, p).members[m], At(after, p).members[m])
  }

  predicate SameStart(a: Activity, b: Activity) {
    a.typist == b.typist && a.since == b.since
  }

  lemma StopLasting(s: State, p: Place, m: nat)
    ensures Lasting(s.places, AfterStop(s, p, m).places)
  {
    hide Names, Without;
  }

  lemma {:induction false} StopAllLasting(s: State, key: Key, order: seq<nat>)
    ensures Lasting(s.places, StopAll(s, key, order).places)
    decreases |order|
  {
    hide AfterStop, Active, At;
    if order != [] {
      StopLasting(s, Place(key.channel, order[0]), key.member);
      StopAllLasting(AfterStop(s, Place(key.channel, order[0]), key.member), key, order[1..]);
    }
  }

  /** The start begins the member's activity at the place. */
  predicate BeginsAt(a: Action, p: Place, m: nat) {
    a.Start? && a.typist.member == m && (a.place == p || p == Feed(a.place.channel))
  }

  lemma StartSince(s: State, a: Action, p: Place, m: nat)
    requires a.Start? && Active(AfterStart(s, a.place, a.typist, a.timer).places, p, m)
    ensures var u := AfterStart(s, a.place, a.typist, a.timer);
            if Active(s.places, p, m) then SameStart(At(s.places, p).members[m], At(u.places, p).members[m])
            else
              && BeginsAt(a, p, m) && At(u.places, p).members[m].typist == a.typist
              && At(u.places, p).members[m].since == u.generation == s.generation + 1
  {
    hide Names;
  }

  lemma SinceStep(s: State, a: Action, p: Place, m: nat)
    requires Inv(s) && Enabled(s, a) && Active(Next(s, a).places, p, m)
    ensures var u := Next(s, a);
            if Active(s.places, p, m) then SameStart(At(s.places, p).members[m], At(u.places, p).members[m])
            else BeginsAt(a, p, m) && At(u.places, p).members[m].typist == a.typist && At(u.places, p).members[m].since == u.generation > s.generation
  {
    hide Inv, AfterOpen, AfterClose, AfterStart, AfterStop, Left, StopAll, SameStart;
    match a {
      case Open(key, stream, x) => OpenTopics(s, key, stream, x);
      case Close(stream, order) =>
        if s.opens[stream].closed {
          ClosedAlready(s, stream, order);
        } else {
          LeftShape(s, stream);
          CloseIs(s, stream, order);
          StopAllLasting(Left(s, stream), s.lives[s.opens[stream].streams].key, order);
        }
        SameAsBefore(s, p, m);
      case Start(_, _, _) => StartSince(s, a, p, m);
      case Stop(q, n) => StopLasting(s, q, n);
      case Fire(t) =>
        FireLasting(s, t);
        SameAsBefore(s, p, m);
    }
    SameAsBefore(s, p, m);
  }

  lemma SameAsBefore(s: State, p: Place, m: nat)
    ensures Active(s.places, p, m) ==> SameStart(At(s.places, p).members[m], At(s.places, p).members[m])
  {
  }

  lemma FireLasting(s: State, t: nat)
    requires Enabled(s, Fire(t))
    ensures Lasting(s.places, AfterFire(s, t).places)
  {
    hide AfterStop, Active, At;
    if IsCurrent(s, t) {
      FireShape(s, t);
      var key := s.lives[s.timers[t].streams].key;
      StopLasting(s, Place(key.channel, s.timers[t].topic), key.member);
    }
  }

  /** The member is active at the place since step k, and was not before. */
  ghost predicate Since(trace: seq<State>, actions: seq<Action>, n: nat, p: Place, m: nat, k: nat)
    requires n <= |actions| < |trace|
  {
    && k < n && BeginsAt(actions[k], p, m) && !Active(trace[k].places, p, m)
    && forall j :: k < j <= n ==> Active(trace[j].places, p, m)
  }

  /** What the place holds of the member is what that start said. */
  ghost predicate Began(trace: seq<State>, actions: seq<Action>, n: nat, p: Place, m: nat, k: nat)
    requires n <= |actions| < |trace|
  {
    && Since(trace, actions, n, p, m, k) && At(trace[n].places, p).members[m].typist == actions[k].typist
    && At(trace[n].places, p).members[m].since == trace[k + 1].generation > trace[k].generation
  }

  /** What is shown of an activity is what its first start said. */
  lemma {:induction false} BeganSomewhere(trace: seq<State>, actions: seq<Action>, n: nat, p: Place, m: nat)
    requires IsRun(trace, actions) && n < |trace| && Active(trace[n].places, p, m)
    ensures exists k: nat :: Began(trace, actions, n, p, m, k)
  {
    hide Inv, Next, Enabled, At, BeginsAt;
    NobodyAtFirst(p, m);
    if n > 0 {
      RunInv(trace, actions, n - 1);
      assert StepAt(trace, actions, n - 1);
      SinceStep(trace[n - 1], actions[n - 1], p, m);
      if Active(trace[n - 1].places, p, m) {
        BeganSomewhere(trace, actions, n - 1, p, m);
        var k: nat :| Began(trace, actions, n - 1, p, m, k);
        assert Began(trace, actions, n, p, m, k);
      } else {
        assert Began(trace, actions, n, p, m, n - 1);
      }
    }
  }

  lemma NobodyAtFirst(p: Place, m: nat)
    ensures !Active(Init().places, p, m)
  {
  }

  lemma GenerationsRise(trace: seq<State>, actions: seq<Action>, i: nat, j: nat)
    requires IsRun(trace, actions) && i <= j < |trace|
    ensures trace[i].generation <= trace[j].generation
  {
    hide Inv, Next, Enabled, Init, Announced;
    var k := i;
    while k < j
      invariant i <= k <= j && trace[i].generation <= trace[k].generation
    {
      RunInv(trace, actions, k);
      assert StepAt(trace, actions, k);
      StepAnnounced(trace[k], actions[k]);
      k := k + 1;
    }
  }

  lemma SinceOnce(trace: seq<State>, actions: seq<Action>, n: nat, p: Place, m: nat, k: nat, l: nat)
    requires n <= |actions| < |trace| && Since(trace, actions, n, p, m, k) && Since(trace, actions, n, p, m, l)
    ensures k == l
  {
    hide Active, BeginsAt;
  }

  lemma SinceBefore(trace: seq<State>, actions: seq<Action>, n: nat, p: Place, m: nat, k: nat)
    requires n <= |actions| < |trace| && Since(trace, actions, n, p, m, k)
    ensures k < n && Active(trace[n].places, p, m)
  {
    hide Active, BeginsAt;
  }

  lemma SinceFacts(trace: seq<State>, actions: seq<Action>, n: nat, p: Place, m: nat, k: nat)
    requires IsRun(trace, actions) && n < |trace| && Since(trace, actions, n, p, m, k)
    ensures k + 1 < |trace| && Active(trace[n].places, p, m) && At(trace[n].places, p).members[m].typist == actions[k].typist
    ensures At(trace[n].places, p).members[m].since == trace[k + 1].generation
  {
    hide Inv, Next, Enabled, Init, BeginsAt, At;
    SinceBefore(trace, actions, n, p, m, k);
    BeganSomewhere(trace, actions, n, p, m);
    var l: nat :| Began(trace, actions, n, p, m, l);
    SinceOnce(trace, actions, n, p, m, k, l);
  }

  lemma ListedFacts(trace: seq<State>, actions: seq<Action>, n: nat, p: Place)
    requires IsRun(trace, actions) && n < |trace|
    ensures var summary := At(trace[n].places, p);
            && (forall i :: 0 <= i < |summary.starts| ==> summary.starts[i] in summary.members)
            && forall i, j :: 0 <= i < j < |summary.starts| ==>
                 summary.members[summary.starts[i]].since > summary.members[summary.starts[j]].since
  {
    RunInv(trace, actions, n);
    PlaceFacts(trace[n].places, p, trace[n].generation);
    hide IsRun, PlacesInv, FeedInv, KeysInv, TimersInv, ActiveInv, CountsInv, Names;
    var summary := At(trace[n].places, p);
    forall i | 0 <= i < |summary.starts| ensures summary.starts[i] in summary.members {
      assert summary.starts[i] in summary.starts;
    }
  }
}
