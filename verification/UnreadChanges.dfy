module UnreadChanges {
  /** Read-change watches (internal/unread/changes.go): a generation and a wake
      channel per member, kept only while someone watches. A snapshot taken
      before a read is told of every publication after it. Callers interleave
      freely, one step per critical section.

      An entry makes one channel for each of its generations, so a channel is
      named by the entry and the generation it was made for. */

  datatype Key = Key(organization: nat, member: nat)

  datatype Channel = Channel(entry: nat, generation: int)

  /** One member's entry, for one subscription lifetime. */
  datatype Entry = Entry(key: Key, generation: nat, changed: Channel, watches: int)

  datatype Watch = Watch(entry: nat, released: bool)

  /** `entries` are the members watched now, `made` every entry there ever
      was, `watches` every watch handed out, `closed` the closed channels. */
  datatype State = State(entries: map<Key, nat>, made: map<nat, Entry>, watches: map<nat, Watch>, closed: set<Channel>)

  datatype Action =
    | Subscribe(key: Key, watch: nat, entry: nat)   // Watch; `entry` is used if it has to make one
    | ReadChanged(key: Key)
    | Release(watch: nat)
    | Tick                                          // something elsewhere

  ghost function Holders(watches: map<nat, Watch>, entry: nat): set<nat> {
    set w | w in watches && !watches[w].released && watches[w].entry == entry
  }

  /** The wake rule: an entry's channel is closed exactly when its generation
      has moved on, so whoever holds it hears of the next publication. */
  ghost predicate Wakes(made: map<nat, Entry>, closed: set<Channel>) {
    && (forall e :: e in made ==> made[e].changed == Channel(e, made[e].generation))
    && (forall e, g: nat :: Channel(e, g) in closed <==> e in made && g < made[e].generation)
  }

  /** An entry is in the map, under its key, exactly while it has a watch. */
  ghost predicate Kept(entries: map<Key, nat>, made: map<nat, Entry>, watches: map<nat, Watch>) {
    && (forall k :: k in entries ==> entries[k] in made && made[entries[k]].key == k && made[entries[k]].watches > 0)
    && (forall w :: w in watches ==> watches[w].entry in made)
    && (forall e :: e in made && made[e].watches > 0 ==> made[e].key in entries && entries[made[e].key] == e)
  }

  ghost predicate Counted(made: map<nat, Entry>, watches: map<nat, Watch>) {
    forall e :: e in made ==> made[e].watches == |Holders(watches, e)|
  }

  lemma OneMore(watches: map<nat, Watch>, w: nat, e: nat, x: nat)
    requires w !in watches
    ensures |Holders(watches[w := Watch(e, false)], x)| == |Holders(watches, x)| + if x == e then 1 else 0
  {
    assert Holders(watches[w := Watch(e, false)], x) == Holders(watches, x) + if x == e then {w} else {};
  }

  lemma OneFewer(watches: map<nat, Watch>, w: nat, x: nat)
    requires w in watches && !watches[w].released
    ensures |Holders(watches[w := watches[w].(released := true)], x)|
         == |Holders(watches, x)| - if x == watches[w].entry then 1 else 0
  {
    assert Holders(watches[w := watches[w].(released := true)], x)
        == Holders(watches, x) - if x == watches[w].entry then {w} else {};
    assert w in Holders(watches, watches[w].entry);
  }

  lemma CountedMore(made: map<nat, Entry>, watches: map<nat, Watch>, w: nat, e: nat)
    requires Counted(made, watches) && w !in watches && e in made
    ensures Counted(made[e := Held(made[e], 1)], watches[w := Watch(e, false)])
  {
    hide Holders;
    var more := watches[w := Watch(e, false)];
    forall x | x in made ensures |Holders(more, x)| == |Holders(watches, x)| + if x == e then 1 else 0 {
      OneMore(watches, w, e, x);
    }
  }

  lemma CountedFewer(made: map<nat, Entry>, watches: map<nat, Watch>, w: nat)
    requires Counted(made, watches) && w in watches && !watches[w].released && watches[w].entry in made
    ensures var e := watches[w].entry;
            made[e].watches > 0
            && Counted(made[e := Held(made[e], -1)], watches[w := watches[w].(released := true)])
  {
    assert w in Holders(watches, watches[w].entry);
    hide Holders;
    var fewer := watches[w := watches[w].(released := true)];
    forall x | x in made ensures |Holders(fewer, x)| == |Holders(watches, x)| - if x == watches[w].entry then 1 else 0 {
      OneFewer(watches, w, x);
    }
  }

  function Opened(key: Key, e: nat): Entry {
    Entry(key, 0, Channel(e, 0), 0)
  }

  function Bumped(entry: Entry, e: nat): Entry {
    entry.(generation := entry.generation + 1, changed := Channel(e, entry.generation + 1))
  }

  function Held(entry: Entry, by_: int): Entry {
    entry.(watches := entry.watches + by_)
  }

  /** A new entry, made for its first watch. */
  lemma OpenedKept(entries: map<Key, nat>, made: map<nat, Entry>, watches: map<nat, Watch>, key: Key, w: nat, e: nat)
    requires Kept(entries, made, watches) && key !in entries && e !in made
    ensures Kept(entries[key := e], made[e := Held(Opened(key, e), 1)], watches[w := Watch(e, false)])
  {
  }

  lemma OpenedCounted(entries: map<Key, nat>, made: map<nat, Entry>, watches: map<nat, Watch>, key: Key, e: nat)
    requires Kept(entries, made, watches) && Counted(made, watches) && e !in made
    ensures Counted(made[e := Opened(key, e)], watches)
  {
    assert Holders(watches, e) == {};
  }

  lemma JoinedKept(entries: map<Key, nat>, made: map<nat, Entry>, watches: map<nat, Watch>, key: Key, w: nat)
    requires Kept(entries, made, watches) && key in entries
    ensures var e := entries[key];
            e in made && Kept(entries, made[e := Held(made[e], 1)], watches[w := Watch(e, false)])
  {
  }

  lemma LeftKept(entries: map<Key, nat>, made: map<nat, Entry>, watches: map<nat, Watch>, w: nat, e: nat)
    requires Kept(entries, made, watches) && e in made && made[e].watches > 0 && w in watches
    ensures var rest := if made[e].watches == 1 then entries - {made[e].key} else entries;
            Kept(rest, made[e := Held(made[e], -1)], watches[w := watches[w].(released := true)])
  {
  }

  /** Opening an entry, or counting its watches, closes nothing; a bump closes
      the one channel it replaces. */
  lemma WakesHeld(made: map<nat, Entry>, closed: set<Channel>, e: nat, entry: Entry)
    requires Wakes(made, closed)
    requires if e in made then entry.generation == made[e].generation && entry.changed == made[e].changed
             else entry.generation == 0 && entry.changed == Channel(e, 0)
    ensures Wakes(made[e := entry], closed)
  {
  }

  lemma WakesBumped(made: map<nat, Entry>, closed: set<Channel>, e: nat)
    requires Wakes(made, closed) && e in made
    ensures Wakes(made[e := Bumped(made[e], e)], closed + {made[e].changed})
  {
  }

  lemma BumpedKept(entries: map<Key, nat>, made: map<nat, Entry>, watches: map<nat, Watch>, e: nat)
    requires Kept(entries, made, watches) && Counted(made, watches) && e in made
    ensures Kept(entries, made[e := Bumped(made[e], e)], watches) && Counted(made[e := Bumped(made[e], e)], watches)
  {
    hide Holders;
  }

  // ----- steps -----

  function Init(): State {
    State(map[], map[], map[], {})
  }

  /** Joins the member's entry, or starts a new lifetime at zero. */
  function AfterSubscribe(s: State, key: Key, w: nat, e: nat): State
    requires key in s.entries ==> s.entries[key] in s.made
  {
    if key in s.entries then
      var x := s.entries[key];
      s.(made := s.made[x := Held(s.made[x], 1)], watches := s.watches[w := Watch(x, false)])
    else
      s.(entries := s.entries[key := e], made := s.made[e := Held(Opened(key, e), 1)], watches := s.watches[w := Watch(e, false)])
  }

  /** Advances the member's generation and closes the channel it replaces;
      without a watch nothing is retained. */
  function AfterReadChanged(s: State, key: Key): State
    requires key in s.entries ==> s.entries[key] in s.made
  {
    if key !in s.entries then s
    else
      var e := s.entries[key];
      s.(made := s.made[e := Bumped(s.made[e], e)], closed := s.closed + {s.made[e].changed})
  }

  /** Only once; the member's last watch takes its entry out of the map. */
  function AfterRelease(s: State, w: nat): State
    requires w in s.watches && s.watches[w].entry in s.made
  {
    var e := s.watches[w].entry;
    if s.watches[w].released then s
    else
      s.(entries := if s.made[e].watches == 1 then s.entries - {s.made[e].key} else s.entries,
         made := s.made[e := Held(s.made[e], -1)], watches := s.watches[w := Watch(e, true)])
  }

  predicate Enabled(s: State, a: Action) {
    match a
    case Subscribe(key, w, e) => w !in s.watches && e !in s.made && (key in s.entries ==> s.entries[key] in s.made)
    case ReadChanged(key) => key in s.entries ==> s.entries[key] in s.made
    case Release(w) => w in s.watches && s.watches[w].entry in s.made
    case Tick => true
  }

  function Next(s: State, a: Action): State
    requires Enabled(s, a)
  {
    match a
    case Subscribe(key, w, e) => AfterSubscribe(s, key, w, e)
    case ReadChanged(key) => AfterReadChanged(s, key)
    case Release(w) => AfterRelease(s, w)
    case Tick => s
  }

  ghost predicate Inv(s: State) {
    Kept(s.entries, s.made, s.watches) && Counted(s.made, s.watches) && Wakes(s.made, s.closed)
  }

  lemma SubscribeKept(s: State, key: Key, w: nat, e: nat)
    requires Inv(s) && Enabled(s, Subscribe(key, w, e))
    ensures Inv(AfterSubscribe(s, key, w, e))
  {
    hide Kept, Counted, Wakes;
    if key in s.entries {
      JoinedKept(s.entries, s.made, s.watches, key, w);
      CountedMore(s.made, s.watches, w, s.entries[key]);
      WakesHeld(s.made, s.closed, s.entries[key], Held(s.made[s.entries[key]], 1));
    } else {
      OpenedKept(s.entries, s.made, s.watches, key, w, e);
      OpenedCounted(s.entries, s.made, s.watches, key, e);
      WakesHeld(s.made, s.closed, e, Held(Opened(key, e), 1));
      var made := s.made[e := Opened(key, e)];
      CountedMore(made, s.watches, w, e);
      assert made[e := Held(made[e], 1)] == s.made[e := Held(Opened(key, e), 1)];
    }
  }

  lemma ReadChangedKept(s: State, key: Key)
    requires Inv(s) && Enabled(s, ReadChanged(key))
    ensures Inv(AfterReadChanged(s, key))
  {
    hide Kept, Counted, Wakes;
    if key in s.entries {
      BumpedKept(s.entries, s.made, s.watches, s.entries[key]);
      WakesBumped(s.made, s.closed, s.entries[key]);
    }
  }

  lemma HolderCounted(made: map<nat, Entry>, watches: map<nat, Watch>, w: nat)
    requires Counted(made, watches) && w in watches && !watches[w].released && watches[w].entry in made
    ensures made[watches[w].entry].watches > 0
  {
    assert w in Holders(watches, watches[w].entry);
  }

  lemma ReleaseKept(s: State, w: nat)
    requires Inv(s) && Enabled(s, Release(w))
    ensures Inv(AfterRelease(s, w))
  {
    hide Kept, Counted, Wakes;
    var e := s.watches[w].entry;
    if !s.watches[w].released {
      HolderCounted(s.made, s.watches, w);
      CountedFewer(s.made, s.watches, w);
      LeftKept(s.entries, s.made, s.watches, w, e);
      WakesHeld(s.made, s.closed, e, Held(s.made[e], -1));
    }
  }

  /** Each critical section keeps the map to the watched members, their
      counts, and the wake rule. */
  lemma InvKept(s: State, a: Action)
    requires Inv(s) && Enabled(s, a)
    ensures Inv(Next(s, a))
  {
    hide Inv, AfterSubscribe, AfterReadChanged, AfterRelease;
    match a
    case Subscribe(key, w, e) => SubscribeKept(s, key, w, e);
    case ReadChanged(key) => ReadChangedKept(s, key);
    case Release(w) => ReleaseKept(s, w);
    case Tick =>
  }

  // ----- runs -----

  ghost predicate StepAt(trace: seq<State>, actions: seq<Action>, i: nat)
    requires i < |actions| < |trace|
  {
    Enabled(trace[i], actions[i]) && trace[i + 1] == Next(trace[i], actions[i])
  }

  ghost predicate IsRun(trace: seq<State>, actions: seq<Action>) {
    && |trace| == |actions| + 1 && trace[0] == Init()
    && forall i :: 0 <= i < |actions| ==> StepAt(trace, actions, i)
  }

  lemma InitInv()
    ensures Inv(Init())
  {
  }

  lemma RunInv(trace: seq<State>, actions: seq<Action>, n: nat)
    requires IsRun(trace, actions) && n < |trace|
    ensures Inv(trace[n])
  {
    hide Inv, Next, Enabled, Init;
    InitInv();
    var i := 0;
    while i < n
      invariant i <= n && Inv(trace[i])
    {
      assert StepAt(trace, actions, i);
      InvKept(trace[i], actions[i]);
      i := i + 1;
    }
  }

  /** A watch that is not released. */
  predicate Watching(s: State, w: nat) {
    w in s.watches && !s.watches[w].released && s.watches[w].entry in s.made
  }

  /** The generation a watch's snapshot reports. */
  function Generation(s: State, w: nat): nat
    requires Watching(s, w)
  {
    s.made[s.watches[w].entry].generation
  }

  /** A watch stays on its entry, whose generations only rise; one that is
      released stays so. */
  ghost predicate Advances(s: State, t: State) {
    && (forall w :: w in s.watches ==>
          w in t.watches && t.watches[w].entry == s.watches[w].entry && (s.watches[w].released ==> t.watches[w].released))
    && (forall e :: e in s.made ==> e in t.made && t.made[e].key == s.made[e].key && s.made[e].generation <= t.made[e].generation)
  }

  lemma StepAdvances(s: State, a: Action)
    requires Enabled(s, a)
    ensures Advances(s, Next(s, a))
  {
  }

  lemma RunAdvances(trace: seq<State>, actions: seq<Action>, m: nat, n: nat)
    requires IsRun(trace, actions) && m <= n < |trace|
    ensures Advances(trace[m], trace[n])
  {
    var i := m;
    hide Next, Enabled, Init;
    while i < n
      invariant m <= i <= n && Advances(trace[m], trace[i])
    {
      assert StepAt(trace, actions, i);
      StepAdvances(trace[i], actions[i]);
      i := i + 1;
    }
  }

  /** A read change of its member moves every watch on. */
  lemma ChangesAdvance(s: State, key: Key, w: nat)
    requires Inv(s) && Enabled(s, ReadChanged(key)) && Watching(s, w) && s.made[s.watches[w].entry].key == key
    ensures var t := AfterReadChanged(s, key); Watching(t, w) && Generation(t, w) == Generation(s, w) + 1
  {
    HolderCounted(s.made, s.watches, w);
  }

  /** The channels of a watch's earlier generations are closed. */
  lemma OldChannels(s: State, w: nat)
    requires Inv(s) && Watching(s, w)
    ensures forall g: nat :: Channel(s.watches[w].entry, g) in s.closed <==> g < Generation(s, w)
  {
    hide Kept, Counted;
  }

  /** A snapshot misses nothing: the channel it captured is closed exactly when
      the generation has moved on, however long after. */
  lemma SnapshotIsTold(trace: seq<State>, actions: seq<Action>, m: nat, n: nat, w: nat)
    requires IsRun(trace, actions) && m <= n < |trace| && Watching(trace[m], w)
    ensures var e, g := trace[m].watches[w].entry, Generation(trace[m], w);
            && Channel(e, g) !in trace[m].closed
            && e in trace[n].made && (Channel(e, g) in trace[n].closed <==> g < trace[n].made[e].generation)
  {
    RunInv(trace, actions, m);
    RunInv(trace, actions, n);
    RunAdvances(trace, actions, m, n);
  }

  // ----- the object -----

  class Changes {
    var entries: map<Key, nat>
    var made: map<nat, Entry>
    var watches: map<nat, Watch>
    var closed: set<Channel>

    ghost function View(): State
      reads this
    {
      State(entries, made, watches, closed)
    }

    constructor ()
      ensures View() == Init()
    {
      entries, made, watches, closed := map[], map[], map[], {};
    }

    /** Watch: one step of the machine. */
    method Subscribe(key: Key, w: nat, e: nat)
      requires Inv(View()) && Enabled(View(), Action.Subscribe(key, w, e))
      modifies this`entries, this`made, this`watches
      ensures View() == Next(old(View()), Action.Subscribe(key, w, e)) && Inv(View())
    {
      hide Inv;
      SubscribeKept(View(), key, w, e);
      var x := e;
      if key in entries {
        x := entries[key];
      } else {
        entries := entries[key := e];
        made := made[e := Opened(key, e)];
      }
      made := made[x := made[x].(watches := made[x].watches + 1)];
      watches := watches[w := Watch(x, false)];
      assert made == AfterSubscribe(old(View()), key, w, e).made;
    }

    method ReadChanged(key: Key)
      requires Inv(View()) && Enabled(View(), Action.ReadChanged(key))
      modifies this`made, this`closed
      ensures View() == Next(old(View()), Action.ReadChanged(key)) && Inv(View())
    {
      hide Inv;
      ReadChangedKept(View(), key);
      if key !in entries {
        return;
      }
      var e := entries[key];
      var g := made[e].generation + 1;
      closed := closed + {made[e].changed};
      made := made[e := made[e].(generation := g, changed := Channel(e, g))];
    }

    /** Snapshot: generation and channel together. */
    method Snapshot(w: nat) returns (generation: nat, changed: Channel)
      requires Inv(View()) && Watching(View(), w)
      ensures generation == Generation(View(), w) && changed == Channel(watches[w].entry, generation) && changed !in closed
    {
      var entry := made[watches[w].entry];
      return entry.generation, entry.changed;
    }

    /** Release: once only; the entry's count is its watches. */
    method Release(w: nat)
      requires Inv(View()) && Enabled(View(), Action.Release(w))
      modifies this`entries, this`made, this`watches
      ensures View() == Next(old(View()), Action.Release(w)) && Inv(View())
    {
      hide Inv;
      ReleaseKept(View(), w);
      var watch := watches[w];
      if watch.released {
        return;
      }
      var e := watch.entry;
      var left := made[e].watches - 1;
      watches := watches[w := watch.(released := true)];
      made := made[e := made[e].(watches := left)];
      if left == 0 {
        entries := entries - {made[e].key};
      }
    }
  }
}
