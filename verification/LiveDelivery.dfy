module LiveDelivery {
  /** The delivery loop, the hub's levels, the shared event reads and the
      read-change watches on one clock: what it means that a stream is quiet. */

  import opened Common
  import opened DeliveryLog
  import CE = CachedEvents
  import HL = HubLevels
  import HLR = HubLevelsRuns
  import RC = RealtimeCache
  import RCR = RealtimeCacheRuns
  import UC = UnreadChanges

  /** A stream: its organisation's durable level, the levels of the kinds it is
      interested in, its batch size, its read-change watch, if it has one, and
      the cursor it starts at. */
  datatype Stream = Stream(
    organization: nat, durable: nat, kinds: map<Kind, nat>, batch: nat, watch: Option<nat>, start: int)

  /** When an entry of the log was made: at step `at`. A Waiting and a Woke
      belong to the hub's wait `wait`; a Read to the cached read `get`, which
      had returned at `got` and whose cursor was checked again at `verified`. */
  datatype Stamp = Stamp(at: nat, wait: nat, get: nat, got: nat, verified: nat)

  /** The machines side by side, one clock for all: a step moves some of them
      while the others tick. `watchOf` is the watch a wait was given. */
  datatype Joint = Joint(
    hub: seq<HL.State>, hubActions: seq<HL.Action>,
    cache: seq<RC.State<CE.EventsKey, seq<CE.Event>>>, cacheActions: seq<RC.Action<CE.EventsKey, seq<CE.Event>>>,
    changes: seq<UC.State>, changeActions: seq<UC.Action>,
    watchOf: nat -> nat, log: seq<Entry>, stamps: seq<Stamp>)
  {
    predicate OneClock() {
      && |hub| == |hubActions| + 1 && |cache| == |cacheActions| + 1 && |changes| == |changeActions| + 1
      && |hubActions| == |cacheActions| == |changeActions| && |stamps| == |log|
      && forall k :: 0 <= k < |log| ==> stamps[k].at <= |hubActions|
    }

    ghost predicate IsRun(s: Stream, w: CE.World, capacity: nat) {
      && OneClock() && HLR.IsRun(hub, hubActions) && UC.IsRun(changes, changeActions)
      && capacity >= 1 && RCR.IsRun(CE.Configured(capacity), cache, cacheActions)
      && w.Valid() && CE.LoadsRead(w, cache, cacheActions)
      && (forall i :: 0 <= i < |hubActions| ==> Linked(s, w, i))
      && s.start >= 0 && Orderly(s.start, log)
      && (forall k, m :: 0 <= k <= m < |stamps| ==> stamps[k].at <= stamps[m].at)
      && (forall k :: 0 <= k < |log| ==> Noted(s, w, k))
    }

    /** Raises announce committed events only; a wait with a watch snapshots
        it, and is roused only through the channel of that snapshot. */
    ghost predicate Linked(s: Stream, w: CE.World, i: nat)
      requires i < |hubActions| < |hub| && i < |changes|
    {
      match hubActions[i]
      case StartRaise(_, l, value) => l == s.durable ==> value <= w.window(s.organization, i).last
      case Glance(wait, generation) =>
        UC.Watching(changes[i], watchOf(wait)) && generation == UC.Generation(changes[i], watchOf(wait))
      case Rouse(wait) => CanRouse(i, wait)
      case _ => true
    }

    ghost predicate CanRouse(n: nat, wait: nat)
      requires n < |hub| && n < |changes|
    {
      && wait in hub[n].waits && hub[n].waits[wait].phase.Blocked? && hub[n].waits[wait].phase.glimpse.Some?
      && watchOf(wait) in changes[n].watches
      && UC.Channel(changes[n].watches[watchOf(wait)].entry, hub[n].waits[wait].phase.glimpse.value) in changes[n].closed
    }

    /** What each entry of the log says of the machines at its step. */
    ghost predicate Noted(s: Stream, w: CE.World, k: nat)
      requires OneClock() && k < |log|
    {
      var stamp := stamps[k];
      match log[k]
      case Read(_, count, full) =>
        stamp.got <= stamp.verified <= stamp.at && ReadBy(s, w, k, count) && (full <==> count == s.batch)
      case Observed(g) =>
        s.watch.Some? && UC.Watching(changes[stamp.at], s.watch.value) && g == UC.Generation(changes[stamp.at], s.watch.value)
      case Waiting(_, _, _, _, _, _, _) => stamp.at < |hubActions| && Started(s, log[k], stamp)
      case Woke(level) =>
        && k > 0 && stamp.wait == stamps[k - 1].wait && stamp.wait in hub[stamp.at].waits
        && var phase := hub[stamp.at].waits[stamp.wait].phase;
           phase.Returned? && s.durable in phase.levels && level == phase.levels[s.durable]
      case _ => true
    }

    /** The read's Get began once the entry before was made, asked for a batch
        from the cursor, and gave so many events. */
    ghost predicate ReadBy(s: Stream, w: CE.World, k: nat, count: nat)
      requires k < |log| == |stamps| && stamps[k].got < |cache|
    {
      var stamp := stamps[k];
      && stamp.get in cache[stamp.got].gets && cache[stamp.got].gets[stamp.get].phase.Returned?
      && var get := cache[stamp.got].gets[stamp.get];
         && (k > 0 ==> stamps[k - 1].at <= get.start)
         && get.key.organization == s.organization && get.key.limit == s.batch
         && get.key.after == Digested(s.start, log[..k]).cursor
         && var events := CE.EventsAfter(w, get.key, get.phase.result, stamp.verified);
            events.Some? && |events.value| == count
    }

    /** The wait starts with the levels and the generation its entry names. */
    ghost predicate Started(s: Stream, e: Entry, stamp: Stamp)
      requires e.Waiting? && stamp.at < |hubActions|
    {
      var a := hubActions[stamp.at];
      && a.StartWait? && a.w == stamp.wait
      && a.after.Keys == {s.durable} + s.kinds.Values && a.after[s.durable] == e.after
      && (forall kind :: kind in s.kinds ==> AsksKind(a.after, s.kinds[kind], kind, e))
      && (if s.watch.None? then a.observed.None? else a.observed == Some(e.observed) && watchOf(stamp.wait) == s.watch.value)
    }

    /** The log ends with a wait, and that wait is blocked now. */
    ghost predicate Blocked()
      requires hub != []
    {
      && log != [] && log[|log| - 1].Waiting? && |stamps| == |log|
      && Mine() in Now().waits && Now().waits[Mine()].phase.Blocked?
    }

    ghost function Now(): HL.State
      requires hub != []
    {
      hub[|hub| - 1]
    }

    ghost function Mine(): nat
      requires log != [] && |stamps| == |log|
    {
      stamps[|log| - 1].wait
    }

    /** Nothing is about to wake it: no channel it holds is closed or about to be. */
    ghost predicate Quiet()
      requires OneClock() && Blocked()
    {
      && !HL.CanWake(Now(), Mine()) && !CanRouse(|hub| - 1, Mine())
      && forall r, l :: r in Now().raises && l in Now().waits[Mine()].phase.captured ==>
           Now().raises[r].phase != HL.Closing(Now().waits[Mine()].phase.captured[l])
    }

    /** The step of the k-th entry, before it if there is none. */
    ghost function At(k: nat): nat
      requires k <= |stamps|
    {
      if k == 0 then 0 else stamps[k - 1].at
    }

    ghost function D(s: Stream): Digest {
      Digested(s.start, log)
    }
  }

  /** A wait asks for more than its entry says of a kind, at the level l. */
  ghost predicate AsksKind(after: map<nat, int>, l: nat, kind: Kind, e: Entry)
    requires e.Waiting?
  {
    l in after && after[l] == if kind.Presence? then e.presence else e.typing
  }

  // ----- what the loop knows is committed -----

  /** The last event committed at step t, zero before any. */
  ghost function Committed(w: CE.World, o: nat, t: nat): int {
    Max(0, w.window(o, t).last)
  }

  /** The level the loop goes by is committed, and a short read ends at or
      above the level known before it. */
  ghost predicate Sound(d: Digest, committed: int) {
    d.cursor >= 0 && d.seen <= committed && (d.short ==> d.upTo <= committed && d.known <= d.upTo)
  }

  lemma CommittedRises(w: CE.World, o: nat, t: nat, u: nat)
    requires w.Valid() && t <= u
    ensures 0 <= Committed(w, o, t) <= Committed(w, o, u)
  {
    assert w.window(o, t).last <= w.window(o, u).last;
  }

  /** A level the hub reports is one that was committed by then. */
  lemma LevelsAreCommitted(j: Joint, s: Stream, w: CE.World, capacity: nat, n: nat)
    requires j.IsRun(s, w, capacity) && n < |j.hub| && s.durable in j.hub[n].current
    ensures HL.Latest(j.hub[n], s.durable) <= Committed(w, s.organization, n)
  {
    var bound := (t: nat) => w.window(s.organization, t).last;
    forall i | 0 <= i < |j.hubActions| && j.hubActions[i].StartRaise? && j.hubActions[i].level == s.durable
      ensures j.hubActions[i].value <= bound(i)
    {
      assert j.Linked(s, w, i);
    }
    hide HLR.IsRun, RCR.IsRun, UC.IsRun, HL.Latest;
    HLR.LevelBounded(j.hub, j.hubActions, n, s.durable, bound);
  }

  lemma WokenLevel(j: Joint, s: Stream, w: CE.World, capacity: nat, k: nat)
    requires j.IsRun(s, w, capacity) && k < |j.log| && j.log[k].Woke?
    ensures j.log[k].level <= Committed(w, s.organization, j.stamps[k].at)
  {
    assert j.Noted(s, w, k);
    var n, wait := j.stamps[k].at, j.stamps[k].wait;
    hide HLR.IsRun, RCR.IsRun, UC.IsRun, HL.Latest;
    HLR.WaitsReturnNews(j.hub, j.hubActions, n, wait);
    HLR.AsksForLevels(j.hub, j.hubActions, n, wait);
    LevelsAreCommitted(j, s, w, capacity, n);
  }

  /** A read ends at a committed event; a short one at or above everything
      committed when the entry before it was made. */
  lemma ReadsAreComplete(j: Joint, s: Stream, w: CE.World, capacity: nat, k: nat)
    requires j.IsRun(s, w, capacity) && k < |j.log| && j.log[k].Read?
    ensures var end, o := Digested(s.start, j.log[..k]).cursor + j.log[k].count, s.organization;
            && end <= Committed(w, o, j.stamps[k].at)
            && (!j.log[k].full ==> w.window(o, j.At(k)).last <= end)
  {
    assert j.Noted(s, w, k);
    var stamp, o := j.stamps[k], s.organization;
    var get := j.cache[stamp.got].gets[stamp.get];
    hide HLR.IsRun, RCR.IsRun, UC.IsRun, CE.LoadsRead, Orderly, Digested;
    var t := CE.RefinesDirectRead(w, capacity, j.cache, j.cacheActions, stamp.got, stamp.get, stamp.verified);
    CE.ShortResultsAreComplete(w, capacity, j.cache, j.cacheActions, stamp.got, stamp.get, stamp.verified);
    CommittedRises(w, o, t, stamp.at);
    assert w.window(o, j.At(k)).last <= w.window(o, get.start).last;
  }

  lemma StartSound(start: int, committed: int)
    requires start >= 0 && committed >= 0
    ensures Sound(Digested(start, []), committed)
  {
  }

  lemma StepSound(d: Digest, e: Entry, before: int, now: int)
    requires Sound(d, before) && Allowed(d, e) && 0 <= before <= now
    requires e.Woke? ==> e.level <= now
    requires e.Read? ==> d.cursor + e.count <= now && (e.full || before <= Max(0, d.cursor + e.count))
    ensures Sound(Step(d, e), now)
  {
  }

  lemma Facts(j: Joint, s: Stream, w: CE.World, capacity: nat)
    requires j.IsRun(s, w, capacity)
    ensures j.OneClock() && s.start >= 0 && Orderly(s.start, j.log) && w.Valid()
  {
  }

  /** What StepSound asks of an entry holds of each entry of a joint run. */
  lemma EntrySound(j: Joint, s: Stream, w: CE.World, capacity: nat, k: nat)
    requires j.IsRun(s, w, capacity) && k < |j.log|
    ensures var e, o := j.log[k], s.organization;
            var now, end := Committed(w, o, j.stamps[k].at), Digested(s.start, j.log[..k]).cursor;
            && 0 <= Committed(w, o, j.At(k)) <= now && (e.Woke? ==> e.level <= now)
            && (e.Read? ==> end + e.count <= now && (e.full || Committed(w, o, j.At(k)) <= Max(0, end + e.count)))
  {
    hide Digested, Orderly, HLR.IsRun, RCR.IsRun, UC.IsRun, CE.LoadsRead;
    CommittedRises(w, s.organization, j.At(k), j.stamps[k].at);
    if j.log[k].Read? {
      ReadsAreComplete(j, s, w, capacity, k);
    }
    if j.log[k].Woke? {
      WokenLevel(j, s, w, capacity, k);
    }
  }

  lemma {:induction false} LogSound(j: Joint, s: Stream, w: CE.World, capacity: nat, k: nat)
    requires j.IsRun(s, w, capacity) && k <= |j.log|
    ensures Sound(Digested(s.start, j.log[..k]), Committed(w, s.organization, j.At(k)))
  {
    hide Joint.IsRun, Sound, Allowed, Step, Orderly, Digested, Committed;
    Facts(j, s, w, capacity);
    if k == 0 {
      CommittedRises(w, s.organization, 0, 0);
      StartSound(s.start, Committed(w, s.organization, 0));
      assert j.log[..0] == [];
    } else {
      LogSound(j, s, w, capacity, k - 1);
      EntrySound(j, s, w, capacity, k - 1);
      PrefixStep(s.start, j.log, k);
      StepSound(Digested(s.start, j.log[..k - 1]), j.log[k - 1],
                Committed(w, s.organization, j.At(k - 1)), Committed(w, s.organization, j.At(k)));
    }
  }

  // ----- quiet streams -----

  /** The wait the log ends with asks for what its entry says. */
  lemma AsksForMore(j: Joint, s: Stream, w: CE.World, capacity: nat)
    requires j.IsRun(s, w, capacity) && j.Blocked()
    ensures var wait, e := j.Now().waits[j.Mine()], j.log[|j.log| - 1];
            && s.durable in wait.after && wait.after[s.durable] == e.after
            && (forall kind :: kind in s.kinds ==> AsksKind(wait.after, s.kinds[kind], kind, e))
            && (s.watch.Some? ==> wait.observed == Some(e.observed) && j.watchOf(j.Mine()) == s.watch.value)
  {
    hide HLR.IsRun, RCR.IsRun, UC.IsRun, CE.LoadsRead, Orderly, AsksKind, HL.CanWake, HL.Values, HL.Settled;
    var k := |j.log| - 1;
    assert j.Noted(s, w, k);
    HLR.StartsAsking(j.hub, j.hubActions, j.stamps[k].at, |j.hubActions|);
  }

  /** A level a blocked wait asks about is no more than it asked for, unless
      a close is still to come. */
  lemma QuietLevel(j: Joint, s: Stream, w: CE.World, capacity: nat, l: nat)
    requires j.IsRun(s, w, capacity) && j.Blocked() && j.Quiet() && l in j.Now().waits[j.Mine()].after
    ensures HL.Latest(j.Now(), l) <= j.Now().waits[j.Mine()].after[l]
  {
    hide HL.Latest, HL.CanWake;
    if HL.Latest(j.Now(), l) > j.Now().waits[j.Mine()].after[l] {
      HLR.NoLostWakeup(j.hub, j.hubActions, |j.hub| - 1, j.Mine(), l);
      assert false;
    }
  }

  lemma WaitRule(start: int, log: seq<Entry>)
    requires Orderly(start, log) && log != [] && log[|log| - 1].Waiting?
    ensures var d, e := Digested(start, log), log[|log| - 1];
            && d.short && d.cursor == d.upTo
            && d.cursor <= e.after <= Max(d.cursor, d.known)
            && e.presence == d.presence && e.typing == d.typing
            && e.observed == d.observed && (d.observed > d.covered ==> e.recountDue)
  {
  }

  /** A quiet stream has delivered or skipped every event the hub has been
      told about, each once and in order, and its presence and typing state
      cover the hub's generations. */
  lemma QuietStreamHasEverything(j: Joint, s: Stream, w: CE.World, capacity: nat)
    requires j.IsRun(s, w, capacity) && j.Blocked() && j.Quiet()
    ensures HL.Latest(j.Now(), s.durable) <= j.D(s).cursor
    ensures Consecutive(s.start, Decisions(j.log)) && HL.Latest(j.Now(), s.durable) <= s.start + |Decisions(j.log)|
    ensures forall kind :: kind in s.kinds ==> HL.Latest(j.Now(), s.kinds[kind]) <= Seen(j.D(s), kind)
  {
    hide Orderly, Digested, Decisions, HL.Latest, HL.CanWake, HLR.IsRun, RCR.IsRun, UC.IsRun, CE.LoadsRead;
    AsksForMore(j, s, w, capacity);
    LogSound(j, s, w, capacity, |j.log|);
    assert j.log[..|j.log|] == j.log;
    WaitRule(s.start, j.log);
    DecidedOnce(s.start, j.log);
    QuietLevel(j, s, w, capacity, s.durable);
    forall kind | kind in s.kinds ensures HL.Latest(j.Now(), s.kinds[kind]) <= Seen(j.D(s), kind) {
      QuietLevel(j, s, w, capacity, s.kinds[kind]);
    }
  }

  // ----- read changes -----

  /** What an entry does to the digest's watch and recounts. */
  ghost predicate Watched(d: Digest, e: Entry, u: Digest) {
    && u.observed == (if e.Observed? then e.change else d.observed)
    && (u.counting ==> !e.Observed? && (e.Counting? || d.counting))
    && u.covered == (if e.Recounted? then e.change else d.covered)
    && (e.Recounted? ==> d.counting && e.change == d.observed)
  }

  lemma StepWatched(d: Digest, e: Entry)
    requires Allowed(d, e)
    ensures Watched(d, e, Step(d, e))
  {
  }

  lemma LastStep(start: int, log: seq<Entry>)
    requires Orderly(start, log) && log != []
    ensures Orderly(start, log[..|log| - 1])
    ensures Watched(Digested(start, log[..|log| - 1]), log[|log| - 1], Digested(start, log))
  {
    hide Allowed, Step, Watched;
    StepWatched(Digested(start, log[..|log| - 1]), log[|log| - 1]);
  }

  /** What a covered change means: a recount was written, read after the watch
      was captured at that change. */
  lemma {:induction false} CoveredByARecount(start: int, log: seq<Entry>) returns (a: nat, c: nat, b: nat)
    requires Orderly(start, log) && Digested(start, log).covered > 0
    ensures var g := Digested(start, log).covered;
            a < c < b < |log| && log[a] == Observed(g) && log[c] == Counting && log[b] == Recounted(g)
  {
    assert log != [];
    hide Orderly, Digested;
    LastStep(start, log);
    var prefix := log[..|log| - 1];
    if log[|log| - 1].Recounted? {
      b := |log| - 1;
      a, c := LastCount(start, prefix);
    } else {
      a, c, b := CoveredByARecount(start, prefix);
    }
  }

  lemma {:induction false} LastCapture(start: int, log: seq<Entry>) returns (a: nat)
    requires Orderly(start, log) && Digested(start, log).observed > 0
    ensures a < |log| && log[a] == Observed(Digested(start, log).observed)
  {
    assert log != [];
    hide Orderly, Digested;
    LastStep(start, log);
    if log[|log| - 1].Observed? {
      a := |log| - 1;
    } else {
      a := LastCapture(start, log[..|log| - 1]);
    }
  }

  lemma {:induction false} LastCount(start: int, log: seq<Entry>) returns (a: nat, c: nat)
    requires Orderly(start, log) && Digested(start, log).observed > 0 && Digested(start, log).counting
    ensures a < c < |log| && log[a] == Observed(Digested(start, log).observed) && log[c] == Counting
  {
    assert log != [];
    hide Orderly, Digested;
    LastStep(start, log);
    var prefix := log[..|log| - 1];
    if log[|log| - 1].Counting? {
      c := |log| - 1;
      a := LastCapture(start, prefix);
    } else {
      a, c := LastCount(start, prefix);
    }
  }

  /** A change published at step p comes after a capture at or before p. */
  lemma CapturedAfter(j: Joint, s: Stream, w: CE.World, capacity: nat, p: nat, key: UC.Key, t: nat)
    requires j.IsRun(s, w, capacity) && s.watch.Some? && p < |j.changeActions| && t < |j.changes|
    requires IsChange(j, s, p, key) && UC.Watching(j.changes[t], s.watch.value)
    ensures t <= p ==> UC.Generation(j.changes[t], s.watch.value) < Published(j, s, p, key)
    ensures t > p ==> UC.Generation(j.changes[t], s.watch.value) >= Published(j, s, p, key)
  {
    UC.RunInv(j.changes, j.changeActions, p);
    assert UC.StepAt(j.changes, j.changeActions, p);
    UC.ChangesAdvance(j.changes[p], key, s.watch.value);
    hide UC.Inv, HLR.IsRun, RCR.IsRun;
    if t <= p {
      UC.RunAdvances(j.changes, j.changeActions, t, p);
    } else {
      UC.RunAdvances(j.changes, j.changeActions, p + 1, t);
    }
  }

  /** At step p a read change of the stream's member is published, while the
      stream watches them. */
  ghost predicate IsChange(j: Joint, s: Stream, p: nat, key: UC.Key)
    requires s.watch.Some? && p < |j.changeActions| && p < |j.changes|
  {
    && j.changeActions[p] == UC.ReadChanged(key) && UC.Watching(j.changes[p], s.watch.value)
    && j.changes[p].made[j.changes[p].watches[s.watch.value].entry].key == key
  }

  /** The generation it publishes. */
  ghost function Published(j: Joint, s: Stream, p: nat, key: UC.Key): nat
    requires s.watch.Some? && p < |j.changeActions| && p < |j.changes| && IsChange(j, s, p, key)
  {
    UC.Generation(j.changes[p], s.watch.value) + 1
  }

  /** A recount was written whose read began after step p. */
  ghost predicate RecountedAfter(j: Joint, p: nat) {
    exists c, b :: 0 <= c < b < |j.log| && c < |j.stamps| && j.log[c].Counting? && j.log[b].Recounted? && p < j.stamps[c].at
  }

  lemma CoveredAfter(j: Joint, s: Stream, w: CE.World, capacity: nat, p: nat, key: UC.Key)
    requires j.IsRun(s, w, capacity) && s.watch.Some? && p < |j.changeActions|
    requires IsChange(j, s, p, key) && Published(j, s, p, key) <= j.D(s).covered
    ensures RecountedAfter(j, p)
  {
    var a, c, b := CoveredByARecount(s.start, j.log);
    assert j.Noted(s, w, a);
    hide HLR.IsRun, RCR.IsRun, UC.IsRun, Orderly, Digested;
    CapturedAfter(j, s, w, capacity, p, key, j.stamps[a].at);
    assert p < j.stamps[a].at <= j.stamps[c].at;
  }

  lemma RousedBy(j: Joint, s: Stream, w: CE.World, capacity: nat)
    requires j.IsRun(s, w, capacity) && j.Blocked() && s.watch.Some? && UC.Watching(j.changes[|j.changes| - 1], s.watch.value)
    requires UC.Generation(j.changes[|j.changes| - 1], s.watch.value) > j.log[|j.log| - 1].observed
    ensures j.CanRouse(|j.hub| - 1, j.Mine())
  {
    hide HLR.IsRun, RCR.IsRun, UC.IsRun, UC.Inv, CE.LoadsRead, Orderly, HL.CanWake;
    AsksForMore(j, s, w, capacity);
    var n := |j.hub| - 1;
    UC.RunInv(j.changes, j.changeActions, n);
    UC.OldChannels(j.changes[n], s.watch.value);
    HLR.BlockedGlimpse(j.hub, j.hubActions, n, j.Mine());
  }

  /** No read change is lost: when the stream waits, a change published while
      it watches has a recount that was read after it and written, or its
      recount is due by a deadline of the wait, or the wait is being woken. */
  lemma NoReadChangeIsLost(j: Joint, s: Stream, w: CE.World, capacity: nat, p: nat, key: UC.Key)
    requires j.IsRun(s, w, capacity) && j.Blocked() && s.watch.Some? && p < |j.changeActions|
    requires IsChange(j, s, p, key) && UC.Watching(j.changes[|j.changes| - 1], s.watch.value)
    ensures RecountedAfter(j, p) || j.log[|j.log| - 1].recountDue || !j.Quiet()
  {
    hide Orderly, Digested, HLR.IsRun, RCR.IsRun, UC.IsRun, CE.LoadsRead, HL.CanWake;
    WaitRule(s.start, j.log);
    CapturedAfter(j, s, w, capacity, p, key, |j.changes| - 1);
    if Published(j, s, p, key) <= j.D(s).covered {
      CoveredAfter(j, s, w, capacity, p, key);
    } else if Published(j, s, p, key) > j.D(s).observed {
      RousedBy(j, s, w, capacity);
    }
  }
}
