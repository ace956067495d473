/** More that every step of the authorizer keeps: which check is its key's newest,
    what each took when it registered, and how the list is ordered.
    StreamAuthorizerEntries states what comes of it. */
module StreamAuthorizerBooks {
  import opened Common
  import opened Recency
  import opened StreamAuthorizer
  import opened StreamAuthorizerRuns

  /** The membership that is held for a key. */
  function Held(elems: map<nat, Entry>, entries: map<Key, nat>, key: Key): Option<Membership> {
    if key in entries && entries[key] in elems then Some(elems[entries[key]].membership) else None
  }

  predicate SettledBy(held: Option<Membership>, organization: nat, epoch: nat) {
    held.Some? && held.value.organization == organization && held.value.epoch >= epoch
  }

  // ----- more that every step keeps -----

  /** A check in flight that registered last for its key is the one registered. */
  ghost predicate NewestOk(c: nat, checks: map<nat, Check>, latest: map<Key, nat>)
    requires c in checks
  {
    !checks[c].phase.Done? && Newest(c, checks) ==> checks[c].key in latest && latest[checks[c].key] == c
  }

  ghost predicate Newest(c: nat, checks: map<nat, Check>)
    requires c in checks
  {
    forall d :: d in checks && checks[d].key == checks[c].key && d != c ==> checks[d].start < checks[c].start
  }

  ghost predicate NewestInv(checks: map<nat, Check>, latest: map<Key, nat>) {
    forall c :: c in checks ==> NewestOk(c, checks, latest)
  }

  function Snapshot(check: Check, elems: map<nat, Entry>): Option<Membership> {
    if check.snapshot.Some? && check.snapshot.value in elems then Some(elems[check.snapshot.value].membership) else None
  }

  /** A check's snapshot is what was held when it registered. */
  ghost predicate SnapshotOk(check: Check, elems: map<nat, Entry>, trace: seq<State>) {
    check.start < |trace| && Snapshot(check, elems) == Held(trace[check.start].elems, trace[check.start].entries, check.key)
    && (check.snapshot.Some? ==> check.snapshot.value in elems)
  }

  ghost predicate SnapshotInv(checks: map<nat, Check>, elems: map<nat, Entry>, trace: seq<State>) {
    forall c :: c in checks ==> SnapshotOk(checks[c], elems, trace)
  }

  /** What a step of a registered check changes of the checks. */
  lemma CheckFrame(capacity: nat, s: State, a: Action)
    requires Enabled(s, a) && !a.Register? && !a.Tick?
    ensures var u, c := Next(capacity, s, a), a.check;
            && c in s.checks && c in u.checks && u.checks == s.checks[c := u.checks[c]]
            && u.checks[c].key == s.checks[c].key && u.checks[c].start == s.checks[c].start && u.checks[c].snapshot == s.checks[c].snapshot
            && (u.checks[c].phase.Done? ==> a.Cleanup?)
            && u.latest == (if a.Cleanup? && s.checks[c].key in s.latest && s.latest[s.checks[c].key] == c then s.latest - {s.checks[c].key} else s.latest)
            && (forall x :: x in s.elems ==> x in u.elems && u.elems[x] == s.elems[x])
  {
    hide Stores, Stored, Judged, Without, ToFront, Settles;
  }

  lemma NewestMoved(s: State, c: nat, check: Check, latest: map<Key, nat>)
    requires NewestInv(s.checks, s.latest) && c in s.checks && check.key == s.checks[c].key && check.start == s.checks[c].start
    requires latest == s.latest || (check.phase.Done? && check.key in s.latest && s.latest[check.key] == c && latest == s.latest - {check.key})
    requires check.phase.Done? || !s.checks[c].phase.Done?
    ensures NewestInv(s.checks[c := check], latest)
  {
    var checks := s.checks[c := check];
    forall d | d in checks ensures NewestOk(d, checks, latest) {
      assert NewestOk(d, s.checks, s.latest);
      if Newest(d, checks) {
        forall x | x in s.checks && s.checks[x].key == s.checks[d].key && x != d ensures s.checks[x].start < s.checks[d].start {
          assert x in checks;
        }
        assert Newest(d, s.checks);
      }
    }
  }

  lemma NewestRegistered(s: State, c: nat, check: Check)
    requires NewestInv(s.checks, s.latest) && c !in s.checks && forall d :: d in s.checks ==> s.checks[d].start < check.start
    ensures NewestInv(s.checks[c := check], s.latest[check.key := c])
  {
    var checks := s.checks[c := check];
    forall d | d in checks ensures NewestOk(d, checks, s.latest[check.key := c]) {
      if d != c && Newest(d, checks) {
        assert NewestOk(d, s.checks, s.latest);
        assert c in checks && checks[c] == check;
        forall x | x in s.checks && s.checks[x].key == s.checks[d].key && x != d ensures s.checks[x].start < s.checks[d].start {
          assert x in checks && checks[x] == s.checks[x];
        }
        assert Newest(d, s.checks);
      }
    }
  }

  lemma SnapshotsLater(checks: map<nat, Check>, elems: map<nat, Entry>, more: map<nat, Entry>, c: nat, check: Check, trace: seq<State>)
    requires SnapshotInv(checks, elems, trace) && (forall x :: x in elems ==> x in more && more[x] == elems[x])
    requires SnapshotOk(check, more, trace)
    ensures SnapshotInv(checks[c := check], more, trace)
  {
    forall d | d in checks && d != c ensures SnapshotOk(checks[d], more, trace) {
      assert SnapshotOk(checks[d], elems, trace);
    }
  }

  /** A registering check takes what is held now. */
  lemma RegisterMore(capacity: nat, s: State, a: Action, actions: seq<Action>, trace: seq<State>)
    requires Inv(capacity, s, actions) && Enabled(s, a) && a.Register? && s.clock < |trace| && trace[s.clock] == s
    requires NewestInv(s.checks, s.latest) && SnapshotInv(s.checks, s.elems, trace)
    ensures var u := Next(capacity, s, a); NewestInv(u.checks, u.latest) && SnapshotInv(u.checks, u.elems, trace)
  {
    var check := Check(a.key, a.organization, s.clock, Resident(s.entries, a.key), None, None, Asking);
    forall d | d in s.checks ensures s.checks[d].start < s.clock {
      assert CheckOk(d, s.checks[d], s.elems, s.clock, actions);
    }
    assert a.key in s.entries ==> s.entries[a.key] in s.elems;
    hide Inv, NewestInv, SnapshotInv;
    NewestRegistered(s, a.check, check);
    SnapshotsLater(s.checks, s.elems, s.elems, a.check, check, trace);
  }

  lemma StepMore(capacity: nat, s: State, a: Action, actions: seq<Action>, trace: seq<State>)
    requires Inv(capacity, s, actions) && Enabled(s, a) && s.clock < |trace| && trace[s.clock] == s
    requires NewestInv(s.checks, s.latest) && SnapshotInv(s.checks, s.elems, trace)
    ensures var u := Next(capacity, s, a); NewestInv(u.checks, u.latest) && SnapshotInv(u.checks, u.elems, trace)
  {
    hide Inv, Next, NewestInv, SnapshotInv;
    if a.Register? {
      RegisterMore(capacity, s, a, actions, trace);
    } else if a.Tick? {
      TickMore(capacity, s);
    } else {
      var u, c := Next(capacity, s, a), a.check;
      CheckFrame(capacity, s, a);
      PhaseFrame(capacity, s, a);
      NewestMoved(s, c, u.checks[c], u.latest);
      SnapshotLasts(s, u.elems, c, u.checks[c], trace);
      SnapshotsLater(s.checks, s.elems, u.elems, c, u.checks[c], trace);
    }
  }

  lemma TickMore(capacity: nat, s: State)
    ensures var u := Next(capacity, s, Tick); u.checks == s.checks && u.latest == s.latest && u.elems == s.elems
  {
  }

  lemma PhaseFrame(capacity: nat, s: State, a: Action)
    requires Enabled(s, a) && !a.Register? && !a.Tick?
    ensures !s.checks[a.check].phase.Done? && (a.Cleanup? ==> Next(capacity, s, a).checks[a.check].phase.Done?)
  {
    hide Stores, Stored, Judged, Without, ToFront, Settles;
  }

  lemma SnapshotLasts(s: State, more: map<nat, Entry>, c: nat, check: Check, trace: seq<State>)
    requires SnapshotInv(s.checks, s.elems, trace) && c in s.checks && (forall x :: x in s.elems ==> x in more && more[x] == s.elems[x])
    requires check.snapshot == s.checks[c].snapshot && check.start == s.checks[c].start && check.key == s.checks[c].key
    ensures SnapshotOk(check, more, trace)
  {
    assert SnapshotOk(s.checks[c], s.elems, trace);
  }

  lemma RunMore(capacity: nat, trace: seq<State>, actions: seq<Action>, n: nat)
    requires IsRun(capacity, trace, actions) && n < |trace|
    ensures NewestInv(trace[n].checks, trace[n].latest) && SnapshotInv(trace[n].checks, trace[n].elems, trace)
  {
    hide Inv, Next, Enabled;
    var i := 0;
    while i < n
      invariant i <= n && NewestInv(trace[i].checks, trace[i].latest) && SnapshotInv(trace[i].checks, trace[i].elems, trace)
    {
      RunInv(capacity, trace, actions, i);
      assert StepAt(capacity, trace, actions, i);
      StepMore(capacity, trace[i], actions[i], actions, trace);
      i := i + 1;
    }
  }

  // ----- whose result is kept -----

  /** No check has registered for the key since this one did. */
  ghost predicate NoneSince(actions: seq<Action>, start: nat, n: nat, key: Key)
    requires n <= |actions|
  {
    forall i :: start < i < n ==> !(actions[i].Register? && actions[i].key == key)
  }

  lemma NewestIs(capacity: nat, s: State, actions: seq<Action>, c: nat)
    requires Inv(capacity, s, actions) && NewestInv(s.checks, s.latest) && c in s.checks && !s.checks[c].phase.Done?
    ensures s.checks[c].key in s.latest && s.latest[s.checks[c].key] == c <==> Newest(c, s.checks)
  {
    hide StoreInv, AnswerOk;
    assert NewestOk(c, s.checks, s.latest);
    var key := s.checks[c].key;
    if key in s.latest && s.latest[key] == c {
      forall d | d in s.checks && s.checks[d].key == key && d != c ensures s.checks[d].start < s.checks[c].start {
        assert CheckOk(d, s.checks[d], s.elems, s.clock, actions) && CheckOk(c, s.checks[c], s.elems, s.clock, actions);
      }
    }
  }

  /** All registrations so far have their checks. */
  lemma {:induction false} Registered(capacity: nat, trace: seq<State>, actions: seq<Action>, n: nat, i: nat)
    requires IsRun(capacity, trace, actions) && i < n < |trace| && actions[i].Register?
    ensures actions[i].check in trace[n].checks && trace[n].checks[actions[i].check].key == actions[i].key
    ensures trace[n].checks[actions[i].check].start == i
  {
    hide Inv, Next, Enabled, Init;
    ghost var m: nat := n - 1;
    assert StepAt(capacity, trace, actions, m);
    RunInv(capacity, trace, actions, m);
    if i == m {
      RegisterNow(capacity, trace[m], actions[m]);
    } else {
      Registered(capacity, trace, actions, m, i);
      ChecksLast(capacity, trace[m], actions[m]);
    }
  }

  lemma RegisterNow(capacity: nat, s: State, a: Action)
    requires Enabled(s, a) && a.Register?
    ensures a.check in Next(capacity, s, a).checks && Next(capacity, s, a).checks[a.check].key == a.key
    ensures Next(capacity, s, a).checks[a.check].start == s.clock
  {
  }

  lemma NewestSince(capacity: nat, trace: seq<State>, actions: seq<Action>, n: nat, c: nat)
    requires IsRun(capacity, trace, actions) && n < |trace| && c in trace[n].checks
    ensures Newest(c, trace[n].checks) <==> NoneSince(actions, trace[n].checks[c].start, n, trace[n].checks[c].key)
  {
    RunInv(capacity, trace, actions, n);
    hide IsRun, StoreInv, LatestInv, AnswerOk;
    var s := trace[n];
    var start, key := s.checks[c].start, s.checks[c].key;
    assert CheckOk(c, s.checks[c], s.elems, n, actions);
    if Newest(c, s.checks) {
      forall i | start < i < n && actions[i].Register? ensures actions[i].key != key {
        Registered(capacity, trace, actions, n, i);
      }
    }
    if NoneSince(actions, start, n, key) {
      forall d | d in s.checks && s.checks[d].key == key && d != c ensures s.checks[d].start < start {
        assert CheckOk(d, s.checks[d], s.elems, n, actions);
      }
    }
  }

  /** What replacing a key's element leaves of the list and the map. */
  function PutFirst(order: seq<nat>, old_: Option<nat>, e: nat): seq<nat> {
    [e] + if old_.Some? then Without(order, old_.value) else order
  }

  lemma StoredShape(capacity: nat, s: State, e: nat, entry: Entry)
    requires StoreInv(capacity, s.elems, s.entries, s.order) && e !in s.elems && capacity >= 1
    ensures var u, first := Stored(capacity, s, e, entry), PutFirst(s.order, Resident(s.entries, entry.key), e);
            && u.order == first[..Min(|first|, capacity)]
            && entry.key in u.entries && u.entries[entry.key] == e
            && (forall k :: k in u.entries && k != entry.key ==> k in s.entries && u.entries[k] == s.entries[k])
            && (forall k :: k in s.entries && k != entry.key ==> (k in u.entries <==> s.entries[k] in u.order))
  {
    if entry.key in s.entries {
      StoreRemoved(capacity, s.elems, s.entries, s.order, entry.key);
      WithoutDistinct(s.order, s.entries[entry.key]);
    }
    var removed := Removed(s, entry.key);
    hide Without;
    PushedShape(capacity, removed, e, entry);
  }

  lemma PushedShape(capacity: nat, s: State, e: nat, entry: Entry)
    requires StoreInv(capacity, s.elems, s.entries, s.order) && e !in s.elems && entry.key !in s.entries && capacity >= 1
    requires forall x :: x in Pushed(s, e, entry).order ==> x in Pushed(s, e, entry).elems
    ensures var u, first := Evicted(Pushed(s, e, entry), capacity), [e] + s.order;
            && u.order == first[..Min(|first|, capacity)]
            && entry.key in u.entries && u.entries[entry.key] == e
            && (forall k :: k in u.entries && k != entry.key ==> k in s.entries && u.entries[k] == s.entries[k])
            && (forall k :: k in s.entries ==> (k in u.entries <==> s.entries[k] in u.order))
  {
    var first := [e] + s.order;
    if |first| > capacity {
      var oldest, rest := first[|first| - 1], first[..|first| - 1];
      assert first == rest + [oldest];
      assert oldest == s.order[|s.order| - 1];
      forall k | k in s.entries ensures s.entries[k] in rest <==> s.entries[k] != oldest {
        var i :| 0 <= i < |s.order| && s.order[i] == s.entries[k];
        assert first[i + 1] == s.entries[k];
      }
    } else {
      assert first[..Min(|first|, capacity)] == first;
      forall k | k in s.entries ensures s.entries[k] in first {
        var i :| 0 <= i < |s.order| && s.order[i] == s.entries[k];
        assert first[i + 1] == s.entries[k];
      }
    }
  }

  lemma FinishShape(capacity: nat, s: State, a: Action)
    requires capacity >= 1 && StoreInv(capacity, s.elems, s.entries, s.order) && Enabled(s, a) && a.Finish?
    ensures var u, key, first := Next(capacity, s, a), s.checks[a.check].key, PutFirst(s.order, Resident(s.entries, s.checks[a.check].key), a.elem);
            if a.ended || !Stores(s, a.check, a.fetched) then u.order == s.order && u.entries == s.entries && u.elems == s.elems
            else
              && u.order == first[..Min(|first|, capacity)] && key in u.entries && u.entries[key] == a.elem
              && (forall k :: k in u.entries && k != key ==> k in s.entries && u.entries[k] == s.entries[k])
              && (forall k :: k in s.entries && k != key ==> (k in u.entries <==> s.entries[k] in u.order))
              && a.fetched.Allowed? && u.elems == s.elems[a.elem := Entry(key, a.fetched.membership)]
  {
    hide StoreInv, Stored, Judged, Without, PutFirst;
    var check := s.checks[a.check].(fetched := Some(a.fetched));
    if !a.ended && Stores(s, a.check, a.fetched) {
      var answer := Judged(a.fetched, check.reading.value.epoch);
      StoredShape(capacity, MoveCheck(s, a.check, check.(phase := Cleaning(answer, false))), a.elem, Entry(check.key, a.fetched.membership));
    }
  }

  lemma InvStore(capacity: nat, s: State, actions: seq<Action>)
    requires Inv(capacity, s, actions)
    ensures StoreInv(capacity, s.elems, s.entries, s.order)
  {
  }

  // ----- which entry leaves -----

  /** The element that step n uses: one that settles a check at hand, one just
      stored, or the one a settled check had taken when it registered. */
  ghost function UsedAt(trace: seq<State>, actions: seq<Action>, n: nat): Option<nat>
    requires n < |actions| && n + 1 < |trace|
  {
    var s, u := trace[n], trace[n + 1];
    match actions[n]
    case Lookup(c) =>
      if c in s.checks && c in u.checks && u.checks[c].phase.Cleaning? then Resident(s.entries, s.checks[c].key) else None
    case Finish(c, _, _, e) => if c in s.checks && Resident(u.entries, s.checks[c].key) == Some(e) then Some(e) else None
    case Cleanup(c) =>
      if c in s.checks && s.checks[c].phase.Cleaning? && s.checks[c].phase.hit
         && Resident(s.entries, s.checks[c].key) == s.checks[c].snapshot then s.checks[c].snapshot else None
    case _ => None
  }

  ghost function Uses(trace: seq<State>, actions: seq<Action>, n: nat): seq<Option<nat>>
    requires n <= |actions| < |trace|
  {
    if n == 0 then [] else Uses(trace, actions, n - 1) + [UsedAt(trace, actions, n - 1)]
  }

  /** The list after a step, in terms of the list before and the element used. */
  ghost predicate Reordered(capacity: nat, order: seq<nat>, after: seq<nat>, used: Option<nat>) {
    || (used == None && (after == order || exists e :: after == Without(order, e)))
    || (used.Some? && used.value in order && after == ToFront(order, used.value))
    || (used.Some? && used.value !in order
        && exists old_ :: var first := PutFirst(order, old_, used.value); after == first[..Min(|first|, capacity)])
  }

  lemma LookupOrder(capacity: nat, s: State, a: Action)
    requires StoreInv(capacity, s.elems, s.entries, s.order) && Enabled(s, a) && a.Lookup?
    ensures var u, key := Next(capacity, s, a), s.checks[a.check].key;
            && u.elems == s.elems && a.check in u.checks
            && (u.checks[a.check].phase.Cleaning? ==>
                  key in s.entries && s.entries[key] in s.order && u.order == ToFront(s.order, s.entries[key]) && u.entries == s.entries)
            && (!u.checks[a.check].phase.Cleaning? ==>
                  (u.order == s.order || (key in s.entries && u.order == Without(s.order, s.entries[key]))) && u.entries == s.entries - {key})
  {
    hide ToFront, Without, Settles;
  }

  lemma CleanupOrder(capacity: nat, s: State, a: Action)
    requires StoreInv(capacity, s.elems, s.entries, s.order) && Enabled(s, a) && a.Cleanup?
    ensures var u, check := Next(capacity, s, a), s.checks[a.check];
            && u.elems == s.elems && u.entries == s.entries
            && if check.phase.hit && check.snapshot.Some? && Resident(s.entries, check.key) == check.snapshot
               then check.snapshot.value in s.order && u.order == ToFront(s.order, check.snapshot.value)
               else u.order == s.order
  {
    hide ToFront, Without;
  }

  lemma StillOrder(capacity: nat, s: State, a: Action)
    requires Enabled(s, a) && (a.Register? || a.Epoch? || a.Tick?)
    ensures var u := Next(capacity, s, a); u.order == s.order && u.entries == s.entries && u.elems == s.elems
  {
    hide Settles;
  }

  lemma FinishOrder(capacity: nat, s: State, a: Action)
    requires capacity >= 1 && StoreInv(capacity, s.elems, s.entries, s.order) && Enabled(s, a) && a.Finish?
    ensures var u, key, first := Next(capacity, s, a), s.checks[a.check].key, PutFirst(s.order, Resident(s.entries, s.checks[a.check].key), a.elem);
            a.elem !in s.order
            && if Resident(u.entries, key) == Some(a.elem) then u.order == first[..Min(|first|, capacity)]
               else u.order == s.order && u.entries == s.entries
  {
    hide Stores, AfterFinish, PutFirst;
    FinishShape(capacity, s, a);
  }

  lemma OrderStep(capacity: nat, trace: seq<State>, actions: seq<Action>, n: nat)
    requires capacity >= 1 && n < |actions| < |trace| && StepAt(capacity, trace, actions, n)
    requires StoreInv(capacity, trace[n].elems, trace[n].entries, trace[n].order)
    ensures Reordered(capacity, trace[n].order, trace[n + 1].order, UsedAt(trace, actions, n))
  {
    hide StoreInv, Next, ToFront, Without, PutFirst;
    var s, a := trace[n], actions[n];
    match a
    case Lookup(_) => LookupOrder(capacity, s, a);
    case Finish(_, _, _, _) => FinishOrder(capacity, s, a);
    case Cleanup(_) => CleanupOrder(capacity, s, a);
    case Register(_, _, _) => StillOrder(capacity, s, a);
    case Epoch(_, _, _) => StillOrder(capacity, s, a);
    case Tick => StillOrder(capacity, s, a);
  }

  lemma OrderKept(capacity: nat, order: seq<nat>, after: seq<nat>, uses: seq<Option<nat>>, used: Option<nat>)
    requires ByLastUse(order, uses) && Reordered(capacity, order, after, used)
    ensures ByLastUse(after, uses + [used])
  {
    hide ByLastUse, Without;
    if used == None {
      if after != order {
        var e :| after == Without(order, e);
        DroppedKey(order, uses, e);
      }
      NotUsed(after, uses, None);
    } else if used.value in order {
      DroppedKey(order, uses, used.value);
      WithoutElements(order, used.value);
      UsedFirst(Without(order, used.value), uses, used.value);
    } else {
      var old_ :| var first := PutFirst(order, old_, used.value); after == first[..Min(|first|, capacity)];
      var rest := if old_.Some? then Without(order, old_.value) else order;
      if old_.Some? {
        DroppedKey(order, uses, old_.value);
        WithoutElements(order, old_.value);
      }
      UsedFirst(rest, uses, used.value);
      LatestFit([used.value] + rest, uses + [used], Min(|rest| + 1, capacity));
    }
  }

  lemma NothingUsed()
    ensures ByLastUse<nat>([], [])
  {
  }

  /** The list is in the order of last use. */
  lemma {:induction false} OrderedByUse(capacity: nat, trace: seq<State>, actions: seq<Action>, n: nat)
    requires IsRun(capacity, trace, actions) && n < |trace|
    ensures ByLastUse(trace[n].order, Uses(trace, actions, n))
  {
    hide Inv, Next, Enabled, ByLastUse, UsedAt, Reordered;
    if n == 0 {
      NothingUsed();
    } else {
      ghost var m: nat := n - 1;
      OrderedByUse(capacity, trace, actions, m);
      RunInv(capacity, trace, actions, m);
      InvStore(capacity, trace[m], actions);
      assert StepAt(capacity, trace, actions, m);
      OrderStep(capacity, trace, actions, m);
      OrderKept(capacity, trace[m].order, trace[n].order, Uses(trace, actions, m), UsedAt(trace, actions, m));
    }
  }

  /** Of a full list the last element goes. */
  lemma LastLeaves(order: seq<nat>, e: nat, capacity: nat, uses: seq<Option<nat>>, x: nat)
    requires ByLastUse(order, uses) && |order| <= capacity && x in order
    requires var first := [e] + order; x !in first[..Min(|first|, capacity)]
    ensures |order| == capacity && forall y :: y in order && y != x ==> LastUse(uses, y) > LastUse(uses, x)
  {
    hide LastUse;
    var i :| 0 <= i < |order| && order[i] == x;
    var first := [e] + order;
    var fit := first[..Min(|first|, capacity)];
    assert first[i + 1] == x;
    assert forall k :: 0 <= k < |fit| ==> fit[k] == first[k] && fit[k] != x;
  }

  /** A replaced list is never full. */
  lemma ReplacedFits(order: seq<nat>, old_: nat, e: nat, capacity: nat, x: nat)
    requires Distinct(order) && |order| <= capacity && old_ in order && x in order && x != old_
    ensures var first := PutFirst(order, Some(old_), e); x in first[..Min(|first|, capacity)]
  {
    WithoutDistinct(order, old_);
    WithoutElements(order, old_);
    var rest := Without(order, old_);
    var first := [e] + rest;
    assert first[..Min(|first|, capacity)] == first;
    assert x in rest;
    var i :| 0 <= i < |rest| && rest[i] == x;
    assert first[i + 1] == x;
  }

  lemma FinishEvicts(capacity: nat, s: State, a: Action, uses: seq<Option<nat>>, key: Key)
    requires capacity >= 1 && StoreInv(capacity, s.elems, s.entries, s.order) && Enabled(s, a) && a.Finish?
    requires ByLastUse(s.order, uses) && key in s.entries && key !in Next(capacity, s, a).entries
    ensures s.checks[a.check].key !in s.entries && |s.order| == capacity && Resident(Next(capacity, s, a).entries, s.checks[a.check].key) == Some(a.elem)
    ensures forall k :: k in s.entries && k != key ==> LastUse(uses, s.entries[k]) > LastUse(uses, s.entries[key])
  {
    hide Stores, AfterFinish, LastUse, ByLastUse, Without;
    FinishShape(capacity, s, a);
    var stored := s.checks[a.check].key;
    if stored in s.entries {
      ReplacedFits(s.order, s.entries[stored], a.elem, capacity, s.entries[key]);
    }
    LastLeaves(s.order, a.elem, capacity, uses, s.entries[key]);
  }
}
