/** Stream authorization (internal/org/stream_authorizer.go): a bounded cache
    of allowed memberships, each use of which is checked against an access
    epoch read after the check began. One step per critical section or
    completed read; checks of all streams interleave freely. */
module StreamAuthorizer {
  import opened Common

  datatype Key = Key(account: nat, slug: nat)

  datatype Membership = Membership(organization: nat, member: nat, epoch: nat)

  datatype Answer = Allowed(membership: Membership) | NotFound | Failure

  /** A list element. Its identity is never used for another entry. */
  datatype Entry = Entry(key: Key, membership: Membership)

  datatype Phase =
    | Asking                        // registered, epoch read under way
    | Looking                       // fresh epoch known, the snapshot does not settle the check
    | Fetching                      // no entry settles it, the store is read
    | Cleaning(answer: Answer, hit: bool)
    | Done(answer: Answer)
  {
    function Answered(): Option<Answer> {
      if Cleaning? || Done? then Some(answer) else None
    }
  }

  /** The epoch a check read, and the step at which it got it. */
  datatype Reading = Reading(epoch: nat, at: nat)

  /** One streamMembership call. `snapshot` is the entry resident when it
      registered; `fetched` what the store answered. */
  datatype Check = Check(
    key: Key, organization: nat, start: nat, snapshot: Option<nat>,
    reading: Option<Reading>, fetched: Option<Answer>, phase: Phase)

  datatype State = State(
    clock: nat, elems: map<nat, Entry>, entries: map<Key, nat>, order: seq<nat>,
    latest: map<Key, nat>, checks: map<nat, Check>)

  datatype Action =
    | Register(check: nat, key: Key, organization: nat)
    | Epoch(check: nat, read: Option<nat>, ended: bool)     // ended: a context has been cancelled
    | Lookup(check: nat)
    | Finish(check: nat, fetched: Answer, ended: bool, elem: nat)
    | Cleanup(check: nat)
    | Tick                                                  // something else moved

  function Init(): State {
    State(0, map[], map[], [], map[], map[])
  }

  // ----- steps -----

  /** A membership settles a check when it is of that organisation and at
      least as new as the epoch read. */
  predicate Settles(m: Membership, organization: nat, epoch: nat) {
    m.organization == organization && m.epoch >= epoch
  }

  function Resident(entries: map<Key, nat>, key: Key): Option<nat> {
    if key in entries then Some(entries[key]) else None
  }

  function MoveCheck(s: State, c: nat, check: Check): State {
    s.(clock := s.clock + 1, checks := s.checks[c := check])
  }

  function ToFront(order: seq<nat>, e: nat): seq<nat> {
    [e] + Without(order, e)
  }

  function Read(check: Check, elems: map<nat, Entry>, read: Option<nat>, ended: bool, clock: nat): Check
    requires check.snapshot.Some? ==> check.snapshot.value in elems
  {
    if read.None? || ended then check.(phase := Cleaning(Failure, false))
    else
      var seen := check.(reading := Some(Reading(read.value, clock)));
      if read.value == 0 then seen.(phase := Cleaning(NotFound, false))
      else if check.snapshot.Some? && Settles(elems[check.snapshot.value].membership, check.organization, read.value) then
        seen.(phase := Cleaning(Allowed(elems[check.snapshot.value].membership), true))
      else seen.(phase := Looking)
  }

  function AfterLookup(s: State, c: nat): State
    requires c in s.checks && s.checks[c].reading.Some?
    requires s.checks[c].key in s.entries ==> s.entries[s.checks[c].key] in s.elems
  {
    var check := s.checks[c];
    var key := check.key;
    if key !in s.entries then MoveCheck(s, c, check.(phase := Fetching))
    else
      var e := s.entries[key];
      var m := s.elems[e].membership;
      if Settles(m, check.organization, check.reading.value.epoch) then
        MoveCheck(s, c, check.(phase := Cleaning(Allowed(m), false))).(order := ToFront(s.order, e))
      else
        MoveCheck(s, c, check.(phase := Fetching)).(order := Without(s.order, e), entries := s.entries - {key})
  }

  /** What the check answers, given what the store said. */
  function Judged(fetched: Answer, epoch: nat): Answer {
    if fetched.Allowed? && fetched.membership.epoch < epoch then NotFound else fetched
  }

  /** The newest check of its key stores what it fetched, unless an entry
      with a greater epoch is already there. */
  predicate Stores(s: State, c: nat, fetched: Answer)
    requires c in s.checks && s.checks[c].reading.Some?
    requires s.checks[c].key in s.entries ==> s.entries[s.checks[c].key] in s.elems
  {
    var check := s.checks[c];
    && check.key in s.latest && s.latest[check.key] == c
    && fetched.Allowed? && Settles(fetched.membership, check.organization, check.reading.value.epoch)
    && !(check.key in s.entries && s.elems[s.entries[check.key]].membership.epoch > fetched.membership.epoch)
  }

  function Removed(s: State, key: Key): State {
    if key in s.entries then s.(order := Without(s.order, s.entries[key]), entries := s.entries - {key}) else s
  }

  /** PushFront: the key's new element goes to the front. */
  function Pushed(s: State, e: nat, entry: Entry): State {
    s.(elems := s.elems[e := entry], entries := s.entries[entry.key := e], order := [e] + s.order)
  }

  /** Over capacity, the oldest element and its entry go. */
  function Evicted(s: State, capacity: nat): State
    requires forall x :: x in s.order ==> x in s.elems
  {
    if |s.order| <= capacity then s
    else
      var oldest := s.order[|s.order| - 1];
      s.(entries := s.entries - {s.elems[oldest].key}, order := s.order[..|s.order| - 1])
  }

  /** Replaces the key's entry by a new element. */
  function Stored(capacity: nat, s: State, e: nat, entry: Entry): (t: State)
    requires forall x :: x in s.order ==> x in s.elems
    ensures t.checks == s.checks && t.latest == s.latest && t.clock == s.clock && t.elems == s.elems[e := entry]
  {
    PushedIn(s, e, entry);
    Evicted(Pushed(Removed(s, entry.key), e, entry), capacity)
  }

  lemma PushedIn(s: State, e: nat, entry: Entry)
    requires forall x :: x in s.order ==> x in s.elems
    ensures var t := Pushed(Removed(s, entry.key), e, entry); forall x :: x in t.order ==> x in t.elems
  {
    var removed := Removed(s, entry.key);
    if entry.key in s.entries {
      WithoutElements(s.order, s.entries[entry.key]);
    }
    forall x | x in [e] + removed.order ensures x == e || x in removed.order {
    }
  }

  function AfterFinish(capacity: nat, s: State, c: nat, fetched: Answer, ended: bool, e: nat): State
    requires c in s.checks && s.checks[c].reading.Some?
    requires s.checks[c].key in s.entries ==> s.entries[s.checks[c].key] in s.elems
    requires forall x :: x in s.order ==> x in s.elems
  {
    var check := s.checks[c].(fetched := Some(fetched));
    var answer := if ended then Failure else Judged(fetched, check.reading.value.epoch);
    var moved := MoveCheck(s, c, check.(phase := Cleaning(answer, false)));
    if ended || !Stores(s, c, fetched) then moved
    else Stored(capacity, moved, e, Entry(check.key, fetched.membership))
  }

  function AfterCleanup(s: State, c: nat): State
    requires c in s.checks && s.checks[c].phase.Cleaning?
  {
    var check := s.checks[c];
    var touched := check.phase.hit && check.snapshot.Some? && Resident(s.entries, check.key) == check.snapshot;
    MoveCheck(s, c, check.(phase := Done(check.phase.answer)))
      .(order := if touched then ToFront(s.order, check.snapshot.value) else s.order,
        latest := if check.key in s.latest && s.latest[check.key] == c then s.latest - {check.key} else s.latest)
  }

  predicate Enabled(s: State, a: Action) {
    match a
    case Register(c, _, _) => c !in s.checks
    case Epoch(c, _, _) =>
      && c in s.checks && s.checks[c].phase.Asking?
      && (s.checks[c].snapshot.Some? ==> s.checks[c].snapshot.value in s.elems)
    case Lookup(c) =>
      && c in s.checks && s.checks[c].phase.Looking? && s.checks[c].reading.Some?
      && (s.checks[c].key in s.entries ==> s.entries[s.checks[c].key] in s.elems)
    case Finish(c, _, _, e) =>
      && c in s.checks && s.checks[c].phase.Fetching? && s.checks[c].reading.Some? && e !in s.elems
      && (s.checks[c].key in s.entries ==> s.entries[s.checks[c].key] in s.elems)
      && (forall x :: x in s.order ==> x in s.elems)
    case Cleanup(c) => c in s.checks && s.checks[c].phase.Cleaning?
    case Tick => true
  }

  function Next(capacity: nat, s: State, a: Action): State
    requires Enabled(s, a)
  {
    match a
    case Register(c, key, organization) =>
      MoveCheck(s, c, Check(key, organization, s.clock, Resident(s.entries, key), None, None, Asking))
        .(latest := s.latest[key := c])
    case Epoch(c, read, ended) => MoveCheck(s, c, Read(s.checks[c], s.elems, read, ended, s.clock))
    case Lookup(c) => AfterLookup(s, c)
    case Finish(c, fetched, ended, e) => AfterFinish(capacity, s, c, fetched, ended, e)
    case Cleanup(c) => AfterCleanup(s, c)
    case Tick => s.(clock := s.clock + 1)
  }

  // ----- what every step keeps -----

  /** Entry map and recency list are a bijection within capacity. */
  ghost predicate StoreInv(capacity: nat, elems: map<nat, Entry>, entries: map<Key, nat>, order: seq<nat>) {
    && Distinct(order) && |order| <= capacity
    && (forall k :: k in entries ==> entries[k] in order && entries[k] in elems && elems[entries[k]].key == k)
    && (forall e :: e in order ==> e in elems && elems[e].key in entries && entries[elems[e].key] == e)
  }

  /** Only checks in flight are registered, each the newest of its key. */
  ghost predicate LatestInv(latest: map<Key, nat>, checks: map<nat, Check>) {
    forall k :: k in latest ==>
      && latest[k] in checks && checks[latest[k]].key == k && !checks[latest[k]].phase.Done?
      && forall d :: d in checks && checks[d].key == k ==> checks[d].start <= checks[latest[k]].start
  }

  /** Why the answer is what it is. */
  ghost predicate AnswerOk(check: Check, answer: Answer) {
    match answer
    case Allowed(m) =>
      && check.reading.Some? && check.reading.value.epoch > 0 && m.epoch >= check.reading.value.epoch
      && if check.fetched.Some? then check.fetched == Some(Allowed(m)) else m.organization == check.organization
    case NotFound =>
      && check.reading.Some?
      && (|| check.reading.value.epoch == 0
          || check.fetched == Some(NotFound)
          || (check.fetched.Some? && check.fetched.value.Allowed?
              && check.fetched.value.membership.epoch < check.reading.value.epoch))
    case Failure => true
  }

  ghost predicate CheckOk(c: nat, check: Check, elems: map<nat, Entry>, clock: nat, actions: seq<Action>) {
    && check.start < clock <= |actions| && actions[check.start] == Register(c, check.key, check.organization)
    && (check.snapshot.Some? ==> check.snapshot.value in elems && elems[check.snapshot.value].key == check.key)
    && (check.reading.Some? ==>
          && check.start < check.reading.value.at < clock
          && actions[check.reading.value.at] == Epoch(c, Some(check.reading.value.epoch), false))
    && (check.phase.Looking? || check.phase.Fetching? ==> check.reading.Some? && check.reading.value.epoch > 0)
    && (check.phase.Answered().None? ==> check.fetched.None?)
    && (check.phase.Answered().Some? ==> AnswerOk(check, check.phase.Answered().value))
  }

  ghost predicate ChecksInv(checks: map<nat, Check>, elems: map<nat, Entry>, clock: nat, actions: seq<Action>) {
    forall c :: c in checks ==> CheckOk(c, checks[c], elems, clock, actions)
  }

  ghost predicate Inv(capacity: nat, s: State, actions: seq<Action>) {
    && StoreInv(capacity, s.elems, s.entries, s.order)
    && LatestInv(s.latest, s.checks)
    && ChecksInv(s.checks, s.elems, s.clock, actions)
  }

  lemma OtherChecks(checks: map<nat, Check>, elems: map<nat, Entry>, clock: nat, actions: seq<Action>,
                    c: nat, check: Check, more: map<nat, Entry>)
    requires ChecksInv(checks, elems, clock, actions) && clock < |actions|
    requires forall e :: e in elems ==> e in more && more[e] == elems[e]
    requires CheckOk(c, check, more, clock + 1, actions)
    ensures ChecksInv(checks[c := check], more, clock + 1, actions)
  {
    hide AnswerOk;
    forall d | d in checks && d != c ensures CheckOk(d, checks[d], more, clock + 1, actions) {
      assert CheckOk(d, checks[d], elems, clock, actions);
    }
  }

  lemma Older(checks: map<nat, Check>, elems: map<nat, Entry>, clock: nat, actions: seq<Action>)
    requires ChecksInv(checks, elems, clock, actions) && clock < |actions|
    ensures ChecksInv(checks, elems, clock + 1, actions)
  {
    hide AnswerOk;
    forall d | d in checks ensures CheckOk(d, checks[d], elems, clock + 1, actions) {
      assert CheckOk(d, checks[d], elems, clock, actions);
    }
  }

  /** A check that moves without ending keeps its registration valid. */
  lemma LatestMoved(latest: map<Key, nat>, checks: map<nat, Check>, c: nat, check: Check)
    requires LatestInv(latest, checks) && c in checks
    requires check.key == checks[c].key && check.start == checks[c].start && !check.phase.Done?
    ensures LatestInv(latest, checks[c := check])
  {
  }

  lemma LatestEnded(latest: map<Key, nat>, checks: map<nat, Check>, c: nat, check: Check)
    requires LatestInv(latest, checks) && c in checks
    requires check.key == checks[c].key && check.start == checks[c].start
    ensures LatestInv(if check.key in latest && latest[check.key] == c then latest - {check.key} else latest,
                      checks[c := check])
  {
  }

  lemma LatestRegistered(latest: map<Key, nat>, checks: map<nat, Check>, c: nat, check: Check)
    requires LatestInv(latest, checks) && c !in checks && !check.phase.Done?
    requires forall d :: d in checks ==> checks[d].start <= check.start
    ensures LatestInv(latest[check.key := c], checks[c := check])
  {
    var after := checks[c := check];
    forall k | k in latest && k != check.key
      ensures forall d :: d in after && after[d].key == k ==> after[d].start <= after[latest[k]].start
    {
    }
  }

  lemma StoreTouched(capacity: nat, elems: map<nat, Entry>, entries: map<Key, nat>, order: seq<nat>, e: nat)
    requires StoreInv(capacity, elems, entries, order) && e in order
    ensures StoreInv(capacity, elems, entries, ToFront(order, e))
  {
    FrontDistinct(order, e);
    WithoutDistinct(order, e);
    forall x ensures x in ToFront(order, e) <==> x in order {
      assert x in Elements(ToFront(order, e)) <==> x in Elements(order) + {e};
    }
  }

  lemma StoreRemoved(capacity: nat, elems: map<nat, Entry>, entries: map<Key, nat>, order: seq<nat>, key: Key)
    requires StoreInv(capacity, elems, entries, order) && key in entries
    ensures StoreInv(capacity, elems, entries - {key}, Without(order, entries[key]))
  {
    WithoutDistinct(order, entries[key]);
    WithoutElements(order, entries[key]);
  }

  lemma StorePushed(capacity: nat, s: State, e: nat, entry: Entry)
    requires StoreInv(capacity, s.elems, s.entries, s.order) && e !in s.elems && entry.key !in s.entries
    ensures var t := Pushed(s, e, entry); StoreInv(capacity + 1, t.elems, t.entries, t.order)
  {
    var pushed := [e] + s.order;
    assert forall x :: x in pushed <==> x == e || x in s.order;
  }

  lemma StoreEvicted(capacity: nat, s: State)
    requires StoreInv(capacity + 1, s.elems, s.entries, s.order)
    ensures var t := Evicted(s, capacity); StoreInv(capacity, t.elems, t.entries, t.order)
  {
    if |s.order| > capacity {
      var oldest, rest := s.order[|s.order| - 1], s.order[..|s.order| - 1];
      assert s.order == rest + [oldest];
      assert forall x :: x in s.order <==> x in rest || x == oldest;
    }
  }

  lemma StoreStored(capacity: nat, s: State, e: nat, entry: Entry)
    requires StoreInv(capacity, s.elems, s.entries, s.order) && e !in s.elems
    ensures var t := Stored(capacity, s, e, entry); StoreInv(capacity, t.elems, t.entries, t.order)
  {
    if entry.key in s.entries {
      StoreRemoved(capacity, s.elems, s.entries, s.order, entry.key);
    }
    var removed := Removed(s, entry.key);
    hide Distinct, Without;
    StorePushed(capacity, removed, e, entry);
    StoreEvicted(capacity, Pushed(removed, e, entry));
  }

  lemma ReadKept(c: nat, check: Check, elems: map<nat, Entry>, read: Option<nat>, ended: bool, clock: nat,
                 actions: seq<Action>)
    requires CheckOk(c, check, elems, clock, actions) && check.phase.Asking?
    requires clock < |actions| && actions[clock] == Epoch(c, read, ended)
    ensures CheckOk(c, Read(check, elems, read, ended, clock), elems, clock + 1, actions)
  {
  }

  lemma LookupKept(capacity: nat, s: State, c: nat, actions: seq<Action>)
    requires Inv(capacity, s, actions) && s.clock < |actions| && Enabled(s, Lookup(c))
    ensures Inv(capacity, AfterLookup(s, c), actions)
  {
    var check, t := s.checks[c], AfterLookup(s, c);
    assert CheckOk(c, check, s.elems, s.clock, actions);
    hide LatestInv, ChecksInv, StoreInv;
    OtherChecks(s.checks, s.elems, s.clock, actions, c, t.checks[c], s.elems);
    LatestMoved(s.latest, s.checks, c, t.checks[c]);
    if check.key in s.entries {
      EntryIn(capacity, s, check.key);
      StoreTouched(capacity, s.elems, s.entries, s.order, s.entries[check.key]);
      StoreRemoved(capacity, s.elems, s.entries, s.order, check.key);
    }
  }

  lemma EntryIn(capacity: nat, s: State, key: Key)
    requires StoreInv(capacity, s.elems, s.entries, s.order) && key in s.entries
    ensures s.entries[key] in s.order
  {
  }

  lemma FinishStore(capacity: nat, s: State, c: nat, fetched: Answer, ended: bool, e: nat)
    requires StoreInv(capacity, s.elems, s.entries, s.order)
    requires Enabled(s, Finish(c, fetched, ended, e))
    ensures var t := AfterFinish(capacity, s, c, fetched, ended, e); StoreInv(capacity, t.elems, t.entries, t.order)
  {
    hide StoreInv, Stored, Judged;
    var check := s.checks[c].(fetched := Some(fetched));
    if !ended && Stores(s, c, fetched) {
      var answer := Judged(fetched, check.reading.value.epoch);
      StoreStored(capacity, MoveCheck(s, c, check.(phase := Cleaning(answer, false))), e,
                  Entry(check.key, fetched.membership));
    }
  }

  /** Finish changes its own check, and adds at most the new element. */
  lemma FinishFrame(capacity: nat, s: State, c: nat, fetched: Answer, ended: bool, e: nat)
    requires Enabled(s, Finish(c, fetched, ended, e))
    ensures var t := AfterFinish(capacity, s, c, fetched, ended, e);
            && t.checks == s.checks[c := t.checks[c]] && t.latest == s.latest && t.clock == s.clock + 1
            && t.checks[c] == s.checks[c].(fetched := Some(fetched),
                 phase := Cleaning(if ended then Failure else Judged(fetched, s.checks[c].reading.value.epoch), false))
            && t.elems == if ended || !Stores(s, c, fetched) then s.elems
                          else s.elems[e := Entry(s.checks[c].key, fetched.membership)]
  {
    hide Stored, Judged;
  }

  lemma FinishedOk(c: nat, check: Check, fetched: Answer, ended: bool, elems: map<nat, Entry>, more: map<nat, Entry>,
                   clock: nat, actions: seq<Action>)
    requires CheckOk(c, check, elems, clock, actions) && check.phase.Fetching? && clock < |actions|
    requires forall x :: x in elems ==> x in more && more[x] == elems[x]
    ensures var answer := if ended then Failure else Judged(fetched, check.reading.value.epoch);
            CheckOk(c, check.(fetched := Some(fetched), phase := Cleaning(answer, false)), more, clock + 1, actions)
  {
  }

  lemma FinishCheck(capacity: nat, s: State, c: nat, fetched: Answer, ended: bool, e: nat, actions: seq<Action>)
    requires ChecksInv(s.checks, s.elems, s.clock, actions) && s.clock < |actions|
    requires Enabled(s, Finish(c, fetched, ended, e))
    ensures var t := AfterFinish(capacity, s, c, fetched, ended, e);
            && t.checks == s.checks[c := t.checks[c]] && t.latest == s.latest && t.clock == s.clock + 1
            && (forall x :: x in s.elems ==> x in t.elems && t.elems[x] == s.elems[x])
            && CheckOk(c, t.checks[c], t.elems, s.clock + 1, actions)
            && t.checks[c].key == s.checks[c].key && t.checks[c].start == s.checks[c].start && !t.checks[c].phase.Done?
  {
    var t := AfterFinish(capacity, s, c, fetched, ended, e);
    FinishFrame(capacity, s, c, fetched, ended, e);
    hide CheckOk, AfterFinish, Stores, Judged;
    assert CheckOk(c, s.checks[c], s.elems, s.clock, actions);
    FinishedOk(c, s.checks[c], fetched, ended, s.elems, t.elems, s.clock, actions);
  }

  lemma FinishKept(capacity: nat, s: State, c: nat, fetched: Answer, ended: bool, e: nat, actions: seq<Action>)
    requires Inv(capacity, s, actions) && s.clock < |actions| && Enabled(s, Finish(c, fetched, ended, e))
    ensures Inv(capacity, AfterFinish(capacity, s, c, fetched, ended, e), actions)
  {
    var t := AfterFinish(capacity, s, c, fetched, ended, e);
    hide LatestInv, ChecksInv, StoreInv, CheckOk, AfterFinish;
    FinishCheck(capacity, s, c, fetched, ended, e, actions);
    FinishStore(capacity, s, c, fetched, ended, e);
    OtherChecks(s.checks, s.elems, s.clock, actions, c, t.checks[c], t.elems);
    LatestMoved(s.latest, s.checks, c, t.checks[c]);
  }

  lemma CleanupKept(capacity: nat, s: State, c: nat, actions: seq<Action>)
    requires Inv(capacity, s, actions) && s.clock < |actions| && Enabled(s, Cleanup(c))
    ensures Inv(capacity, AfterCleanup(s, c), actions)
  {
    var check, t := s.checks[c], AfterCleanup(s, c);
    assert CheckOk(c, check, s.elems, s.clock, actions);
    hide LatestInv, ChecksInv, StoreInv, AnswerOk;
    OtherChecks(s.checks, s.elems, s.clock, actions, c, t.checks[c], s.elems);
    LatestEnded(s.latest, s.checks, c, t.checks[c]);
    if check.key in s.entries {
      EntryIn(capacity, s, check.key);
      StoreTouched(capacity, s.elems, s.entries, s.order, s.entries[check.key]);
    }
  }

  lemma RegisterKept(capacity: nat, s: State, c: nat, key: Key, organization: nat, actions: seq<Action>)
    requires Inv(capacity, s, actions) && c !in s.checks
    requires s.clock < |actions| && actions[s.clock] == Register(c, key, organization)
    ensures Inv(capacity, Next(capacity, s, Register(c, key, organization)), actions)
  {
    var check := Check(key, organization, s.clock, Resident(s.entries, key), None, None, Asking);
    forall d | d in s.checks ensures s.checks[d].start <= s.clock {
      assert CheckOk(d, s.checks[d], s.elems, s.clock, actions);
    }
    assert CheckOk(c, check, s.elems, s.clock + 1, actions);
    hide LatestInv, ChecksInv, StoreInv, CheckOk;
    LatestRegistered(s.latest, s.checks, c, check);
    OtherChecks(s.checks, s.elems, s.clock, actions, c, check, s.elems);
  }

  lemma InvKept(capacity: nat, s: State, a: Action, actions: seq<Action>)
    requires capacity >= 1 && Inv(capacity, s, actions) && Enabled(s, a)
    requires s.clock < |actions| && actions[s.clock] == a
    ensures Inv(capacity, Next(capacity, s, a), actions)
  {
    match a
    case Register(c, key, organization) => RegisterKept(capacity, s, c, key, organization, actions);
    case Epoch(c, read, ended) =>
      assert CheckOk(c, s.checks[c], s.elems, s.clock, actions);
      hide LatestInv, ChecksInv, StoreInv, CheckOk;
      ReadKept(c, s.checks[c], s.elems, read, ended, s.clock, actions);
      OtherChecks(s.checks, s.elems, s.clock, actions, c, Read(s.checks[c], s.elems, read, ended, s.clock), s.elems);
      LatestMoved(s.latest, s.checks, c, Read(s.checks[c], s.elems, read, ended, s.clock));
    case Lookup(c) => LookupKept(capacity, s, c, actions);
    case Finish(c, fetched, ended, e) => FinishKept(capacity, s, c, fetched, ended, e, actions);
    case Cleanup(c) => CleanupKept(capacity, s, c, actions);
    case Tick =>
      hide LatestInv, ChecksInv, StoreInv;
      Older(s.checks, s.elems, s.clock, actions);
  }
}
