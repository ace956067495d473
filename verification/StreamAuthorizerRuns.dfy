module StreamAuthorizerRuns {
  /** Over whole runs: answers follow their read, and the books agree. */

  import opened Common
  import opened StreamAuthorizer

  ghost predicate StepAt(capacity: nat, trace: seq<State>, actions: seq<Action>, i: nat)
    requires i < |actions| < |trace|
  {
    Enabled(trace[i], actions[i]) && trace[i + 1] == Next(capacity, trace[i], actions[i])
  }

  ghost predicate IsRun(capacity: nat, trace: seq<State>, actions: seq<Action>) {
    && capacity >= 1 && |trace| == |actions| + 1 && trace[0] == Init()
    && forall i :: 0 <= i < |actions| ==> StepAt(capacity, trace, actions, i)
  }

  /** A check keeps its key, organisation and start. */
  lemma ChecksLast(capacity: nat, s: State, a: Action)
    requires Enabled(s, a)
    ensures forall c :: c in s.checks ==>
              c in Next(capacity, s, a).checks
              && Next(capacity, s, a).checks[c].key == s.checks[c].key
              && Next(capacity, s, a).checks[c].organization == s.checks[c].organization
              && Next(capacity, s, a).checks[c].start == s.checks[c].start
  {
    hide Stores, Stored, Judged, Without;
  }

  lemma StepClock(capacity: nat, s: State, a: Action)
    requires Enabled(s, a)
    ensures Next(capacity, s, a).clock == s.clock + 1
  {
  }

  lemma RunInv(capacity: nat, trace: seq<State>, actions: seq<Action>, n: nat)
    requires IsRun(capacity, trace, actions) && n < |trace|
    ensures Inv(capacity, trace[n], actions) && trace[n].clock == n
  {
    hide Inv, Next, Enabled, Init;
    assert Inv(capacity, Init(), actions) && Init().clock == 0 by { InitInv(capacity, actions); }
    var i := 0;
    while i < n
      invariant i <= n && Inv(capacity, trace[i], actions) && trace[i].clock == i
    {
      assert StepAt(capacity, trace, actions, i);
      InvKept(capacity, trace[i], actions[i], actions);
      StepClock(capacity, trace[i], actions[i]);
      i := i + 1;
    }
  }

  lemma InitInv(capacity: nat, actions: seq<Action>)
    ensures Inv(capacity, Init(), actions) && Init().clock == 0
  {
  }

  /** Whatever path a check took, a membership it answers with is at least as
      new as the epoch that same check read after it had registered. */
  lemma AnswersFollowTheirRead(capacity: nat, trace: seq<State>, actions: seq<Action>, n: nat, c: nat)
    requires IsRun(capacity, trace, actions) && n < |trace|
    requires c in trace[n].checks && trace[n].checks[c].phase.Done? && !trace[n].checks[c].phase.answer.Failure?
    ensures var check := trace[n].checks[c];
            && check.reading.Some? && AnswerOk(check, check.phase.answer)
            && check.start < check.reading.value.at < n
            && actions[check.start] == Register(c, check.key, check.organization)
            && actions[check.reading.value.at] == Epoch(c, Some(check.reading.value.epoch), false)
  {
    RunInv(capacity, trace, actions, n);
    hide IsRun, StoreInv, LatestInv;
    assert CheckOk(c, trace[n].checks[c], trace[n].elems, n, actions);
  }

  // ----- memberships come from the store -----

  /** Before step n the store answered a check of this key with m. */
  ghost predicate FetchedFor(key: Key, m: Membership, n: nat, trace: seq<State>, actions: seq<Action>) {
    exists i :: 0 <= i < n && i < |trace| && i < |actions| && Fetches(trace[i], actions[i], key, m)
  }

  predicate Fetches(s: State, a: Action, key: Key, m: Membership) {
    a.Finish? && a.fetched == Allowed(m) && a.check in s.checks && s.checks[a.check].key == key
  }

  ghost predicate ElemsFetched(elems: map<nat, Entry>, n: nat, trace: seq<State>, actions: seq<Action>) {
    forall e :: e in elems ==> FetchedFor(elems[e].key, elems[e].membership, n, trace, actions)
  }

  ghost predicate CheckFetched(check: Check, n: nat, trace: seq<State>, actions: seq<Action>) {
    var answer := check.phase.Answered();
    answer.Some? && answer.value.Allowed? ==> FetchedFor(check.key, answer.value.membership, n, trace, actions)
  }

  ghost predicate ChecksFetched(checks: map<nat, Check>, n: nat, trace: seq<State>, actions: seq<Action>) {
    forall c :: c in checks ==> CheckFetched(checks[c], n, trace, actions)
  }

  lemma ChecksFetchedLater(checks: map<nat, Check>, n: nat, trace: seq<State>, actions: seq<Action>)
    requires ChecksFetched(checks, n, trace, actions)
    ensures ChecksFetched(checks, n + 1, trace, actions)
  {
    hide Fetches;
    forall c | c in checks ensures CheckFetched(checks[c], n + 1, trace, actions) {
      assert CheckFetched(checks[c], n, trace, actions);
    }
  }

  lemma ElemsFetchedLater(elems: map<nat, Entry>, n: nat, trace: seq<State>, actions: seq<Action>)
    requires ElemsFetched(elems, n, trace, actions)
    ensures ElemsFetched(elems, n + 1, trace, actions)
  {
    hide Fetches;
  }

  lemma FetchedNow(trace: seq<State>, actions: seq<Action>, n: nat, key: Key, m: Membership)
    requires n < |actions| < |trace| && Fetches(trace[n], actions[n], key, m)
    ensures FetchedFor(key, m, n + 1, trace, actions)
  {
  }

  lemma ReadFetched(check: Check, elems: map<nat, Entry>, read: Option<nat>, ended: bool, clock: nat,
                    n: nat, trace: seq<State>, actions: seq<Action>)
    requires check.snapshot.Some? ==> check.snapshot.value in elems && elems[check.snapshot.value].key == check.key
    requires ElemsFetched(elems, n, trace, actions)
    ensures CheckFetched(Read(check, elems, read, ended, clock), n, trace, actions)
  {
    hide FetchedFor;
  }

  lemma LookupFetched(s: State, c: nat, n: nat, trace: seq<State>, actions: seq<Action>)
    requires c in s.checks && s.checks[c].reading.Some?
    requires s.checks[c].key in s.entries ==>
               s.entries[s.checks[c].key] in s.elems && s.elems[s.entries[s.checks[c].key]].key == s.checks[c].key
    requires ElemsFetched(s.elems, n, trace, actions) && ChecksFetched(s.checks, n, trace, actions)
    ensures ChecksFetched(AfterLookup(s, c).checks, n, trace, actions)
  {
    hide FetchedFor, Without, ToFront;
  }

  lemma FinishFetched(capacity: nat, s: State, c: nat, fetched: Answer, ended: bool, e: nat,
                      n: nat, trace: seq<State>, actions: seq<Action>)
    requires c in s.checks && s.checks[c].reading.Some?
    requires s.checks[c].key in s.entries ==> s.entries[s.checks[c].key] in s.elems
    requires forall x :: x in s.order ==> x in s.elems
    requires ChecksFetched(s.checks, n, trace, actions)
    requires fetched.Allowed? ==> FetchedFor(s.checks[c].key, fetched.membership, n, trace, actions)
    ensures ChecksFetched(AfterFinish(capacity, s, c, fetched, ended, e).checks, n, trace, actions)
  {
    hide FetchedFor, Stores, Stored;
  }

  lemma CleanupFetched(s: State, c: nat, n: nat, trace: seq<State>, actions: seq<Action>)
    requires c in s.checks && s.checks[c].phase.Cleaning? && ChecksFetched(s.checks, n, trace, actions)
    ensures ChecksFetched(AfterCleanup(s, c).checks, n, trace, actions)
  {
    hide FetchedFor, ToFront, Resident;
    assert CheckFetched(s.checks[c], n, trace, actions);
  }

  lemma OwnSnapshot(capacity: nat, s: State, actions: seq<Action>, c: nat)
    requires Inv(capacity, s, actions) && c in s.checks
    ensures var snapshot := s.checks[c].snapshot;
            snapshot.Some? ==> snapshot.value in s.elems && s.elems[snapshot.value].key == s.checks[c].key
    ensures var key := s.checks[c].key;
            key in s.entries ==> s.entries[key] in s.elems && s.elems[s.entries[key]].key == key
  {
    hide LatestInv, AnswerOk, Distinct;
    assert CheckOk(c, s.checks[c], s.elems, s.clock, actions);
  }

  lemma StepFetched(capacity: nat, trace: seq<State>, actions: seq<Action>, n: nat)
    requires n < |actions| < |trace| && Enabled(trace[n], actions[n]) && Inv(capacity, trace[n], actions)
    requires ElemsFetched(trace[n].elems, n, trace, actions) && ChecksFetched(trace[n].checks, n, trace, actions)
    ensures ElemsFetched(Next(capacity, trace[n], actions[n]).elems, n + 1, trace, actions)
    ensures ChecksFetched(Next(capacity, trace[n], actions[n]).checks, n + 1, trace, actions)
  {
    hide Inv, ElemsFetched, FetchedFor, CheckFetched, Read, AfterLookup, AfterFinish, AfterCleanup;
    var s := trace[n];
    ElemsFetchedLater(s.elems, n, trace, actions);
    ChecksFetchedLater(s.checks, n, trace, actions);
    ElemsStepFetched(capacity, trace, actions, n);
    match actions[n]
    case Register(c, key, organization) => NewFetched(s, c, key, organization, n + 1, trace, actions);
    case Epoch(c, read, ended) =>
      OwnSnapshot(capacity, s, actions, c);
      ReadFetched(s.checks[c], s.elems, read, ended, s.clock, n + 1, trace, actions);
    case Lookup(c) =>
      OwnSnapshot(capacity, s, actions, c);
      LookupFetched(s, c, n + 1, trace, actions);
    case Finish(c, fetched, ended, e) =>
      if fetched.Allowed? {
        FetchedNow(trace, actions, n, s.checks[c].key, fetched.membership);
      }
      FinishFetched(capacity, s, c, fetched, ended, e, n + 1, trace, actions);
    case Cleanup(c) => CleanupFetched(s, c, n + 1, trace, actions);
    case Tick =>
  }

  lemma NewFetched(s: State, c: nat, key: Key, organization: nat, n: nat, trace: seq<State>, actions: seq<Action>)
    requires ChecksFetched(s.checks, n, trace, actions)
    ensures ChecksFetched(s.checks[c := Check(key, organization, s.clock, Resident(s.entries, key), None, None, Asking)], n, trace, actions)
  {
    hide FetchedFor, Resident;
  }

  lemma ElemsStepFetched(capacity: nat, trace: seq<State>, actions: seq<Action>, n: nat)
    requires n < |actions| < |trace| && Enabled(trace[n], actions[n])
    requires ElemsFetched(trace[n].elems, n + 1, trace, actions)
    ensures ElemsFetched(Next(capacity, trace[n], actions[n]).elems, n + 1, trace, actions)
  {
    hide FetchedFor, Without, ToFront;
    var s, a := trace[n], actions[n];
    if a.Finish? && a.fetched.Allowed? {
      FetchedNow(trace, actions, n, s.checks[a.check].key, a.fetched.membership);
    }
  }

  /** A membership a check answers with was given by the store, earlier in the
      run, to a check of that very account and slug: a shared entry never
      serves another key. */
  lemma AnswersAreFetched(capacity: nat, trace: seq<State>, actions: seq<Action>, n: nat, c: nat)
    requires IsRun(capacity, trace, actions) && n < |trace|
    requires c in trace[n].checks && trace[n].checks[c].phase.Done? && trace[n].checks[c].phase.answer.Allowed?
    ensures FetchedFor(trace[n].checks[c].key, trace[n].checks[c].phase.answer.membership, n, trace, actions)
  {
    var i := 0;
    hide Next, Enabled, Inv, FetchedFor;
    while i < n
      invariant i <= n && ElemsFetched(trace[i].elems, i, trace, actions) && ChecksFetched(trace[i].checks, i, trace, actions)
    {
      RunInv(capacity, trace, actions, i);
      assert StepAt(capacity, trace, actions, i);
      StepFetched(capacity, trace, actions, i);
      i := i + 1;
    }
    assert CheckFetched(trace[n].checks[c], n, trace, actions);
  }

  /** Entries and recency list stay in bijection within capacity, and only
      checks still in flight are registered. */
  lemma BooksAgree(capacity: nat, trace: seq<State>, actions: seq<Action>, n: nat)
    requires IsRun(capacity, trace, actions) && n < |trace|
    ensures var s := trace[n];
            && Distinct(s.order) && |s.entries| == |s.order| <= capacity
            && (forall k :: k in s.entries ==> s.entries[k] in s.order && s.entries[k] in s.elems && s.elems[s.entries[k]].key == k)
            && (forall k :: k in s.latest ==> s.latest[k] in s.checks && !s.checks[s.latest[k]].phase.Done?)
  {
    RunInv(capacity, trace, actions, n);
    hide IsRun, ChecksInv;
    var s := trace[n];
    EntriesSize(capacity, s.elems, s.entries, s.order);
  }

  lemma EntriesSize(capacity: nat, elems: map<nat, Entry>, entries: map<Key, nat>, order: seq<nat>)
    requires StoreInv(capacity, elems, entries, order)
    ensures |entries| == |order|
    decreases |order|
  {
    if order == [] {
      assert forall k :: k !in entries;
      assert entries.Keys == {};
    } else {
      var key := elems[order[0]].key;
      assert order == [order[0]] + order[1..];
      WithoutAbsent(order[1..], order[0]);
      StoreRemoved(capacity, elems, entries, order, key);
      assert Without(order, order[0]) == order[1..];
      EntriesSize(capacity, elems, entries - {key}, order[1..]);
      assert entries.Keys == (entries - {key}).Keys + {key};
    }
  }

  /** An older check cannot replace what a newer one of its key decided: a
      step that adds an entry belongs to the check that registered last. */
  lemma OnlyTheNewestStores(capacity: nat, trace: seq<State>, actions: seq<Action>, n: nat, e: nat)
    requires IsRun(capacity, trace, actions) && n < |actions|
    requires e in trace[n + 1].elems && e !in trace[n].elems
    ensures actions[n].Finish? && actions[n].check in trace[n].checks
    ensures var check := trace[n].checks[actions[n].check];
            && trace[n + 1].elems[e].key == check.key
            && (forall d :: d in trace[n].checks && trace[n].checks[d].key == check.key ==>
                              trace[n].checks[d].start <= check.start)
            && (check.key in trace[n].entries ==>
                  trace[n].entries[check.key] in trace[n].elems &&
                  trace[n].elems[trace[n].entries[check.key]].membership.epoch <= trace[n + 1].elems[e].membership.epoch)
  {
    RunInv(capacity, trace, actions, n);
    hide IsRun, StoreInv, ChecksInv;
    assert StepAt(capacity, trace, actions, n);
  }

  /** Nothing but a check's own progress decides whether its next step can
      happen: the other guards always hold. */
  lemma OnlyPhasesGuard(capacity: nat, s: State, actions: seq<Action>, c: nat)
    requires Inv(capacity, s, actions) && c in s.checks
    ensures s.checks[c].phase.Asking? ==> forall read, ended :: Enabled(s, Epoch(c, read, ended))
    ensures s.checks[c].phase.Looking? ==> Enabled(s, Lookup(c))
    ensures s.checks[c].phase.Fetching? ==>
              forall fetched, ended, e :: e !in s.elems ==> Enabled(s, Finish(c, fetched, ended, e))
    ensures s.checks[c].phase.Cleaning? ==> Enabled(s, Cleanup(c))
  {
    hide AnswerOk, LatestInv;
    assert CheckOk(c, s.checks[c], s.elems, s.clock, actions);
  }
}
