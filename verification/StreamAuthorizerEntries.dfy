module StreamAuthorizerEntries {
  /** Over whole runs of the stream authorizer: when a check needs no store read,
      which check's result is kept, and which entry leaves for another. */

  import opened Common
  import opened Recency
  import opened StreamAuthorizer
  import opened StreamAuthorizerRuns
  import opened StreamAuthorizerBooks

  /** A check that read an epoch is settled by what was held when it registered
      if that is of its organisation and new enough, whatever has become of the
      entry since; and else it looks further. */
  lemma EpochsExactly(capacity: nat, trace: seq<State>, actions: seq<Action>, n: nat, c: nat, epoch: nat)
    requires IsRun(capacity, trace, actions) && n < |actions| && actions[n] == Epoch(c, Some(epoch), false) && epoch > 0
    ensures c in trace[n].checks && c in trace[n + 1].checks && trace[n].checks[c].start <= n
    ensures var check, after := trace[n].checks[c], trace[n + 1].checks[c];
            var held := Held(trace[check.start].elems, trace[check.start].entries, check.key);
            && actions[check.start] == Register(c, check.key, check.organization)
            && after.phase == if SettledBy(held, check.organization, epoch) then Cleaning(Allowed(held.value), true) else Looking
  {
    RunMore(capacity, trace, actions, n);
    RunInv(capacity, trace, actions, n);
    assert StepAt(capacity, trace, actions, n);
    var check := trace[n].checks[c];
    assert SnapshotOk(check, trace[n].elems, trace) && CheckOk(c, check, trace[n].elems, n, actions);
    hide IsRun, Inv;
  }

  /** A check that looks further is settled by what is held now, or else drops
      it and asks the store: no check does that whose answer is at hand. */
  lemma LooksExactly(capacity: nat, trace: seq<State>, actions: seq<Action>, n: nat, c: nat)
    requires IsRun(capacity, trace, actions) && n < |actions| && actions[n] == Lookup(c)
    ensures c in trace[n].checks && c in trace[n + 1].checks && trace[n].checks[c].reading.Some?
    ensures var s, u, check := trace[n], trace[n + 1], trace[n].checks[c];
            var held := Held(s.elems, s.entries, check.key);
            if SettledBy(held, check.organization, check.reading.value.epoch) then
              u.checks[c].phase == Cleaning(Allowed(held.value), false) && u.entries == s.entries
            else
              u.checks[c].phase == Fetching && u.entries == s.entries - {check.key}
  {
    RunInv(capacity, trace, actions, n);
    assert StepAt(capacity, trace, actions, n);
    hide IsRun, Inv, ToFront, Without;
  }

  /** A check keeps what the store gave it exactly if no other has registered for
      its key since it did, the membership settles it, nothing newer is held, and
      no context has ended; then it is what is held for the key. */
  lemma KeepsExactly(capacity: nat, trace: seq<State>, actions: seq<Action>, n: nat, c: nat, fetched: Answer, ended: bool, e: nat)
    requires IsRun(capacity, trace, actions) && n < |actions| && actions[n] == Finish(c, fetched, ended, e)
    ensures c in trace[n].checks && trace[n].checks[c].reading.Some? && e !in trace[n].elems
    ensures var s, u, check := trace[n], trace[n + 1], trace[n].checks[c];
            var held := Held(s.elems, s.entries, check.key);
            if && !ended && fetched.Allowed? && SettledBy(Some(fetched.membership), check.organization, check.reading.value.epoch)
               && NoneSince(actions, check.start, n, check.key) && !(held.Some? && held.value.epoch > fetched.membership.epoch)
            then Held(u.elems, u.entries, check.key) == Some(fetched.membership) && Resident(u.entries, check.key) == Some(e)
            else u.entries == s.entries && u.order == s.order && u.elems == s.elems
  {
    hide Inv, NewestInv, SnapshotInv, NoneSince, Newest, AfterFinish, StoreInv, PutFirst;
    assert StepAt(capacity, trace, actions, n);
    RunMore(capacity, trace, actions, n);
    RunInv(capacity, trace, actions, n);
    NewestIs(capacity, trace[n], actions, c);
    NewestSince(capacity, trace, actions, n, c);
    InvStore(capacity, trace[n], actions);
    FinishShape(capacity, trace[n], actions[n]);
  }

  /** A held membership goes only when a check finds that it does not settle it,
      or when another key's is stored while the list is full; and then it is the
      one used least recently. */
  lemma EvictsTheOldest(capacity: nat, trace: seq<State>, actions: seq<Action>, n: nat, key: Key)
    requires IsRun(capacity, trace, actions) && n < |actions| && key in trace[n].entries && key !in trace[n + 1].entries
    ensures || (actions[n].Lookup? && actions[n].check in trace[n].checks && trace[n].checks[actions[n].check].key == key)
            || (&& actions[n].Finish? && actions[n].check in trace[n].checks && trace[n].checks[actions[n].check].key !in trace[n].entries
                && |trace[n].order| == capacity
                && forall k :: k in trace[n].entries && k != key ==>
                     LastUse(Uses(trace, actions, n), trace[n].entries[k]) > LastUse(Uses(trace, actions, n), trace[n].entries[key]))
  {
    hide Inv, Next, ByLastUse, LastUse, Uses;
    OrderedByUse(capacity, trace, actions, n);
    RunInv(capacity, trace, actions, n);
    InvStore(capacity, trace[n], actions);
    hide StoreInv, PutFirst, ToFront;
    assert StepAt(capacity, trace, actions, n);
    var s, a := trace[n], actions[n];
    match a
    case Lookup(_) => LookupOrder(capacity, s, a);
    case Finish(_, _, _, _) => FinishEvicts(capacity, s, a, Uses(trace, actions, n), key);
    case Cleanup(_) => CleanupOrder(capacity, s, a);
    case Register(_, _, _) => StillOrder(capacity, s, a);
    case Epoch(_, _, _) => StillOrder(capacity, s, a);
    case Tick => StillOrder(capacity, s, a);
  }
}
