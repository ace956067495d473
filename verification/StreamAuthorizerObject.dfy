/** The authorizer's shared object: the fields its mutex guards and a method
    for each critical section. Each makes exactly one step of StreamAuthorizer. */
module StreamAuthorizerObject {
  import opened Common
  import opened StreamAuthorizer

  class Authorization {
    const capacity: nat
    var clock: nat
    var elems: map<nat, Entry>
    var entries: map<Key, nat>
    var order: seq<nat>
    var latest: map<Key, nat>
    var checks: map<nat, Check>

    ghost function View(): State
      reads this
    {
      State(clock, elems, entries, order, latest, checks)
    }

    /** NewCachedAuthorizer: a capacity that is not positive means the default. */
    constructor (bound: int)
      ensures View() == Init() && capacity == (if bound <= 0 then 10000 else bound)
    {
      capacity := if bound <= 0 then 10000 else bound;
      clock, elems, entries, order, latest, checks := 0, map[], map[], [], map[], map[];
    }

    /** Takes the newest-check token and a snapshot of the resident entry. */
    method Register(c: nat, key: Key, organization: nat)
      requires Enabled(View(), Action.Register(c, key, organization))
      modifies this
      ensures View() == Next(capacity, old(View()), Action.Register(c, key, organization))
    {
      latest := latest[key := c];
      var snapshot := None;
      if key in entries {
        snapshot := Some(entries[key]);
      }
      checks := checks[c := Check(key, organization, clock, snapshot, None, None, Asking)];
      clock := clock + 1;
    }

    /** The epoch has been read: decides from the snapshot alone, if it can. */
    method Epoch(c: nat, read: Option<nat>, ended: bool)
      requires Enabled(View(), Action.Epoch(c, read, ended))
      modifies this
      ensures View() == Next(capacity, old(View()), Action.Epoch(c, read, ended))
    {
      var check := checks[c];
      if read.None? || ended {
        check := check.(phase := Cleaning(Failure, false));
      } else {
        check := check.(reading := Some(Reading(read.value, clock)));
        if read.value == 0 {
          check := check.(phase := Cleaning(NotFound, false));
        } else {
          check := check.(phase := Looking);
          if check.snapshot.Some? {
            var cached := elems[check.snapshot.value].membership;
            if cached.organization == check.organization && cached.epoch >= read.value {
              check := check.(phase := Cleaning(Allowed(cached), true));
            }
          }
        }
      }
      checks := checks[c := check];
      clock := clock + 1;
    }

    /** Looks again under the lock: another check may have stored a newer entry. */
    method Lookup(c: nat)
      requires Enabled(View(), Action.Lookup(c))
      modifies this
      ensures View() == Next(capacity, old(View()), Action.Lookup(c))
    {
      var check := checks[c];
      clock := clock + 1;
      if check.key in entries {
        var e := entries[check.key];
        var m := elems[e].membership;
        if m.organization == check.organization && m.epoch >= check.reading.value.epoch {
          order := [e] + Without(order, e);
          checks := checks[c := check.(phase := Cleaning(Allowed(m), false))];
          return;
        }
        order := Without(order, e);
        entries := entries - {check.key};
      }
      checks := checks[c := check.(phase := Fetching)];
    }

    /** The store has answered: the newest check of the key stores a
        membership that settles it, and the answer is judged by the epoch. */
    method Finish(c: nat, fetched: Answer, ended: bool, e: nat)
      requires Enabled(View(), Action.Finish(c, fetched, ended, e))
      modifies this
      ensures View() == Next(capacity, old(View()), Action.Finish(c, fetched, ended, e))
    {
      var check := checks[c].(fetched := Some(fetched));
      var epoch := check.reading.value.epoch;
      clock := clock + 1;
      if ended {
        checks := checks[c := check.(phase := Cleaning(Failure, false))];
        return;
      }
      checks := checks[c := check.(phase := Cleaning(Judged(fetched, epoch), false))];
      if check.key in latest && latest[check.key] == c {
        if fetched.Allowed? && Settles(fetched.membership, check.organization, epoch) {
          if check.key in entries {
            if elems[entries[check.key]].membership.epoch > fetched.membership.epoch {
              return;
            }
          }
          Store(e, Entry(check.key, fetched.membership));
        }
      }
    }

    method Store(e: nat, entry: Entry)
      requires forall x :: x in order ==> x in elems
      modifies this`elems, this`entries, this`order
      ensures View() == Stored(capacity, old(View()), e, entry)
    {
      PushedIn(View(), e, entry);
      Push(e, entry);
      if |order| > capacity {
        var oldest := order[|order| - 1];
        entries := entries - {elems[oldest].key};
        order := order[..|order| - 1];
      }
    }

    method Push(e: nat, entry: Entry)
      modifies this`elems, this`entries, this`order
      ensures View() == Pushed(Removed(old(View()), entry.key), e, entry)
    {
      if entry.key in entries {
        order := Without(order, entries[entry.key]);
      }
      assert (entries - {entry.key})[entry.key := e] == entries[entry.key := e];
      elems := elems[e := entry];
      entries := entries[entry.key := e];
      order := [e] + order;
    }

    /** The deferred section: a hit touches only the very entry it used, and
        the token goes unless a newer check took its place. */
    method Cleanup(c: nat)
      requires Enabled(View(), Action.Cleanup(c))
      modifies this
      ensures View() == Next(capacity, old(View()), Action.Cleanup(c))
    {
      var check := checks[c];
      if check.phase.hit && check.snapshot.Some? && check.key in entries && entries[check.key] == check.snapshot.value {
        order := [check.snapshot.value] + Without(order, check.snapshot.value);
      }
      if check.key in latest && latest[check.key] == c {
        latest := latest - {check.key};
      }
      checks := checks[c := check.(phase := Done(check.phase.answer))];
      clock := clock + 1;
    }
  }
}
