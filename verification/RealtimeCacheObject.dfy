/** The cache as the object its callers share: the fields its mutex guards,
    and one method for each critical section or channel operation. Each
    method makes exactly the step of RealtimeCache that its contract names,
    so what every run of steps keeps holds of every interleaving of calls. */
module RealtimeCacheObject {
  import opened Common
  import opened RealtimeCache

  class Cache<K(==), V(==)> {
    const cfg: Config<K, V>
    var clock: nat
    var parentDone: bool
    var entries: map<K, Loaded<V>>
    var order: seq<K>
    var loading: map<K, nat>
    var calls: map<nat, Call<K, V>>
    var gets: map<nat, Getter<K, V>>
    var runs: map<nat, Run<K, V>>
    var slots: map<nat, nat>

    ghost function View(): State<K, V>
      reads this
    {
      State(clock, parentDone, entries, order, loading, calls, gets, runs, slots)
    }

    /** NewCache: a bound below one means one. */
    constructor (capacity: int, maxLoads: int, completedLeaves: bool, keep: (K, V) -> bool)
      ensures View() == Init() && cfg.Valid()
      ensures cfg == Config(Max(capacity, 1), Max(maxLoads, 1), completedLeaves, keep)
    {
      cfg := Config(Max(capacity, 1), Max(maxLoads, 1), completedLeaves, keep);
      clock, parentDone, entries, order, loading := 0, false, map[], [], map[];
      calls, gets, runs, slots := map[], map[], map[], map[];
    }

    /** Get's critical section: a live entry answers at once; otherwise the
        caller joins the key's load or starts one as call c. */
    method Enter(g: nat, live: bool, c: nat)
      requires g in gets && gets[g].phase.Begun? && c !in calls
      requires gets[g].key in loading ==> loading[gets[g].key] in calls
      modifies this
      ensures View() == AfterEnter(old(View()), g, live, c)
    {
      clock := clock + 1;
      var get := gets[g];
      var key := get.key;
      if key in entries {
        if live {
          order := [key] + Without(order, key);
          gets := gets[g := get.(phase := Returned(Value(entries[key])))];
          return;
        }
        order := Without(order, key);
        entries := entries - {key};
      }
      if key in loading {
        var j := loading[key];
        calls := calls[j := calls[j].(joiners := calls[j].joiners + 1, waiters := calls[j].waiters + 1)];
        gets := gets[g := get.(phase := Waiting(j, true))];
      } else {
        loading := loading[key := c];
        calls := calls[c := NewCall(key)];
        gets := gets[g := get.(phase := Waiting(c, false))];
      }
    }

    method Wake(g: nat)
      requires g in gets && gets[g].phase.Waiting? && gets[g].phase.call in calls
      modifies this
      ensures View() == MoveGet(old(View()), g, Woken(old(gets)[g], old(calls)[old(gets)[g].phase.call]))
    {
      var phase := gets[g].phase;
      var result := if phase.joined then calls[phase.call].joinedResult else calls[phase.call].result;
      gets := gets[g := gets[g].(phase := Leaving(phase.call, phase.joined, result))];
      clock := clock + 1;
    }

    /** leave: the last caller cancels the load and takes it out of the map.
        sawDone says that the joiners' channel was seen closed beforehand. */
    method Leave(g: nat, sawDone: bool)
      requires g in gets && gets[g].phase.Leaving? && gets[g].phase.call in calls
      modifies this
      ensures View() == AfterLeave(old(View()), g, sawDone)
    {
      clock := clock + 1;
      var phase := gets[g].phase;
      var c := phase.call;
      gets := gets[g := gets[g].(phase := Returned(phase.result))];
      if sawDone {
        return;
      }
      var call := Left(calls[c], phase.joined);
      hide Left;
      calls := calls[c := call];
      if call.waiters == 0 && call.key in loading && loading[call.key] == c {
        loading := loading - {call.key};
      }
    }

    method Acquire(c: nat, r: nat)
      requires c in calls && calls[c].stage.Queued?
      modifies this
      ensures View() == MoveCall(old(View()).(slots := old(slots)[r := c]), c,
                                 old(calls)[c].(stage := Holding(old(calls)[c].stage.second, r)))
    {
      slots := slots[r := c];
      calls := calls[c := calls[c].(stage := Holding(calls[c].stage.second, r))];
      clock := clock + 1;
    }

    /** With a slot in hand, checks once more for cancellation and starts the loader. */
    method Launch(c: nat, expired: bool)
      requires c in calls && calls[c].stage.Holding?
      modifies this
      ensures View() == AfterLaunch(old(View()), c, expired)
    {
      var call := calls[c];
      var r := call.stage.run;
      if parentDone || call.cancelled || expired {
        calls := calls[c := Record(call, Failed, Settling(call.stage.second))];
        slots := slots - {r};
      } else {
        runs := runs[r := Run(call.key, clock, None)];
        calls := calls[c := call.(stage := Loading(call.stage.second, r))];
      }
      clock := clock + 1;
    }

    /** load's critical section: retention, eviction and the second load are
        decided together. */
    method Decide(c: nat)
      requires cfg.Valid() && c in calls && StoreInv(cfg, entries, order, loading)
      modifies this
      ensures View() == AfterDecide(cfg, old(View()), c)
    {
      hide StoreInv;
      var call := calls[c];
      var kept, rejected := false, parentDone || call.cancelled;
      if call.key in loading && loading[call.key] == c {
        Ours(c);
        loading := loading - {call.key};
        kept := call.result.Value? && cfg.keep(call.key, call.result.loaded.value) && !rejected;
      }
      if kept {
        Store(call.key, call.result.loaded);
      }
      calls := calls[c := Decided(call, kept, rejected)];
      clock := clock + 1;
    }

    lemma Ours(c: nat)
      requires c in calls && calls[c].key in loading && StoreInv(cfg, entries, order, loading)
      ensures calls[c].key !in entries && StoreInv(cfg, entries, order, loading - {calls[c].key})
    {
    }

    /** Pushes the entry to the front and drops the least recent beyond capacity. */
    method Store(key: K, l: Loaded<V>)
      requires cfg.Valid() && key !in entries && StoreInv(cfg, entries, order, loading)
      modifies this`entries, this`order
      ensures View() == Stored(cfg, old(View()), key, l)
    {
      Pushed(key);
      entries := entries[key := l];
      order := [key] + order;
      Evict();
    }

    lemma Pushed(key: K)
      requires key !in entries && StoreInv(cfg, entries, order, loading)
      ensures var pushed := [key] + order;
              Distinct(pushed) && (forall k :: k in entries ==> k in pushed) && key in pushed
    {
      var pushed := [key] + order;
      assert pushed[0] == key && pushed[1..] == order;
    }

    method Evict()
      requires cfg.Valid() && Distinct(order) && forall k :: k in entries ==> k in order
      modifies this`entries, this`order
      ensures order == Fitting(old(order), cfg.capacity)
      ensures entries == map k | k in old(entries) && k in order :: old(entries)[k]
    {
      ghost var pushed, all := order, entries;
      while |order| > cfg.capacity
        invariant order == pushed[..|order|] && Min(|pushed|, cfg.capacity) <= |order| <= |pushed|
        invariant entries == map k | k in all && k in order :: all[k]
      {
        var oldest := order[|order| - 1];
        ghost var longer := order;
        order := order[..|order| - 1];
        entries := entries - {oldest};
        assert longer == order + [oldest] && oldest !in order;
      }
    }

    /** Closes the starter's channel, and the joiners' with it unless they
        get a load of their own. */
    method Publish(c: nat)
      requires c in calls
      modifies this
      ensures View() == MoveCall(old(View()), c, Published(old(calls)[c]))
    {
      var call := calls[c].(done := true);
      if call.again {
        call := call.(stage := Checking(true));
      } else {
        call := call.(joinedResult := call.result, stage := PublishingJoined);
      }
      calls := calls[c := call];
      clock := clock + 1;
    }
  }
}
