module RealtimeCacheEntries {
  /** Over whole runs of the cache: which values are stored and found, which
      entry leaves for another, that a key has one load at a time which callers
      join, and when loads are cancelled and slots returned. */

  import opened Common
  import opened Recency
  import opened RealtimeCache
  import opened RealtimeCacheRuns
  import opened RealtimeCacheTold
  import opened RealtimeCacheBooks

  /** A key has at most one load that callers may join. */
  lemma OneLoadPerKey<K, V>(cfg: Config<K, V>, trace: seq<State<K, V>>, actions: seq<Action<K, V>>, n: nat, key: K, c: nat, d: nat)
    requires IsRun(cfg, trace, actions) && n < |trace| && OpenLoad(trace[n], key, c) && OpenLoad(trace[n], key, d)
    ensures c == d
  {
    hide IsRun, Inv, More, OpenLoad;
    RunMore(cfg, trace, actions, n);
    OpenIsCurrent(cfg, trace[n], key, c);
    OpenIsCurrent(cfg, trace[n], key, d);
  }

  /** What a Get's critical section does: a stored entry that has not expired
      answers it at once and nothing is loaded; else it joins the key's load if
      there is one, and only otherwise starts another. */
  lemma EntersExactly<K, V>(cfg: Config<K, V>, trace: seq<State<K, V>>, actions: seq<Action<K, V>>, n: nat, g: nat, live: bool, c: nat)
    requires IsRun(cfg, trace, actions) && n < |actions| && actions[n] == Enter(g, live, c)
    ensures g in trace[n].gets && g in trace[n + 1].gets && c !in trace[n].calls
    ensures var s, u, key := trace[n], trace[n + 1], trace[n].gets[g].key;
            && (key in s.entries && live ==> u.gets[g].phase == Returned(Value(s.entries[key])) && u.calls == s.calls && u.entries == s.entries)
            && (!(key in s.entries && live) ==>
                  && u.entries == s.entries - {key}
                  && (forall j :: OpenLoad(s, key, j) ==> u.gets[g].phase == Waiting(j, true) && u.calls.Keys == s.calls.Keys)
                  && ((forall j :: !OpenLoad(s, key, j)) ==> u.gets[g].phase == Waiting(c, false) && u.calls == s.calls[c := NewCall(key)]))
  {
    hide Inv, More, AfterEnter, OpenLoad, NewCall, Joined, Without;
    RunMore(cfg, trace, actions, n);
    assert StepAt(cfg, trace, actions, n);
    var s := trace[n];
    EnterShape(s, g, live, c);
    var key := s.gets[g].key;
    if key in s.loading {
      CurrentIsOpen(cfg, s, key);
    }
    forall j | OpenLoad(s, key, j) ensures key in s.loading && s.loading[key] == j {
      OpenIsCurrent(cfg, s, key, j);
    }
  }

  /** A decision stores the value of a load somebody waits for exactly if keep
      accepts it and the parent lives, and it begins the joiners' second load
      exactly if there are joiners and a value it did not store; a load nobody
      waits for stores nothing. */
  lemma DecidesExactly<K, V>(cfg: Config<K, V>, trace: seq<State<K, V>>, actions: seq<Action<K, V>>, n: nat, c: nat)
    requires IsRun(cfg, trace, actions) && n < |actions| && actions[n] == Decide(c)
    ensures c in trace[n].calls && c in trace[n + 1].calls
    ensures var s, u, call := trace[n], trace[n + 1], trace[n].calls[c];
            var kept := call.result.Value? && cfg.keep(call.key, call.result.loaded.value) && !s.parentDone;
            && (Attended(s.gets, c) ==>
                  && (StoresAt(trace, actions, n, call.key) <==> kept)
                  && (kept ==> u.entries[call.key] == call.result.loaded)
                  && (u.calls[c].again <==> call.result.Value? && !s.parentDone && !kept && !NoJoiners(s.gets, c)))
            && (!Attended(s.gets, c) ==> u.entries == s.entries)
  {
    hide Inv, More, AfterDecide, Decided, Keeps, Rejects, IsStored, NoJoiners;
    RunMore(cfg, trace, actions, n);
    assert StepAt(cfg, trace, actions, n);
    var s, u := trace[n], trace[n + 1];
    var call := s.calls[c];
    DecideShape(cfg, s, c);
    DecidedBooks(call, Keeps(cfg, s, c), Rejects(s, call, false));
    KeepsWhen(cfg, s, c);
    if Keeps(cfg, s, c) {
      FrontFits(cfg, s, u, call.key, call.result.loaded);
    }
    DecidedFirst(cfg, s, actions[n]);
    JoinersCounted(cfg, s, c);
  }

  /** The list is in the order of last use, whatever was found and stored. */
  lemma {:induction false} OrderedByUse<K, V>(cfg: Config<K, V>, trace: seq<State<K, V>>, actions: seq<Action<K, V>>, n: nat)
    requires IsRun(cfg, trace, actions) && n < |trace|
    ensures ByLastUse(trace[n].order, Uses(trace, actions, n))
  {
    hide Inv, More, Next, Enabled, ByLastUse, UsedAt, StoresAt;
    if n == 0 {
      assert ByLastUse<K>([], []) by { NothingUsed<K>(); }
    } else {
      ghost var m: nat := n - 1;
      OrderedByUse(cfg, trace, actions, m);
      RunMore(cfg, trace, actions, m);
      assert StepAt(cfg, trace, actions, m);
      OrderStep(cfg, trace, actions, m);
      OrderKept(cfg, trace[m].order, trace[n].order, Uses(trace, actions, m), UsedAt(trace, actions, m));
    }
  }

  /** An entry leaves only when a Get finds it expired, or when another value is
      stored while the cache is full; and then it is the one used least recently. */
  lemma EvictsTheOldest<K, V>(cfg: Config<K, V>, trace: seq<State<K, V>>, actions: seq<Action<K, V>>, n: nat, key: K)
    requires IsRun(cfg, trace, actions) && n < |actions| && key in trace[n].entries && key !in trace[n + 1].entries
    ensures || (actions[n].Enter? && !actions[n].live && actions[n].get in trace[n].gets && trace[n].gets[actions[n].get].key == key)
            || (&& actions[n].Decide? && actions[n].call in trace[n].calls && StoresAt(trace, actions, n, trace[n].calls[actions[n].call].key)
                && |trace[n].entries| == cfg.capacity
                && forall k :: k in trace[n].entries && k != key ==>
                     LastUse(Uses(trace, actions, n), k) > LastUse(Uses(trace, actions, n), key))
  {
    hide Inv, More, Next, IsStored, Keeps, Rejects, Decided, NewCall, Joined, MovedCall, Without, ByLastUse, Uses, LastUse;
    OrderedByUse(cfg, trace, actions, n);
    RunMore(cfg, trace, actions, n);
    assert StepAt(cfg, trace, actions, n);
    var s, u, a := trace[n], trace[n + 1], actions[n];
    if OfLoad(a) {
      LoadStepShape(cfg, s, a);
    } else if a.Enter? {
      EnterOrder(cfg, s, a);
    } else if a.Leave? {
      LeaveOrder(cfg, s, a);
    } else if a.Decide? {
      DecideOrder(cfg, s, u, a);
      var call := s.calls[a.call];
      if call.key !in s.entries && call.key in u.entries {
        OneLeaves(cfg, s, u, call.key, call.result.loaded, Uses(trace, actions, n), key);
      }
    } else if a.Launch? {
      LaunchOrder(cfg, s, a);
    } else {
      PlainShape(cfg, s, a);
    }
  }

  /** A load is cancelled exactly when no Get waits on it, or, once it is the
      joiners' second load, when no joiner does. */
  lemma CancelledExactly<K, V>(cfg: Config<K, V>, trace: seq<State<K, V>>, actions: seq<Action<K, V>>, n: nat, c: nat)
    requires IsRun(cfg, trace, actions) && n < |trace| && c in trace[n].calls && !trace[n].calls[c].joinedDone
    ensures trace[n].calls[c].cancelled <==> !Attended(trace[n].gets, c) || (trace[n].calls[c].again && NoJoiners(trace[n].gets, c))
  {
    hide Inv, CurrentInv, SlotInv, NoJoiners, Attended, IsRun;
    RunMore(cfg, trace, actions, n);
    JoinersCounted(cfg, trace[n], c);
    BooksAreCounts(cfg, trace[n], c);
    assert CancelOk(trace[n].calls[c]);
  }

  /** No slot is lost: an occupied one is held for a load about to start its
      loader, or by a loader that has not given it back; and a loader that was
      started holds its slot until it does. */
  lemma SlotsExactly<K, V>(cfg: Config<K, V>, trace: seq<State<K, V>>, actions: seq<Action<K, V>>, n: nat, r: nat)
    requires IsRun(cfg, trace, actions) && n < |trace|
    ensures r in trace[n].slots ==>
              var c := trace[n].slots[r];
              c in trace[n].calls && (r in trace[n].runs || (trace[n].calls[c].stage.Holding? && trace[n].calls[c].stage.run == r))
    ensures r in trace[n].runs ==> (r in trace[n].slots <==> !Released(actions, n, r))
  {
    hide Inv, CurrentInv, CancelInv, Released;
    RunMore(cfg, trace, actions, n);
    if r in trace[n].slots {
      assert SlotOk(r, trace[n].slots[r], trace[n].calls, trace[n].runs);
    }
    SlotsReleased(cfg, trace, actions, n, r);
  }
}
