module RealtimeCacheRuns {
  /** Over whole runs of the cache: what a Get returns, and what the cache never
      exceeds, under every interleaving. */

  import opened Common
  import opened RealtimeCache

  ghost predicate StepAt<K, V>(cfg: Config<K, V>, trace: seq<State<K, V>>, actions: seq<Action<K, V>>, i: nat)
    requires i < |actions| < |trace|
  {
    Enabled(cfg, trace[i], actions[i]) && trace[i + 1] == Next(cfg, trace[i], actions[i])
  }

  /** A run of the cache: the states passed from an empty cache, one step each. */
  ghost predicate IsRun<K, V>(cfg: Config<K, V>, trace: seq<State<K, V>>, actions: seq<Action<K, V>>) {
    && cfg.Valid() && |trace| == |actions| + 1 && trace[0] == Init()
    && forall i :: 0 <= i < |actions| ==> StepAt(cfg, trace, actions, i)
  }

  /** The stamps of callers and runs name the steps at which they began and ended. */
  ghost predicate GetsDated<K, V>(gets: map<nat, Getter<K, V>>, clock: nat, actions: seq<Action<K, V>>) {
    && clock <= |actions|
    && forall g :: g in gets ==> gets[g].start < clock && actions[gets[g].start] == Begin(g, gets[g].key)
  }

  ghost predicate RunDated<K, V>(r: nat, run: Run<K, V>, clock: nat, trace: seq<State<K, V>>, actions: seq<Action<K, V>>)
    requires clock <= |actions| <= |trace|
  {
    && run.began < clock && actions[run.began].Launch?
    && (var c := actions[run.began].call;
        c in trace[run.began].calls && trace[run.began].calls[c].key == run.key)
    && (run.output.Some? && run.output.value.Value? ==>
          var l := run.output.value.loaded;
          run.began < l.ended < clock && actions[l.ended] == LoaderReturns(r, Some(l.value)))
  }

  ghost predicate RunsDated<K, V>(runs: map<nat, Run<K, V>>, clock: nat, trace: seq<State<K, V>>, actions: seq<Action<K, V>>) {
    && clock <= |actions| <= |trace|
    && forall r :: r in runs ==> RunDated(r, runs[r], clock, trace, actions)
  }

  /** t is s one step later, with the same callers and runs. */
  ghost predicate SameStamps<K, V>(s: State<K, V>, t: State<K, V>) {
    && t.clock == s.clock + 1 && t.gets.Keys == s.gets.Keys
    && forall g :: g in s.gets ==> t.gets[g].start == s.gets[g].start && t.gets[g].key == s.gets[g].key
  }

  lemma EnterStamps<K, V>(s: State<K, V>, g: nat, live: bool, c: nat)
    requires g in s.gets && (s.gets[g].key in s.loading ==> s.loading[s.gets[g].key] in s.calls)
    ensures SameStamps(s, AfterEnter(s, g, live, c)) && AfterEnter(s, g, live, c).runs == s.runs
  {
    hide Joined, Without;
  }

  lemma LeaveStamps<K, V>(s: State<K, V>, g: nat, sawDone: bool)
    requires g in s.gets && s.gets[g].phase.Leaving? && s.gets[g].phase.call in s.calls
    ensures SameStamps(s, AfterLeave(s, g, sawDone)) && AfterLeave(s, g, sawDone).runs == s.runs
  {
    hide Left, Unloaded;
  }

  lemma DecideStamps<K, V>(cfg: Config<K, V>, s: State<K, V>, c: nat)
    requires c in s.calls
    ensures SameStamps(s, AfterDecide(cfg, s, c)) && AfterDecide(cfg, s, c).runs == s.runs
  {
    DecideFrame(cfg, s, c);
    hide AfterDecide;
  }

  lemma LaunchStamps<K, V>(s: State<K, V>, c: nat, expired: bool)
    requires c in s.calls && s.calls[c].stage.Holding?
    ensures SameStamps(s, AfterLaunch(s, c, expired))
  {
    hide Record, Rejects;
  }

  /** A step dates what it begins or ends and leaves the other stamps alone. */
  lemma StepStamps<K, V>(cfg: Config<K, V>, s: State<K, V>, a: Action<K, V>)
    requires Enabled(cfg, s, a)
    ensures Next(cfg, s, a).clock == s.clock + 1
    ensures !a.Begin? ==> SameStamps(s, Next(cfg, s, a))
    ensures a.Launch? || a.LoaderReturns? || Next(cfg, s, a).runs == s.runs
  {
    match a
    case Enter(g, live, c) => EnterStamps(s, g, live, c);
    case Leave(g, sawDone) => LeaveStamps(s, g, sawDone);
    case Decide(c) => DecideStamps(cfg, s, c);
    case Launch(c, expired) => LaunchStamps(s, c, expired);
    case _ => PlainStamps(cfg, s, a);
  }

  lemma MoveStamps<K, V>(s: State<K, V>, c: nat, call: Call<K, V>)
    ensures SameStamps(s, MoveCall(s, c, call)) && MoveCall(s, c, call).runs == s.runs
  {
  }

  lemma PlainStamps<K, V>(cfg: Config<K, V>, s: State<K, V>, a: Action<K, V>)
    requires Enabled(cfg, s, a) && !a.Enter? && !a.Leave? && !a.Decide? && !a.Launch?
    ensures Next(cfg, s, a).clock == s.clock + 1
    ensures !a.Begin? ==> SameStamps(s, Next(cfg, s, a))
    ensures a.LoaderReturns? || Next(cfg, s, a).runs == s.runs
  {
    hide Joined, Checked, Settled, Record, Published, Rejects, Ended, MoveCall;
    match a
    case Acquire(c, r) =>
      MoveStamps(s.(slots := s.slots[r := c]), c, s.calls[c].(stage := Holding(s.calls[c].stage.second, r)));
    case PublishJoined(c) => MoveStamps(s, c, s.calls[c].(joinedDone := true, stage := Finished));
    case Check(_, _) => MovedStamps(cfg, s, a);
    case Abandon(_) => MovedStamps(cfg, s, a);
    case Receive(_) => MovedStamps(cfg, s, a);
    case Settle(_, _) => MovedStamps(cfg, s, a);
    case Publish(_) => MovedStamps(cfg, s, a);
    case _ =>
  }

  lemma MovedStamps<K, V>(cfg: Config<K, V>, s: State<K, V>, a: Action<K, V>)
    requires Enabled(cfg, s, a) && (a.Check? || a.Abandon? || a.Receive? || a.Settle? || a.Publish?)
    ensures Next(cfg, s, a).clock == s.clock + 1
    ensures SameStamps(s, Next(cfg, s, a)) && Next(cfg, s, a).runs == s.runs
  {
    hide Joined, Checked, Settled, Record, Published, Rejects, Ended, MoveCall;
    match a
    case Check(c, expired) => MoveStamps(s, c, Checked(s.calls[c], Rejects(s, s.calls[c], expired)));
    case Abandon(c) => MoveStamps(s, c, Record(s.calls[c], Failed, Settling(s.calls[c].stage.second)));
    case Receive(c) =>
      MoveStamps(s, c, Record(s.calls[c], s.runs[s.calls[c].stage.run].output.value, Settling(s.calls[c].stage.second)));
    case Settle(c, expired) => MoveStamps(s, c, Settled(s.calls[c], Rejects(s, s.calls[c], expired)));
    case Publish(c) => MoveStamps(s, c, Published(s.calls[c]));
  }

  lemma GetsDatedKept<K, V>(cfg: Config<K, V>, s: State<K, V>, a: Action<K, V>, actions: seq<Action<K, V>>)
    requires Enabled(cfg, s, a) && GetsDated(s.gets, s.clock, actions)
    requires s.clock < |actions| && actions[s.clock] == a
    ensures GetsDated(Next(cfg, s, a).gets, s.clock + 1, actions)
  {
    StepStamps(cfg, s, a);
    if !a.Begin? {
      hide Next, Enabled;
      var t := Next(cfg, s, a);
      assert forall g :: g in t.gets ==> g in s.gets && t.gets[g].start == s.gets[g].start;
    }
  }

  lemma LaunchDated<K, V>(s: State<K, V>, c: nat, expired: bool, trace: seq<State<K, V>>, actions: seq<Action<K, V>>)
    requires RunsDated(s.runs, s.clock, trace, actions) && c in s.calls && s.calls[c].stage.Holding?
    requires s.clock < |actions| && actions[s.clock] == Launch(c, expired) && trace[s.clock] == s
    ensures RunsDated(AfterLaunch(s, c, expired).runs, s.clock + 1, trace, actions)
  {
    hide Record, Rejects;
    forall r | r in s.runs ensures RunDated(r, s.runs[r], s.clock + 1, trace, actions) {
      assert RunDated(r, s.runs[r], s.clock, trace, actions);
    }
  }

  lemma LoaderDated<K, V>(s: State<K, V>, r: nat, output: Option<V>, trace: seq<State<K, V>>, actions: seq<Action<K, V>>)
    requires RunsDated(s.runs, s.clock, trace, actions) && r in s.runs && s.runs[r].output.None?
    requires s.clock < |actions| && actions[s.clock] == LoaderReturns(r, output)
    ensures RunsDated(s.runs[r := Ended(s.runs[r], r, output, s.clock)], s.clock + 1, trace, actions)
  {
    forall q | q in s.runs ensures RunDated(q, s.runs[q], s.clock + 1, trace, actions) {
      assert RunDated(q, s.runs[q], s.clock, trace, actions);
    }
  }

  lemma RunsAged<K, V>(runs: map<nat, Run<K, V>>, clock: nat, trace: seq<State<K, V>>, actions: seq<Action<K, V>>)
    requires RunsDated(runs, clock, trace, actions) && clock < |actions|
    ensures RunsDated(runs, clock + 1, trace, actions)
  {
    forall r | r in runs ensures RunDated(r, runs[r], clock + 1, trace, actions) {
      assert RunDated(r, runs[r], clock, trace, actions);
    }
  }

  lemma RunsDatedKept<K, V>(cfg: Config<K, V>, s: State<K, V>, a: Action<K, V>,
                            trace: seq<State<K, V>>, actions: seq<Action<K, V>>)
    requires Enabled(cfg, s, a) && RunsDated(s.runs, s.clock, trace, actions)
    requires s.clock < |actions| && actions[s.clock] == a && trace[s.clock] == s
    ensures RunsDated(Next(cfg, s, a).runs, s.clock + 1, trace, actions)
  {
    hide RunsDated, SameStamps, Ended, AfterLaunch, AfterLeave, AfterEnter, AfterDecide, MoveCall, MoveGet;
    if a.Launch? {
      LaunchDated(s, a.call, a.expired, trace, actions);
    } else if a.LoaderReturns? {
      LoaderDated(s, a.run, a.output, trace, actions);
    } else {
      hide Next, Enabled;
      StepStamps(cfg, s, a);
      RunsAged(s.runs, s.clock, trace, actions);
    }
  }

  ghost predicate Lawful<K, V>(cfg: Config<K, V>, s: State<K, V>, n: nat, trace: seq<State<K, V>>, actions: seq<Action<K, V>>) {
    && Inv(cfg, s) && SourceInv(s) && s.clock == n
    && GetsDated(s.gets, n, actions) && RunsDated(s.runs, n, trace, actions)
  }

  lemma StepLawful<K, V>(cfg: Config<K, V>, s: State<K, V>, a: Action<K, V>, n: nat,
                         trace: seq<State<K, V>>, actions: seq<Action<K, V>>)
    requires cfg.Valid() && Enabled(cfg, s, a) && Lawful(cfg, s, n, trace, actions)
    requires n < |actions| && actions[n] == a && trace[n] == s
    ensures Lawful(cfg, Next(cfg, s, a), n + 1, trace, actions)
  {
    hide Inv, SourceInv, GetsDated, RunsDated, Next, Enabled;
    InvKept(cfg, s, a);
    SourceKept(cfg, s, a);
    StepStamps(cfg, s, a);
    GetsDatedKept(cfg, s, a, actions);
    RunsDatedKept(cfg, s, a, trace, actions);
  }

  lemma InitLawful<K, V>(cfg: Config<K, V>, trace: seq<State<K, V>>, actions: seq<Action<K, V>>)
    requires cfg.Valid() && |trace| == |actions| + 1
    ensures Lawful(cfg, Init(), 0, trace, actions)
  {
  }

  lemma RunLawful<K, V>(cfg: Config<K, V>, trace: seq<State<K, V>>, actions: seq<Action<K, V>>, n: nat)
    requires IsRun(cfg, trace, actions) && n < |trace|
    ensures Lawful(cfg, trace[n], n, trace, actions)
  {
    hide Lawful, Next, Enabled, Init;
    InitLawful(cfg, trace, actions);
    var i := 0;
    while i < n
      invariant i <= n && Lawful(cfg, trace[i], i, trace, actions)
    {
      assert StepAt(cfg, trace, actions, i);
      StepLawful(cfg, trace[i], actions[i], i, trace, actions);
      i := i + 1;
    }
  }

  /** Freshness: a value a Get returns is the output of a loader run for its
      key that has ended, and either keep accepted it or that run began after
      this very Get began. */
  lemma Freshness<K, V>(cfg: Config<K, V>, trace: seq<State<K, V>>, actions: seq<Action<K, V>>, n: nat, g: nat)
    requires IsRun(cfg, trace, actions) && n < |trace|
    requires g in trace[n].gets && trace[n].gets[g].phase.Returned? && trace[n].gets[g].phase.result.Value?
    ensures var get := trace[n].gets[g];
            var l := get.phase.result.loaded;
            && get.start < n && actions[get.start] == Begin(g, get.key)
            && l.began < l.ended < n && actions[l.ended] == LoaderReturns(l.run, Some(l.value))
            && actions[l.began].Launch? && actions[l.began].call in trace[l.began].calls
            && trace[l.began].calls[actions[l.began].call].key == get.key
            && (cfg.keep(get.key, l.value) || get.start < l.began)
  {
    RunLawful(cfg, trace, actions, n);
    hide IsRun, StoreInv, LoadingInv, CallsInv, CountInv, EntriesSourced, CallsSourced, OnCall;
    var s := trace[n];
    assert GetOk(cfg, s.gets[g], s.clock, s.calls, s.runs) && GetSourced(s.runs, s.gets[g]);
    var r := s.gets[g].phase.result.loaded.run;
    assert RunDated(r, s.runs[r], n, trace, actions);
  }

  /** The run a returned value came from, as it stood when its loader returned. */
  lemma LoadedRun<K, V>(cfg: Config<K, V>, trace: seq<State<K, V>>, actions: seq<Action<K, V>>, n: nat, g: nat)
    requires IsRun(cfg, trace, actions) && n < |trace|
    requires g in trace[n].gets && trace[n].gets[g].phase.Returned? && trace[n].gets[g].phase.result.Value?
    ensures var l := trace[n].gets[g].phase.result.loaded;
            && l.ended < n && actions[l.ended] == LoaderReturns(l.run, Some(l.value))
            && l.run in trace[l.ended].runs && trace[l.ended].runs[l.run].began == l.began
            && trace[l.ended].runs[l.run].key == trace[n].gets[g].key
  {
    Freshness(cfg, trace, actions, n, g);
    var l := trace[n].gets[g].phase.result.loaded;
    ReturnedRun(cfg, trace, actions, n, g);
    RunsLast(cfg, trace, actions, l.ended, n);
    assert StepAt(cfg, trace, actions, l.ended);
    hide IsRun, Next;
  }

  lemma ReturnedRun<K, V>(cfg: Config<K, V>, trace: seq<State<K, V>>, actions: seq<Action<K, V>>, n: nat, g: nat)
    requires IsRun(cfg, trace, actions) && n < |trace|
    requires g in trace[n].gets && trace[n].gets[g].phase.Returned?
    ensures Sourced(trace[n].runs, trace[n].gets[g].key, trace[n].gets[g].phase.result)
  {
    RunLawful(cfg, trace, actions, n);
    hide IsRun, Inv, EntriesSourced, CallsSourced, RunsStamped, GetsDated, RunsDated, Sourced;
    assert GetSourced(trace[n].runs, trace[n].gets[g]);
  }

  /** Runs keep their key and begin. */
  ghost predicate RunsFixed<K, V>(old_: map<nat, Run<K, V>>, new_: map<nat, Run<K, V>>) {
    forall r :: r in old_ ==> r in new_ && new_[r].key == old_[r].key && new_[r].began == old_[r].began
  }

  lemma RunsLast<K, V>(cfg: Config<K, V>, trace: seq<State<K, V>>, actions: seq<Action<K, V>>, m: nat, n: nat)
    requires IsRun(cfg, trace, actions) && m <= n < |trace|
    ensures RunsFixed(trace[m].runs, trace[n].runs)
  {
    var i := m;
    while i < n
      invariant m <= i <= n && RunsFixed(trace[m].runs, trace[i].runs)
    {
      StepRuns(cfg, trace, actions, i);
      i := i + 1;
    }
  }

  lemma StepRuns<K, V>(cfg: Config<K, V>, trace: seq<State<K, V>>, actions: seq<Action<K, V>>, i: nat)
    requires IsRun(cfg, trace, actions) && i < |actions|
    ensures RunsFixed(trace[i].runs, trace[i + 1].runs)
  {
    assert StepAt(cfg, trace, actions, i);
    hide IsRun, Inv, SourceInv, GetsDated, RunsDated, RunsFixed, Next, Enabled;
    RunLawful(cfg, trace, actions, i);
    NextRuns(cfg, trace[i], actions[i]);
  }

  lemma NextRuns<K, V>(cfg: Config<K, V>, s: State<K, V>, a: Action<K, V>)
    requires Inv(cfg, s) && Enabled(cfg, s, a)
    ensures RunsFixed(s.runs, Next(cfg, s, a).runs)
  {
    StepStamps(cfg, s, a);
    hide StoreInv, LoadingInv, CountInv, GetInv, SameStamps, Record, Rejects;
    if a.Launch? {
      assert CallOk(a.call, s.calls[a.call], s.slots, s.runs);
    } else if !a.LoaderReturns? {
      hide Next, Enabled;
    }
  }

  ghost function Running<K, V>(runs: map<nat, Run<K, V>>): set<nat> {
    set r | r in runs && runs[r].output.None?
  }

  lemma SubsetSize<T>(a: set<T>, b: set<T>)
    requires a <= b
    ensures |a| <= |b|
  {
    assert b == a + (b - a);
  }

  lemma RunningBound<K, V>(calls: map<nat, Call<K, V>>, slots: map<nat, nat>, runs: map<nat, Run<K, V>>)
    requires CallsInv(calls, slots, runs)
    ensures |Running(runs)| <= |slots|
  {
    forall r | r in Running(runs) ensures r in slots {
      assert RunOk(r, runs[r], slots);
    }
    SubsetSize(Running(runs), slots.Keys);
  }

  lemma StoreBounds<K, V>(cfg: Config<K, V>, entries: map<K, Loaded<V>>, order: seq<K>, loading: map<K, nat>)
    requires StoreInv(cfg, entries, order, loading)
    ensures Distinct(order) && Elements(order) == entries.Keys && |entries| <= cfg.capacity
    ensures loading.Keys !! entries.Keys
  {
    DistinctSize(order);
    assert Elements(order) == entries.Keys;
  }

  /** The bounds: entries and recency list agree within capacity, a key being
      loaded has no stored entry, and no more than maxLoads loaders run, even
      counting those whose callers have all left or timed out. */
  lemma Bounds<K, V>(cfg: Config<K, V>, trace: seq<State<K, V>>, actions: seq<Action<K, V>>, n: nat)
    requires IsRun(cfg, trace, actions) && n < |trace|
    ensures var s := trace[n];
            && Distinct(s.order) && Elements(s.order) == s.entries.Keys && |s.entries| <= cfg.capacity
            && s.loading.Keys !! s.entries.Keys
            && |Running(s.runs)| <= cfg.maxLoads
  {
    RunLawful(cfg, trace, actions, n);
    var s := trace[n];
    hide IsRun, StoreInv, LoadingInv, CallsInv, CountInv, GetInv, SourceInv, GetsDated, RunsDated;
    StoreBounds(cfg, s.entries, s.order, s.loading);
    RunningBound(s.calls, s.slots, s.runs);
  }

  lemma InertDecision<K, V>(cfg: Config<K, V>, s: State<K, V>, c: nat)
    requires LoadingInv(s.loading, s.calls) && c in s.calls && s.calls[c].waiters == 0
    ensures var t := AfterDecide(cfg, s, c); t.entries == s.entries && t.order == s.order && t.loading == s.loading
  {
    hide Decided, Stored;
  }

  /** A load whose callers have all left neither stores its late result nor
      touches a newer load or entry of the key. */
  lemma AbandonedLoadIsInert<K, V>(cfg: Config<K, V>, trace: seq<State<K, V>>, actions: seq<Action<K, V>>, n: nat, c: nat)
    requires IsRun(cfg, trace, actions) && n < |actions| && actions[n] == Decide(c)
    requires c in trace[n].calls && trace[n].calls[c].waiters == 0
    ensures trace[n + 1].entries == trace[n].entries && trace[n + 1].order == trace[n].order
    ensures trace[n + 1].loading == trace[n].loading
  {
    RunLawful(cfg, trace, actions, n);
    assert StepAt(cfg, trace, actions, n);
    hide IsRun, StoreInv, LoadingInv, CallsInv, CountInv, GetInv, SourceInv, GetsDated, RunsDated, AfterDecide;
    InertDecision(cfg, trace[n], c);
  }
}
