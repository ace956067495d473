module RealtimeCacheShutdown {
  /** What a cache accepts once its parent has ended: nothing. */

  import opened Common
  import opened RealtimeCache
  import opened RealtimeCacheRuns

  /** At this moment a value has passed its last cancellation check: it is
      stored, or its call's callers may read it, or one of them has. */
  ghost predicate Accepted<K, V(!new)>(s: State<K, V>, l: Loaded<V>) {
    || (exists k :: k in s.entries && s.entries[k] == l)
    || (exists c :: c in s.calls && Readable(s.calls[c], l))
    || (exists g :: g in s.gets && HasRead(s.gets[g], l))
  }

  /** The starter's result is decided, or the joiners' is. */
  predicate Readable<K, V(==,!new)>(call: Call<K, V>, l: Loaded<V>) {
    || (!call.stage.Undecided() && call.result == Value(l))
    || ((call.stage.PublishingJoined? || call.stage.Finished?) && call.joinedResult == Value(l))
  }

  predicate HasRead<K, V(==,!new)>(get: Getter<K, V>, l: Loaded<V>) {
    (get.phase.Leaving? || get.phase.Returned?) && get.phase.result == Value(l)
  }

  /** Whatever the call's callers may read was accepted in s. */
  ghost predicate CallOld<K, V(!new)>(s: State<K, V>, call: Call<K, V>) {
    forall l :: Readable(call, l) ==> Accepted(s, l)
  }

  ghost predicate CallsOld<K, V(!new)>(s: State<K, V>, calls: map<nat, Call<K, V>>) {
    forall c :: c in calls ==> CallOld(s, calls[c])
  }

  ghost predicate GetOld<K, V(!new)>(s: State<K, V>, get: Getter<K, V>) {
    forall l :: HasRead(get, l) ==> Accepted(s, l)
  }

  ghost predicate GetsOld<K, V(!new)>(s: State<K, V>, gets: map<nat, Getter<K, V>>) {
    forall g :: g in gets ==> GetOld(s, gets[g])
  }

  ghost predicate EntriesOld<K, V(!new)>(s: State<K, V>, entries: map<K, Loaded<V>>) {
    forall k :: k in entries ==> k in s.entries && entries[k] == s.entries[k]
  }

  /** Nothing in u was accepted after s. */
  ghost predicate Old<K, V(!new)>(s: State<K, V>, u: State<K, V>) {
    && u.parentDone && EntriesOld(s, u.entries) && CallsOld(s, u.calls) && GetsOld(s, u.gets)
  }

  lemma OldItself<K, V(!new)>(s: State<K, V>)
    requires s.parentDone
    ensures Old(s, s)
  {
  }

  lemma OldCall<K, V(!new)>(s: State<K, V>, calls: map<nat, Call<K, V>>, c: nat, call: Call<K, V>)
    requires CallsOld(s, calls) && CallOld(s, call)
    ensures CallsOld(s, calls[c := call])
  {
    hide CallOld;
  }

  lemma OldGet<K, V(!new)>(s: State<K, V>, gets: map<nat, Getter<K, V>>, g: nat, get: Getter<K, V>)
    requires GetsOld(s, gets) && GetOld(s, get)
    ensures GetsOld(s, gets[g := get])
  {
    hide GetOld;
  }

  /** A call whose callers may read no more than before. */
  ghost predicate NoMore<K, V(!new)>(call: Call<K, V>, after: Call<K, V>) {
    forall l :: Readable(after, l) ==> Readable(call, l)
  }

  lemma MovedOld<K, V(!new)>(s: State<K, V>, u: State<K, V>, c: nat, after: Call<K, V>)
    requires Old(s, u) && c in u.calls && NoMore(u.calls[c], after)
    ensures Old(s, MoveCall(u, c, after))
  {
    hide Readable, Accepted, EntriesOld, GetsOld;
    assert CallOld(s, u.calls[c]);
  }

  /** With the parent ended, every check rejects; so a call's steps accept nothing. */
  lemma CallStep<K, V(!new)>(u: State<K, V>, c: nat, expired: bool, slots: map<nat, nat>, runs: map<nat, Run<K, V>>)
    requires u.parentDone && c in u.calls && CallOk(c, u.calls[c], slots, runs)
    ensures u.calls[c].stage.Checking? ==> NoMore(u.calls[c], Checked(u.calls[c], Rejects(u, u.calls[c], expired)))
    ensures u.calls[c].stage.Settling? ==> NoMore(u.calls[c], Settled(u.calls[c], Rejects(u, u.calls[c], expired)))
    ensures u.calls[c].stage.Publishing? ==> NoMore(u.calls[c], Published(u.calls[c]))
    ensures forall out :: u.calls[c].stage.Running() ==>
              NoMore(u.calls[c], Record(u.calls[c], out, Settling(u.calls[c].stage.second)))
  {
  }

  lemma RunningStep<K, V(!new)>(call: Call<K, V>, r: nat)
    ensures call.stage.Queued? ==> NoMore(call, call.(stage := Holding(call.stage.second, r)))
    ensures call.stage.Holding? ==> NoMore(call, call.(stage := Loading(call.stage.second, r)))
    ensures call.stage.PublishingJoined? ==> NoMore(call, call.(joinedDone := true, stage := Finished))
  {
  }

  lemma DecideOld<K, V(!new)>(cfg: Config<K, V>, s: State<K, V>, u: State<K, V>, c: nat)
    requires Old(s, u) && c in u.calls && u.calls[c].stage.Deciding?
    ensures Old(s, AfterDecide(cfg, u, c))
  {
    var after := Decided(u.calls[c], false, true);
    assert Rejects(u, u.calls[c], false) && !Keeps(cfg, u, c);
    assert NoMore(u.calls[c], after);
    hide Keeps, Rejects, Decided, NoMore, Old;
    MovedOld(s, u, c, after);
    Reloaded(s, MoveCall(u, c, after), AfterDecide(cfg, u, c).loading);
  }

  lemma Reloaded<K, V(!new)>(s: State<K, V>, u: State<K, V>, loading: map<K, nat>)
    requires Old(s, u)
    ensures Old(s, u.(loading := loading))
  {
  }

  lemma LaunchOld<K, V(!new)>(s: State<K, V>, u: State<K, V>, c: nat, expired: bool, slots: map<nat, nat>, runs: map<nat, Run<K, V>>)
    requires Old(s, u) && c in u.calls && u.calls[c].stage.Holding? && CallOk(c, u.calls[c], slots, runs)
    ensures Old(s, AfterLaunch(u, c, expired))
  {
    CallStep(u, c, expired, slots, runs);
    assert Rejects(u, u.calls[c], expired);
    hide NoMore, CallsOld, GetsOld, EntriesOld, Rejects;
    MovedOld(s, u, c, Record(u.calls[c], Failed, Settling(u.calls[c].stage.second)));
  }

  lemma EnterOld<K, V(!new)>(s: State<K, V>, u: State<K, V>, g: nat, live: bool, c: nat)
    requires Old(s, u) && g in u.gets && u.gets[g].phase.Begun?
    requires u.gets[g].key in u.loading ==> u.loading[u.gets[g].key] in u.calls
    ensures Old(s, AfterEnter(u, g, live, c))
  {
    var get := u.gets[g];
    var key := get.key;
    if key in u.entries && live {
      assert Accepted(s, s.entries[key]);
      hide Accepted, CallsOld, Without;
      OldGet(s, u.gets, g, get.(phase := Returned(Value(u.entries[key]))));
    } else if key in u.loading {
      var j := u.loading[key];
      assert CallOld(s, u.calls[j]) && NoMore(u.calls[j], Joined(u.calls[j]));
      hide Accepted, Without, Readable;
      OldGet(s, u.gets, g, get.(phase := Waiting(j, true)));
      OldCall(s, u.calls, j, Joined(u.calls[j]));
    } else {
      hide Accepted, Without;
      OldGet(s, u.gets, g, get.(phase := Waiting(c, false)));
      OldCall(s, u.calls, c, NewCall(key));
    }
  }

  lemma WakeOld<K, V(!new)>(s: State<K, V>, u: State<K, V>, g: nat, slots: map<nat, nat>, runs: map<nat, Run<K, V>>)
    requires Old(s, u) && g in u.gets && u.gets[g].phase.Waiting? && u.gets[g].phase.call in u.calls
    requires CallOk(u.gets[g].phase.call, u.calls[u.gets[g].phase.call], slots, runs)
    requires if u.gets[g].phase.joined then u.calls[u.gets[g].phase.call].joinedDone else u.calls[u.gets[g].phase.call].done
    ensures Old(s, MoveGet(u, g, Woken(u.gets[g], u.calls[u.gets[g].phase.call])))
  {
    var call := u.calls[u.gets[g].phase.call];
    assert CallOld(s, call);
    hide Accepted, EntriesOld;
    OldGet(s, u.gets, g, Woken(u.gets[g], call));
  }

  lemma LeaveOld<K, V(!new)>(s: State<K, V>, u: State<K, V>, g: nat, sawDone: bool)
    requires Old(s, u) && g in u.gets && u.gets[g].phase.Leaving? && u.gets[g].phase.call in u.calls
    ensures Old(s, AfterLeave(u, g, sawDone))
  {
    var phase := u.gets[g].phase;
    var call := u.calls[phase.call];
    assert GetOld(s, u.gets[g]) && CallOld(s, call) && NoMore(call, Left(call, phase.joined));
    hide Accepted, EntriesOld, Unloaded, Left, Readable;
    OldGet(s, u.gets, g, u.gets[g].(phase := Returned(phase.result)));
    OldCall(s, u.calls, phase.call, Left(call, phase.joined));
  }

  lemma GiveUpOld<K, V(!new)>(s: State<K, V>, u: State<K, V>, g: nat)
    requires Old(s, u) && g in u.gets && u.gets[g].phase.Waiting?
    ensures Old(s, MoveGet(u, g, u.gets[g].(phase := Leaving(u.gets[g].phase.call, u.gets[g].phase.joined, Failed))))
  {
    hide Accepted, EntriesOld, CallsOld;
    OldGet(s, u.gets, g, u.gets[g].(phase := Leaving(u.gets[g].phase.call, u.gets[g].phase.joined, Failed)));
  }

  lemma CallKnown<K, V(!new)>(cfg: Config<K, V>, u: State<K, V>, c: nat)
    requires Inv(cfg, u) && c in u.calls
    ensures CallOk(c, u.calls[c], u.slots, u.runs)
  {
    hide StoreInv, LoadingInv, CountInv, GetInv, CallOk;
  }

  lemma StepOld<K, V(!new)>(cfg: Config<K, V>, s: State<K, V>, u: State<K, V>, a: Action<K, V>)
    requires Old(s, u) && Inv(cfg, u) && Enabled(cfg, u, a)
    ensures Old(s, Next(cfg, u, a))
  {
    hide Old, Inv, Enabled, Next;
    match a
    case Check(c, expired) => CallMoves(cfg, s, u, c, expired, a);
    case Settle(c, expired) => CallMoves(cfg, s, u, c, expired, a);
    case Acquire(c, _) => SlotOld(cfg, s, u, c, a);
    case Abandon(c) => CallMoves(cfg, s, u, c, false, a);
    case Receive(c) => CallMoves(cfg, s, u, c, false, a);
    case Publish(c) => CallMoves(cfg, s, u, c, false, a);
    case PublishJoined(c) => SlotOld(cfg, s, u, c, a);
    case _ => OtherOld(cfg, s, u, a);
  }

  /** The callers' steps, and those of a load that touch more than the load. */
  lemma OtherOld<K, V(!new)>(cfg: Config<K, V>, s: State<K, V>, u: State<K, V>, a: Action<K, V>)
    requires Old(s, u) && Inv(cfg, u) && Enabled(cfg, u, a)
    requires !a.Check? && !a.Settle? && !a.Acquire? && !a.Abandon? && !a.Receive? && !a.Publish? && !a.PublishJoined?
    ensures Old(s, Next(cfg, u, a))
  {
    hide Inv, AfterEnter, AfterLeave, AfterDecide, AfterLaunch, CallsOld, GetsOld, EntriesOld, CallOk, NoMore,
         Checked, Settled, Published, Record, Rejects, Woken, MoveCall;
    match a
    case Enter(g, live, c) => EnterOld(s, u, g, live, c);
    case Wake(g) =>
      CallKnown(cfg, u, u.gets[g].phase.call);
      WakeOld(s, u, g, u.slots, u.runs);
    case GiveUp(g) => GiveUpOld(s, u, g);
    case Leave(g, sawDone) => LeaveOld(s, u, g, sawDone);
    case Launch(c, expired) =>
      CallKnown(cfg, u, c);
      LaunchOld(s, u, c, expired, u.slots, u.runs);
    case Decide(c) => DecideOld(cfg, s, u, c);
    case _ =>
  }

  lemma SlotOld<K, V(!new)>(cfg: Config<K, V>, s: State<K, V>, u: State<K, V>, c: nat, a: Action<K, V>)
    requires Old(s, u) && Enabled(cfg, u, a) && ((a.Acquire? && a.call == c) || a == PublishJoined(c))
    ensures Old(s, Next(cfg, u, a))
  {
    hide CallsOld, GetsOld, EntriesOld, CallOk, NoMore, Checked, Settled, Published, Record, Rejects, Woken;
    match a
    case Acquire(_, r) =>
      RunningStep(u.calls[c], r);
      MovedOld(s, u, c, u.calls[c].(stage := Holding(u.calls[c].stage.second, r)));
    case PublishJoined(_) =>
      RunningStep(u.calls[c], 0);
      MovedOld(s, u, c, u.calls[c].(joinedDone := true, stage := Finished));
  }

  lemma CallMoves<K, V(!new)>(cfg: Config<K, V>, s: State<K, V>, u: State<K, V>, c: nat, expired: bool, a: Action<K, V>)
    requires Old(s, u) && Inv(cfg, u) && Enabled(cfg, u, a)
    requires a == Check(c, expired) || a == Settle(c, expired) || a == Abandon(c) || a == Receive(c) || a == Publish(c)
    ensures Old(s, Next(cfg, u, a))
  {
    hide Inv, Old, CallOk, NoMore, Checked, Settled, Published, Record, Rejects;
    CallKnown(cfg, u, c);
    assert u.parentDone by { ParentDone(s, u); }
    CallStep(u, c, expired, u.slots, u.runs);
    MovedOld(s, u, c, Next(cfg, u, a).calls[c]);
  }

  lemma ParentDone<K, V(!new)>(s: State<K, V>, u: State<K, V>)
    requires Old(s, u)
    ensures u.parentDone
  {
  }

  /** A value that was accepted came from a loader run that had ended. */
  lemma AcceptedHasEnded<K, V(!new)>(cfg: Config<K, V>, trace: seq<State<K, V>>, actions: seq<Action<K, V>>, m: nat, l: Loaded<V>)
    requires IsRun(cfg, trace, actions) && m < |trace| && Accepted(trace[m], l)
    ensures l.ended < m && actions[l.ended] == LoaderReturns(l.run, Some(l.value))
  {
    RunLawful(cfg, trace, actions, m);
    var s := trace[m];
    hide IsRun, StoreInv, LoadingInv, CallsInv, CountInv, GetInv, RunDated, Accepted;
    var key := SourceOf(s, l);
    assert RunDated(l.run, s.runs[l.run], m, trace, actions);
    Dated(s.runs, l, m, trace, actions, key);
  }

  lemma SourceOf<K, V(!new)>(s: State<K, V>, l: Loaded<V>) returns (key: K)
    requires SourceInv(s) && Accepted(s, l)
    ensures Sourced(s.runs, key, Value(l))
  {
    hide Sourced;
    if k :| k in s.entries && s.entries[k] == l {
      key := k;
    } else if c :| c in s.calls && Readable(s.calls[c], l) {
      assert CallSourced(s.runs, s.calls[c]);
      key := s.calls[c].key;
    } else {
      var g :| g in s.gets && HasRead(s.gets[g], l);
      assert GetSourced(s.runs, s.gets[g]);
      key := s.gets[g].key;
    }
  }

  lemma Dated<K, V(!new)>(runs: map<nat, Run<K, V>>, l: Loaded<V>, m: nat, trace: seq<State<K, V>>, actions: seq<Action<K, V>>, key: K)
    requires m <= |actions| <= |trace| && Sourced(runs, key, Value(l)) && RunDated(l.run, runs[l.run], m, trace, actions)
    ensures l.ended < m && actions[l.ended] == LoaderReturns(l.run, Some(l.value))
  {
  }

  lemma {:induction false} RunOld<K, V(!new)>(cfg: Config<K, V>, trace: seq<State<K, V>>, actions: seq<Action<K, V>>, m: nat, n: nat)
    requires IsRun(cfg, trace, actions) && m <= n < |trace| && trace[m].parentDone
    ensures Old(trace[m], trace[n])
    decreases n
  {
    hide Old, Inv, Next, Enabled;
    if n == m {
      OldItself(trace[m]);
    } else {
      RunOld(cfg, trace, actions, m, n - 1);
      RunInv(cfg, trace, actions, n - 1);
      assert StepAt(cfg, trace, actions, n - 1);
      StepOld(cfg, trace[m], trace[n - 1], actions[n - 1]);
    }
  }

  /** Once the parent has ended nothing more is accepted: whatever the cache
      stores later was stored then, and a value any Get returns later had
      passed its checks by then; no loader that returns later gets that far. */
  lemma ShutdownAcceptsNothing<K, V(!new)>(cfg: Config<K, V>, trace: seq<State<K, V>>, actions: seq<Action<K, V>>, m: nat, n: nat)
    requires IsRun(cfg, trace, actions) && m <= n < |trace| && trace[m].parentDone
    ensures forall k :: k in trace[n].entries ==> k in trace[m].entries && trace[n].entries[k] == trace[m].entries[k]
    ensures forall g :: g in trace[n].gets && trace[n].gets[g].phase.Returned? && trace[n].gets[g].phase.result.Value? ==>
              var l := trace[n].gets[g].phase.result.loaded;
              Accepted(trace[m], l) && l.ended < m
  {
    hide Old, IsRun, Accepted;
    RunOld(cfg, trace, actions, m, n);
    OldEntries(trace[m], trace[n]);
    forall g | g in trace[n].gets && trace[n].gets[g].phase.Returned? && trace[n].gets[g].phase.result.Value?
      ensures Accepted(trace[m], trace[n].gets[g].phase.result.loaded) && trace[n].gets[g].phase.result.loaded.ended < m
    {
      OldRead(trace[m], trace[n], g);
      AcceptedHasEnded(cfg, trace, actions, m, trace[n].gets[g].phase.result.loaded);
    }
  }

  lemma RunInv<K, V(!new)>(cfg: Config<K, V>, trace: seq<State<K, V>>, actions: seq<Action<K, V>>, n: nat)
    requires IsRun(cfg, trace, actions) && n < |trace|
    ensures Inv(cfg, trace[n])
  {
    RunLawful(cfg, trace, actions, n);
  }

  lemma OldEntries<K, V(!new)>(s: State<K, V>, u: State<K, V>)
    requires Old(s, u)
    ensures forall k :: k in u.entries ==> k in s.entries && u.entries[k] == s.entries[k]
  {
  }

  lemma OldRead<K, V(!new)>(s: State<K, V>, u: State<K, V>, g: nat)
    requires Old(s, u) && g in u.gets && u.gets[g].phase.Returned? && u.gets[g].phase.result.Value?
    ensures Accepted(s, u.gets[g].phase.result.loaded)
  {
    hide Accepted;
    assert HasRead(u.gets[g], u.gets[g].phase.result.loaded) && GetOld(s, u.gets[g]);
  }
}
