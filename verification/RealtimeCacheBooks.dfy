/** More that every step of the cache keeps: whose load a key has, when loads are
    cancelled, whose the slots are and how the list is ordered.
    RealtimeCacheEntries states what comes of it. */
module RealtimeCacheBooks {
  import opened Common
  import opened Recency
  import opened RealtimeCache
  import opened RealtimeCacheRuns
  import opened RealtimeCacheTold

  /** Some Get waits on the call. */
  ghost predicate Attended<K, V>(gets: map<nat, Getter<K, V>>, c: nat) {
    exists g :: g in gets && gets[g].phase.On(c)
  }

  /** A load of the key that callers may join: undecided, and waited for. */
  ghost predicate OpenLoad<K, V>(s: State<K, V>, key: K, c: nat) {
    c in s.calls && s.calls[c].key == key && s.calls[c].stage.Undecided() && Attended(s.gets, c)
  }

  // ----- more that every step keeps -----

  /** A call that waits to be decided, and is waited for, is its key's load. */
  ghost predicate CurrentOk<K, V>(c: nat, call: Call<K, V>, loading: map<K, nat>) {
    call.stage.Undecided() && call.waiters > 0 ==> call.key in loading && loading[call.key] == c
  }

  /** Cancelled exactly when nobody is left who waits for what is still done. */
  ghost predicate CancelOk<K, V>(call: Call<K, V>) {
    !call.joinedDone ==> (call.cancelled <==> call.waiters == 0 || (call.again && call.joiners == 0))
  }

  ghost predicate SlotOk<K, V>(r: nat, c: nat, calls: map<nat, Call<K, V>>, runs: map<nat, Run<K, V>>) {
    c in calls && (r in runs || (calls[c].stage.Holding? && calls[c].stage.run == r))
  }

  ghost predicate CurrentInv<K, V>(calls: map<nat, Call<K, V>>, loading: map<K, nat>) {
    forall c :: c in calls ==> CurrentOk(c, calls[c], loading)
  }

  ghost predicate CancelInv<K, V>(calls: map<nat, Call<K, V>>) {
    forall c :: c in calls ==> CancelOk(calls[c])
  }

  ghost predicate SlotInv<K, V>(slots: map<nat, nat>, calls: map<nat, Call<K, V>>, runs: map<nat, Run<K, V>>) {
    forall r :: r in slots ==> SlotOk(r, slots[r], calls, runs)
  }

  ghost predicate More<K, V>(s: State<K, V>) {
    CurrentInv(s.calls, s.loading) && CancelInv(s.calls) && SlotInv(s.slots, s.calls, s.runs)
  }

  /** A step of the goroutine leaves the books, and gains no undecided stage. */
  lemma LoadStepMore<K, V>(cfg: Config<K, V>, s: State<K, V>, a: Action<K, V>)
    requires Inv(cfg, s) && More(s) && Enabled(cfg, s, a) && OfLoad(a)
    ensures More(Next(cfg, s, a))
  {
    hide Inv, Next, CurrentInv, CancelInv, SlotInv, MovedCall, SameBooksBut;
    LoadStepShape(cfg, s, a);
    LoadStepBooks(cfg, s, a);
    LoadStepCurrent(s, a.call, MovedCall(s, a));
    LoadStepSlots(cfg, s, a);
  }

  /** A goroutine's step leaves its call's books as they are. */
  ghost predicate SameBooksBut<K, V>(call: Call<K, V>, moved: Call<K, V>) {
    && moved.key == call.key && moved.waiters == call.waiters && moved.joiners == call.joiners && moved.cancelled == call.cancelled
    && moved.again == call.again && (moved.stage.Undecided() ==> call.stage.Undecided()) && (call.joinedDone ==> moved.joinedDone)
  }

  lemma LoadStepBooks<K, V>(cfg: Config<K, V>, s: State<K, V>, a: Action<K, V>)
    requires Enabled(cfg, s, a) && OfLoad(a)
    ensures SameBooksBut(s.calls[a.call], MovedCall(s, a))
    ensures !s.calls[a.call].stage.Holding? && (a.Acquire? ==> MovedCall(s, a).stage == Holding(s.calls[a.call].stage.second, a.run))
  {
    hide Rejects;
  }

  lemma MovedShape<K, V>(s: State<K, V>, c: nat, call: Call<K, V>)
    ensures var u := MoveCall(s, c, call);
            && u.loading == s.loading && u.gets == s.gets && u.entries == s.entries && u.order == s.order && u.parentDone == s.parentDone
            && u.calls == s.calls[c := call] && u.slots == s.slots && u.runs == s.runs
  {
  }

  lemma LoadStepShape<K, V>(cfg: Config<K, V>, s: State<K, V>, a: Action<K, V>)
    requires Enabled(cfg, s, a) && OfLoad(a)
    ensures var u := Next(cfg, s, a);
            && u.calls == s.calls[a.call := MovedCall(s, a)] && u.loading == s.loading && u.runs == s.runs && u.gets == s.gets
            && u.entries == s.entries && u.order == s.order && u.parentDone == s.parentDone
            && u.slots == (if a.Acquire? then s.slots[a.run := a.call] else s.slots)
  {
    hide Rejects, Record, Checked, Settled, Published, MoveCall;
    MovedShape(if a.Acquire? then s.(slots := s.slots[a.run := a.call]) else s, a.call, MovedCall(s, a));
  }

  lemma LoadStepCurrent<K, V>(s: State<K, V>, c: nat, moved: Call<K, V>)
    requires More(s) && c in s.calls
    requires SameBooksBut(s.calls[c], moved)
    ensures CurrentInv(s.calls[c := moved], s.loading) && CancelInv(s.calls[c := moved])
  {
    hide SlotInv;
    assert CurrentOk(c, s.calls[c], s.loading) && CancelOk(s.calls[c]);
  }

  lemma LoadStepSlots<K, V>(cfg: Config<K, V>, s: State<K, V>, a: Action<K, V>)
    requires SlotInv(s.slots, s.calls, s.runs) && Enabled(cfg, s, a) && OfLoad(a)
    ensures SlotInv(Next(cfg, s, a).slots, Next(cfg, s, a).calls, Next(cfg, s, a).runs)
  {
    hide Next, MovedCall, SameBooksBut;
    LoadStepShape(cfg, s, a);
    LoadStepBooks(cfg, s, a);
    var u := Next(cfg, s, a);
    forall r | r in u.slots ensures SlotOk(r, u.slots[r], u.calls, u.runs) {
      if !(a.Acquire? && r == a.run) {
        assert SlotOk(r, s.slots[r], s.calls, s.runs);
      }
    }
  }

  // ----- more that every step keeps: callers -----

  /** A Get hits, joins the key's load, or starts one. */
  lemma EnterShape<K, V>(s: State<K, V>, g: nat, live: bool, c: nat)
    requires g in s.gets && (s.gets[g].key in s.loading ==> s.loading[s.gets[g].key] in s.calls)
    ensures var u, key := AfterEnter(s, g, live, c), s.gets[g].key;
            && u.slots == s.slots && u.runs == s.runs && u.parentDone == s.parentDone
            && if key in s.entries && live then
                 && u.calls == s.calls && u.loading == s.loading && u.entries == s.entries && u.order == [key] + Without(s.order, key)
                 && u.gets == s.gets[g := s.gets[g].(phase := Returned(Value(s.entries[key])))]
               else
                 && u.entries == s.entries - {key} && u.order == (if key in s.entries then Without(s.order, key) else s.order)
                 && if key in s.loading then
                      var j := s.loading[key];
                      u.calls == s.calls[j := Joined(s.calls[j])] && u.loading == s.loading
                      && u.gets == s.gets[g := s.gets[g].(phase := Waiting(j, true))]
                    else
                      u.calls == s.calls[c := NewCall(key)] && u.loading == s.loading[key := c]
                      && u.gets == s.gets[g := s.gets[g].(phase := Waiting(c, false))]
  {
    hide Joined, Without;
  }

  lemma JoinMore<K, V>(s: State<K, V>, key: K)
    requires More(s) && key in s.loading && s.loading[key] in s.calls
    requires var call := s.calls[s.loading[key]]; call.key == key && call.stage.Undecided() && call.waiters > 0 && !call.again
    ensures var j := s.loading[key];
            var calls := s.calls[j := Joined(s.calls[j])];
            CurrentInv(calls, s.loading) && CancelInv(calls) && SlotInv(s.slots, calls, s.runs)
  {
    var j := s.loading[key];
    assert CurrentOk(j, s.calls[j], s.loading) && CancelOk(s.calls[j]);
    var calls := s.calls[j := Joined(s.calls[j])];
    forall r | r in s.slots ensures SlotOk(r, s.slots[r], calls, s.runs) {
      assert SlotOk(r, s.slots[r], s.calls, s.runs);
    }
  }

  lemma StartMore<K, V>(s: State<K, V>, key: K, c: nat)
    requires More(s) && key !in s.loading && c !in s.calls
    ensures var calls := s.calls[c := NewCall(key)];
            CurrentInv(calls, s.loading[key := c]) && CancelInv(calls) && SlotInv(s.slots, calls, s.runs)
  {
    var calls := s.calls[c := NewCall(key)];
    forall d | d in calls ensures CurrentOk(d, calls[d], s.loading[key := c]) {
      if d != c {
        assert CurrentOk(d, s.calls[d], s.loading);
      }
    }
    forall r | r in s.slots ensures SlotOk(r, s.slots[r], calls, s.runs) {
      assert SlotOk(r, s.slots[r], s.calls, s.runs);
    }
  }

  lemma EnterMore<K, V>(cfg: Config<K, V>, s: State<K, V>, a: Action<K, V>)
    requires Inv(cfg, s) && More(s) && Enabled(cfg, s, a) && a.Enter?
    ensures More(Next(cfg, s, a))
  {
    hide Inv, CurrentInv, CancelInv, SlotInv, AfterEnter, Joined, NewCall, Without;
    EnterShape(s, a.get, a.live, a.call);
    var key := s.gets[a.get].key;
    if !(key in s.entries && a.live) {
      if key in s.loading {
        LoadingFacts(cfg, s, key);
        JoinMore(s, key);
      } else {
        StartMore(s, key, a.call);
      }
    }
  }

  lemma LoadingFacts<K, V>(cfg: Config<K, V>, s: State<K, V>, key: K)
    requires Inv(cfg, s) && key in s.loading
    ensures var j := s.loading[key];
            j in s.calls && s.calls[j].key == key && s.calls[j].stage.Undecided() && s.calls[j].waiters > 0 && !s.calls[j].again
            && Attended(s.gets, j)
  {
    LoadingHasWaiters(cfg, s, key);
    hide StoreInv, CountInv, GetInv;
    assert CallOk(s.loading[key], s.calls[s.loading[key]], s.slots, s.runs);
  }

  lemma LeaveShape<K, V>(s: State<K, V>, g: nat, sawDone: bool)
    requires g in s.gets && s.gets[g].phase.Leaving? && s.gets[g].phase.call in s.calls
    ensures var u, c := AfterLeave(s, g, sawDone), s.gets[g].phase.call;
            var left := Left(s.calls[c], s.gets[g].phase.joined);
            && u.slots == s.slots && u.runs == s.runs && u.entries == s.entries && u.order == s.order && u.parentDone == s.parentDone
            && u.gets == s.gets[g := s.gets[g].(phase := Returned(s.gets[g].phase.result))]
            && if sawDone then u.calls == s.calls && u.loading == s.loading
               else u.calls == s.calls[c := left] && u.loading == Unloaded(s, c, left)
  {
    hide Left, Unloaded;
  }

  lemma LeftMore<K, V>(s: State<K, V>, c: nat, joined: bool)
    requires More(s) && c in s.calls && s.calls[c].waiters > 0 && s.calls[c].joiners >= (if joined then 1 else 0)
    ensures var left := Left(s.calls[c], joined);
            var calls := s.calls[c := left];
            CurrentInv(calls, Unloaded(s, c, left)) && CancelInv(calls) && SlotInv(s.slots, calls, s.runs)
  {
    var left := Left(s.calls[c], joined);
    var calls := s.calls[c := left];
    assert CancelOk(s.calls[c]);
    forall d | d in calls ensures CurrentOk(d, calls[d], Unloaded(s, c, left)) {
      assert CurrentOk(d, s.calls[d], s.loading) && CurrentOk(c, s.calls[c], s.loading);
    }
    forall r | r in s.slots ensures SlotOk(r, s.slots[r], calls, s.runs) {
      assert SlotOk(r, s.slots[r], s.calls, s.runs);
    }
  }

  /** Once both results are out and leaving needs no lock, the counts rest. */
  lemma RestingMore<K, V>(s: State<K, V>, c: nat, joined: bool)
    requires More(s) && c in s.calls && s.calls[c].joinedDone && !s.calls[c].stage.Undecided()
    ensures var left := Left(s.calls[c], joined);
            var calls := s.calls[c := left];
            CurrentInv(calls, Unloaded(s, c, left)) && CancelInv(calls) && SlotInv(s.slots, calls, s.runs)
  {
    var left := Left(s.calls[c], joined);
    var calls := s.calls[c := left];
    forall d | d in calls ensures CurrentOk(d, calls[d], Unloaded(s, c, left)) {
      assert CurrentOk(d, s.calls[d], s.loading);
    }
    forall r | r in s.slots ensures SlotOk(r, s.slots[r], calls, s.runs) {
      assert SlotOk(r, s.slots[r], s.calls, s.runs);
    }
  }

  lemma LeaveMore<K, V>(cfg: Config<K, V>, s: State<K, V>, a: Action<K, V>)
    requires Inv(cfg, s) && More(s) && Enabled(cfg, s, a) && a.Leave?
    ensures More(Next(cfg, s, a))
  {
    hide Inv, CurrentInv, CancelInv, SlotInv, AfterLeave, Left, Unloaded;
    LeaveShape(s, a.get, a.sawDone);
    var c := s.gets[a.get].phase.call;
    if !a.sawDone {
      LeaverCounts(cfg, s, a.get);
      if s.calls[c].joinedDone {
        RestingMore(s, c, s.gets[a.get].phase.joined);
      } else {
        LeftMore(s, c, s.gets[a.get].phase.joined);
      }
    }
  }

  /** Who leaves a call is counted in it. */
  lemma LeaverCounts<K, V>(cfg: Config<K, V>, s: State<K, V>, g: nat)
    requires Inv(cfg, s) && g in s.gets && s.gets[g].phase.Leaving? && s.gets[g].phase.call in s.calls
    ensures var c, joined := s.gets[g].phase.call, s.gets[g].phase.joined;
            && (!s.calls[c].joinedDone ==> s.calls[c].waiters > 0 && s.calls[c].joiners >= (if joined then 1 else 0))
            && (s.calls[c].joinedDone ==> !s.calls[c].stage.Undecided())
  {
    hide StoreInv, LoadingInv, GetInv;
    var c := s.gets[g].phase.call;
    assert CountOk(cfg, c, s.calls[c], s.gets) && CallOk(c, s.calls[c], s.slots, s.runs);
    assert g in Waiters(s.gets, c);
    if s.gets[g].phase.joined {
      assert g in Joiners(s.gets, c);
    }
  }

  // ----- more that every step keeps: loads -----

  /** The stored key comes first, and the keys that fit stay. */
  ghost predicate IsStored<K, V>(cfg: Config<K, V>, s: State<K, V>, u: State<K, V>, key: K, l: Loaded<V>) {
    && u.order == Fitting([key] + s.order, cfg.capacity)
    && var entries := s.entries[key := l]; u.entries == map k | k in entries && k in u.order :: entries[k]
  }

  lemma StoredShape<K, V>(cfg: Config<K, V>, s: State<K, V>, key: K, l: Loaded<V>)
    ensures var u := Stored(cfg, s, key, l);
            && IsStored(cfg, s, u, key, l)
            && u.slots == s.slots && u.runs == s.runs && u.gets == s.gets && u.parentDone == s.parentDone
            && u.calls == s.calls && u.loading == s.loading
  {
    hide Fitting;
  }

  lemma StoredOver<K, V>(cfg: Config<K, V>, s: State<K, V>, t: State<K, V>, u: State<K, V>, v: State<K, V>, key: K, l: Loaded<V>)
    requires IsStored(cfg, t, u, key, l) && t.entries == s.entries && t.order == s.order && v.entries == u.entries && v.order == u.order
    ensures IsStored(cfg, s, v, key, l)
  {
    hide Fitting;
  }

  lemma DecideShape<K, V>(cfg: Config<K, V>, s: State<K, V>, c: nat)
    requires c in s.calls
    ensures var u, call := AfterDecide(cfg, s, c), s.calls[c];
            && u.slots == s.slots && u.runs == s.runs && u.gets == s.gets && u.parentDone == s.parentDone
            && u.calls == s.calls[c := Decided(call, Keeps(cfg, s, c), Rejects(s, call, false))]
            && u.loading == (if call.key in s.loading && s.loading[call.key] == c then s.loading - {call.key} else s.loading)
            && (if Keeps(cfg, s, c) then call.result.Value? && IsStored(cfg, s, u, call.key, call.result.loaded)
                else u.order == s.order && u.entries == s.entries)
  {
    hide Decided, Rejects, Fitting, Stored, IsStored;
    var call := s.calls[c];
    if Keeps(cfg, s, c) {
      var released := s.(loading := s.loading - {call.key});
      StoredShape(cfg, released, call.key, call.result.loaded);
      StoredOver(cfg, s, released, Stored(cfg, released, call.key, call.result.loaded), AfterDecide(cfg, s, c), call.key, call.result.loaded);
    }
  }

  lemma DecidedBooks<K, V>(call: Call<K, V>, kept: bool, rejected: bool)
    ensures var decided := Decided(call, kept, rejected);
            && decided.key == call.key && decided.waiters == call.waiters && decided.joiners == call.joiners
            && decided.cancelled == call.cancelled && decided.stage == Publishing && decided.joinedDone == call.joinedDone
            && (decided.again <==> !rejected && call.result.Value? && !kept && call.joiners > 0)
  {
  }

  lemma DecidedFirst<K, V>(cfg: Config<K, V>, s: State<K, V>, a: Action<K, V>)
    requires Inv(cfg, s) && Enabled(cfg, s, a) && a.Decide?
    ensures a.call in s.calls && !s.calls[a.call].again && !s.calls[a.call].joinedDone && s.calls[a.call].stage.Deciding?
  {
    hide StoreInv, CountInv, GetInv;
    assert CallOk(a.call, s.calls[a.call], s.slots, s.runs);
  }

  lemma DecideMore<K, V>(cfg: Config<K, V>, s: State<K, V>, a: Action<K, V>)
    requires More(s) && Enabled(cfg, s, a) && a.Decide? && !s.calls[a.call].again
    ensures More(Next(cfg, s, a))
  {
    hide AfterDecide, Decided, Keeps, Rejects, IsStored;
    var c := a.call;
    DecideShape(cfg, s, c);
    var u := Next(cfg, s, a);
    DecidedBooks(s.calls[c], Keeps(cfg, s, c), Rejects(s, s.calls[c], false));
    ReleasedMore(s, c, u.calls[c]);
  }

  /** The decided call is no longer its key's load. */
  lemma ReleasedMore<K, V>(s: State<K, V>, c: nat, decided: Call<K, V>)
    requires More(s) && c in s.calls && !s.calls[c].stage.Holding? && !s.calls[c].again
    requires var call := s.calls[c];
             && decided.key == call.key && decided.waiters == call.waiters && decided.joiners == call.joiners
             && decided.cancelled == call.cancelled && !decided.stage.Undecided() && decided.joinedDone == call.joinedDone
             && (decided.again ==> call.joiners > 0)
    ensures var call, calls := s.calls[c], s.calls[c := decided];
            var loading := if call.key in s.loading && s.loading[call.key] == c then s.loading - {call.key} else s.loading;
            CurrentInv(calls, loading) && CancelInv(calls) && SlotInv(s.slots, calls, s.runs)
  {
    var call, calls := s.calls[c], s.calls[c := decided];
    var loading := if call.key in s.loading && s.loading[call.key] == c then s.loading - {call.key} else s.loading;
    assert CancelOk(call);
    forall d | d in calls ensures CurrentOk(d, calls[d], loading) {
      assert CurrentOk(d, s.calls[d], s.loading);
    }
    forall r | r in s.slots ensures SlotOk(r, s.slots[r], calls, s.runs) {
      assert SlotOk(r, s.slots[r], s.calls, s.runs);
    }
  }

  lemma RefusedShape<K, V>(s: State<K, V>, c: nat, expired: bool)
    requires c in s.calls && s.calls[c].stage.Holding? && Rejects(s, s.calls[c], expired)
    ensures var u, call := AfterLaunch(s, c, expired), s.calls[c];
            && u.loading == s.loading && u.gets == s.gets && u.entries == s.entries && u.order == s.order && u.parentDone == s.parentDone
            && u.calls == s.calls[c := Record(call, Failed, Settling(call.stage.second))]
            && u.slots == s.slots - {call.stage.run} && u.runs == s.runs
  {
    hide Rejects, Record, MoveCall;
    MovedShape(s, c, Record(s.calls[c], Failed, Settling(s.calls[c].stage.second)));
  }

  lemma LaunchedShape<K, V>(s: State<K, V>, c: nat, expired: bool)
    requires c in s.calls && s.calls[c].stage.Holding? && !Rejects(s, s.calls[c], expired)
    ensures var u, r, call := AfterLaunch(s, c, expired), s.calls[c].stage.run, s.calls[c];
            && u.loading == s.loading && u.gets == s.gets && u.entries == s.entries && u.order == s.order && u.parentDone == s.parentDone
            && u.calls == s.calls[c := call.(stage := Loading(call.stage.second, r))]
            && u.slots == s.slots && u.runs == s.runs[r := Run(call.key, s.clock, None)]
  {
    hide Rejects, Record, MoveCall;
    var r, call := s.calls[c].stage.run, s.calls[c];
    MovedShape(s.(runs := s.runs[r := Run(call.key, s.clock, None)]), c, call.(stage := Loading(call.stage.second, r)));
  }

  lemma LaunchedBooks<K, V>(call: Call<K, V>, r: nat)
    requires call.stage.Holding?
    ensures SameBooksBut(call, Record(call, Failed, Settling(call.stage.second))) && SameBooksBut(call, call.(stage := Loading(call.stage.second, r)))
    ensures !Record(call, Failed, Settling(call.stage.second)).stage.Holding?
  {
  }

  lemma LaunchMore<K, V>(cfg: Config<K, V>, s: State<K, V>, a: Action<K, V>)
    requires More(s) && Enabled(cfg, s, a) && a.Launch?
    ensures More(Next(cfg, s, a))
  {
    hide AfterLaunch, Rejects, CurrentInv, CancelInv, Record, SameBooksBut;
    if Rejects(s, s.calls[a.call], a.expired) {
      RefusedShape(s, a.call, a.expired);
    } else {
      LaunchedShape(s, a.call, a.expired);
    }
    LaunchedBooks(s.calls[a.call], s.calls[a.call].stage.run);
    var u, c := Next(cfg, s, a), a.call;
    LoadStepCurrent(s, c, u.calls[c]);
    forall r | r in u.slots ensures SlotOk(r, u.slots[r], u.calls, u.runs) {
      assert SlotOk(r, s.slots[r], s.calls, s.runs);
    }
  }

  /** The steps of loaders, the clock and the parent, and of callers alone. */
  lemma PlainShape<K, V>(cfg: Config<K, V>, s: State<K, V>, a: Action<K, V>)
    requires Enabled(cfg, s, a) && (a.Begin? || a.Wake? || a.GiveUp? || a.LoaderReturns? || a.Release? || a.Shutdown? || a.Tick?)
    ensures var u := Next(cfg, s, a);
            && u.calls == s.calls && u.loading == s.loading && u.entries == s.entries && u.order == s.order && u.runs.Keys == s.runs.Keys
            && u.slots == if a.Release? then s.slots - {a.run} else s.slots
  {
    hide Woken, Ended;
  }

  lemma PlainMore<K, V>(cfg: Config<K, V>, s: State<K, V>, a: Action<K, V>)
    requires More(s) && Enabled(cfg, s, a) && (a.Begin? || a.Wake? || a.GiveUp? || a.LoaderReturns? || a.Release? || a.Shutdown? || a.Tick?)
    ensures More(Next(cfg, s, a))
  {
    hide Next, CurrentInv, CancelInv;
    PlainShape(cfg, s, a);
    var u := Next(cfg, s, a);
    forall r | r in u.slots ensures SlotOk(r, u.slots[r], u.calls, u.runs) {
      assert SlotOk(r, s.slots[r], s.calls, s.runs);
    }
  }

  lemma MoreKept<K, V>(cfg: Config<K, V>, s: State<K, V>, a: Action<K, V>)
    requires Inv(cfg, s) && More(s) && Enabled(cfg, s, a)
    ensures More(Next(cfg, s, a))
  {
    hide Inv, More, Next;
    if OfLoad(a) {
      LoadStepMore(cfg, s, a);
    } else if a.Enter? {
      EnterMore(cfg, s, a);
    } else if a.Leave? {
      LeaveMore(cfg, s, a);
    } else if a.Decide? {
      assert !s.calls[a.call].again by { DecidedFirst(cfg, s, a); }
      DecideMore(cfg, s, a);
    } else if a.Launch? {
      LaunchMore(cfg, s, a);
    } else {
      PlainMore(cfg, s, a);
    }
  }

  lemma InitMore<K, V>()
    ensures More<K, V>(Init())
  {
  }

  lemma RunMore<K, V>(cfg: Config<K, V>, trace: seq<State<K, V>>, actions: seq<Action<K, V>>, n: nat)
    requires IsRun(cfg, trace, actions) && n < |trace|
    ensures Inv(cfg, trace[n]) && More(trace[n])
  {
    hide Inv, More, Next, Enabled, Init, SourceInv, GetsDated, RunsDated;
    InitMore<K, V>();
    var i := 0;
    while i < n
      invariant i <= n && More(trace[i])
    {
      RunLawful(cfg, trace, actions, i);
      assert StepAt(cfg, trace, actions, i);
      MoreKept(cfg, trace[i], actions[i]);
      i := i + 1;
    }
    RunLawful(cfg, trace, actions, n);
  }

  // ----- one load a key, which callers join -----

  /** A load that callers may join is the one registered for its key. */
  lemma OpenIsCurrent<K, V>(cfg: Config<K, V>, s: State<K, V>, key: K, c: nat)
    requires Inv(cfg, s) && More(s) && OpenLoad(s, key, c)
    ensures key in s.loading && s.loading[key] == c && !s.calls[c].cancelled
  {
    hide StoreInv, LoadingInv, GetInv, SlotInv;
    assert CurrentOk(c, s.calls[c], s.loading) && CancelOk(s.calls[c]);
    assert CountOk(cfg, c, s.calls[c], s.gets) && CallOk(c, s.calls[c], s.slots, s.runs);
    var g :| g in s.gets && s.gets[g].phase.On(c);
    assert g in Waiters(s.gets, c);
  }

  lemma CurrentIsOpen<K, V>(cfg: Config<K, V>, s: State<K, V>, key: K)
    requires Inv(cfg, s) && key in s.loading
    ensures OpenLoad(s, key, s.loading[key])
  {
    hide Inv;
    LoadingFacts(cfg, s, key);
  }

  // ----- what is stored -----

  /** Step n stores the key's value. */
  ghost predicate StoresAt<K, V>(trace: seq<State<K, V>>, actions: seq<Action<K, V>>, n: nat, key: K)
    requires n < |actions| && n + 1 < |trace|
  {
    actions[n].Decide? && key !in trace[n].entries && key in trace[n + 1].entries
  }

  lemma KeepsWhen<K, V>(cfg: Config<K, V>, s: State<K, V>, c: nat)
    requires Inv(cfg, s) && More(s) && c in s.calls && s.calls[c].stage.Deciding?
    ensures Attended(s.gets, c) ==>
              (Keeps(cfg, s, c) <==> s.calls[c].result.Value? && cfg.keep(s.calls[c].key, s.calls[c].result.loaded.value) && !s.parentDone)
              && (Rejects(s, s.calls[c], false) <==> s.parentDone)
    ensures !Attended(s.gets, c) ==> !Keeps(cfg, s, c)
    ensures Keeps(cfg, s, c) ==> s.calls[c].key !in s.entries
  {
    if s.calls[c].key in s.loading {
      LoadingFacts(cfg, s, s.calls[c].key);
    }
    if Attended(s.gets, c) {
      assert OpenLoad(s, s.calls[c].key, c);
      OpenIsCurrent(cfg, s, s.calls[c].key, c);
    }
  }

  lemma FrontFits<K, V>(cfg: Config<K, V>, s: State<K, V>, u: State<K, V>, key: K, l: Loaded<V>)
    requires cfg.Valid() && IsStored(cfg, s, u, key, l)
    ensures key in u.order && key in u.entries && u.entries[key] == l
    ensures forall k :: k in s.entries && k in u.entries && k != key ==> u.entries[k] == s.entries[k]
    ensures forall k :: k in u.entries ==> k in s.entries || k == key
  {
    assert u.order[0] == key;
  }

  lemma JoinersCounted<K, V>(cfg: Config<K, V>, s: State<K, V>, c: nat)
    requires Inv(cfg, s) && c in s.calls && !s.calls[c].joinedDone
    ensures s.calls[c].joiners > 0 <==> !NoJoiners(s.gets, c)
    ensures s.calls[c].waiters > 0 <==> Attended(s.gets, c)
  {
    hide StoreInv, LoadingInv, CallsInv, GetInv;
    assert CountOk(cfg, c, s.calls[c], s.gets);
    EmptyCounts(cfg, c, s.calls[c], s.gets);
    if !NoJoiners(s.gets, c) {
      var g :| g in s.gets && s.gets[g].phase.On(c) && s.gets[g].phase.joined;
      assert g in Joiners(s.gets, c);
    }
    if Attended(s.gets, c) {
      var g :| g in s.gets && s.gets[g].phase.On(c);
      assert g in Waiters(s.gets, c);
    }
  }

  // ----- which entry leaves -----

  /** The key that step n uses: found by a Get, or stored. */
  ghost function UsedAt<K, V>(trace: seq<State<K, V>>, actions: seq<Action<K, V>>, n: nat): Option<K>
    requires n < |actions| && n + 1 < |trace|
  {
    match actions[n]
    case Enter(g, live, _) =>
      if live && g in trace[n].gets && trace[n].gets[g].key in trace[n].entries then Some(trace[n].gets[g].key) else None
    case Decide(c) => if c in trace[n].calls && StoresAt(trace, actions, n, trace[n].calls[c].key) then Some(trace[n].calls[c].key) else None
    case _ => None
  }

  ghost function Uses<K, V>(trace: seq<State<K, V>>, actions: seq<Action<K, V>>, n: nat): seq<Option<K>>
    requires n <= |actions| < |trace|
  {
    if n == 0 then [] else Uses(trace, actions, n - 1) + [UsedAt(trace, actions, n - 1)]
  }

  /** The list after a step, in terms of the list before and the key used. */
  lemma OrderStep<K, V>(cfg: Config<K, V>, trace: seq<State<K, V>>, actions: seq<Action<K, V>>, n: nat)
    requires cfg.Valid() && n < |actions| < |trace| && StepAt(cfg, trace, actions, n) && Inv(cfg, trace[n]) && More(trace[n])
    ensures var s, u, used := trace[n], trace[n + 1], UsedAt(trace, actions, n);
            || (used == None && (u.order == s.order || exists key :: u.order == Without(s.order, key)))
            || (used.Some? && used.value in s.order && u.order == [used.value] + Without(s.order, used.value))
            || (used.Some? && used.value !in s.order && StoresAt(trace, actions, n, used.value) && u.order == Fitting([used.value] + s.order, cfg.capacity))
  {
    var s, u, a := trace[n], trace[n + 1], actions[n];
    hide Inv, More, Next, IsStored, Keeps, Rejects, Decided, NewCall, Joined, MovedCall, Without;
    if OfLoad(a) {
      LoadStepShape(cfg, s, a);
    } else if a.Enter? {
      EnterOrder(cfg, s, a);
    } else if a.Leave? {
      LeaveOrder(cfg, s, a);
    } else if a.Decide? {
      DecideOrder(cfg, s, u, a);
    } else if a.Launch? {
      LaunchOrder(cfg, s, a);
    } else {
      PlainShape(cfg, s, a);
    }
  }

  lemma EnterOrder<K, V>(cfg: Config<K, V>, s: State<K, V>, a: Action<K, V>)
    requires Inv(cfg, s) && Enabled(cfg, s, a) && a.Enter?
    ensures var u, key := Next(cfg, s, a), s.gets[a.get].key;
            if key in s.entries && a.live then key in s.order && u.order == [key] + Without(s.order, key) && u.entries == s.entries
            else (u.order == s.order || u.order == Without(s.order, key)) && u.entries == s.entries - {key}
  {
    hide LoadingInv, CallsInv, CountInv, GetInv, Without, AfterEnter;
    EnterShape(s, a.get, a.live, a.call);
  }

  lemma LeaveOrder<K, V>(cfg: Config<K, V>, s: State<K, V>, a: Action<K, V>)
    requires Enabled(cfg, s, a) && a.Leave?
    ensures Next(cfg, s, a).order == s.order && Next(cfg, s, a).entries == s.entries
  {
    hide AfterLeave, Left, Unloaded;
    LeaveShape(s, a.get, a.sawDone);
  }

  lemma LaunchOrder<K, V>(cfg: Config<K, V>, s: State<K, V>, a: Action<K, V>)
    requires Enabled(cfg, s, a) && a.Launch?
    ensures Next(cfg, s, a).order == s.order && Next(cfg, s, a).entries == s.entries
  {
    hide AfterLaunch, Rejects, Record;
    if Rejects(s, s.calls[a.call], a.expired) {
      RefusedShape(s, a.call, a.expired);
    } else {
      LaunchedShape(s, a.call, a.expired);
    }
  }

  lemma DecideOrder<K, V>(cfg: Config<K, V>, s: State<K, V>, u: State<K, V>, a: Action<K, V>)
    requires cfg.Valid() && Inv(cfg, s) && More(s) && Enabled(cfg, s, a) && a.Decide? && u == Next(cfg, s, a)
    ensures var key := s.calls[a.call].key;
            if key !in s.entries && key in u.entries then
              key !in s.order && s.calls[a.call].result.Value? && IsStored(cfg, s, u, key, s.calls[a.call].result.loaded)
            else u.order == s.order && u.entries == s.entries
  {
    hide LoadingInv, CallsInv, CountInv, GetInv, More, AfterDecide, Decided, Keeps, Rejects, IsStored;
    DecideShape(cfg, s, a.call);
    KeepsWhen(cfg, s, a.call);
    if Keeps(cfg, s, a.call) {
      FrontFits(cfg, s, u, s.calls[a.call].key, s.calls[a.call].result.loaded);
    }
  }

  lemma NothingUsed<K>()
    ensures ByLastUse<K>([], [])
  {
  }

  lemma OrderKept<K, V>(cfg: Config<K, V>, order: seq<K>, after: seq<K>, uses: seq<Option<K>>, used: Option<K>)
    requires ByLastUse(order, uses)
    requires || (used == None && (after == order || exists key :: after == Without(order, key)))
             || (used.Some? && used.value in order && after == [used.value] + Without(order, used.value))
             || (used.Some? && used.value !in order && after == Fitting([used.value] + order, cfg.capacity))
    ensures ByLastUse(after, uses + [used])
  {
    hide ByLastUse, Without;
    if used == None {
      if after != order {
        var key :| after == Without(order, key);
        DroppedKey(order, uses, key);
      }
      NotUsed(after, uses, None);
    } else if used.value in order {
      DroppedKey(order, uses, used.value);
      InWithout(order, used.value, used.value);
      UsedFirst(Without(order, used.value), uses, used.value);
    } else {
      UsedFirst(order, uses, used.value);
      LatestFit([used.value] + order, uses + [used], Min(|order| + 1, cfg.capacity));
    }
  }

  /** Of a full list the last key goes. */
  lemma LastLeaves<K>(order: seq<K>, stored: K, capacity: nat, uses: seq<Option<K>>, key: K)
    requires ByLastUse(order, uses) && |order| <= capacity && key in order && key !in Fitting([stored] + order, capacity)
    ensures |order| == capacity && forall k :: k in order && k != key ==> LastUse(uses, k) > LastUse(uses, key)
  {
    hide LastUse;
    var i :| 0 <= i < |order| && order[i] == key;
    var all := [stored] + order;
    var fit := Fitting(all, capacity);
    assert all[i + 1] == key;
    assert forall x :: 0 <= x < |fit| ==> fit[x] == all[x] && fit[x] != key;
  }

  lemma OneLeaves<K, V>(cfg: Config<K, V>, s: State<K, V>, u: State<K, V>, stored: K, l: Loaded<V>, uses: seq<Option<K>>, key: K)
    requires cfg.Valid() && Inv(cfg, s) && ByLastUse(s.order, uses) && IsStored(cfg, s, u, stored, l) && stored !in s.entries
    requires key in s.entries && key !in u.entries
    ensures |s.entries| == cfg.capacity && forall k :: k in s.entries && k != key ==> LastUse(uses, k) > LastUse(uses, key)
  {
    hide LoadingInv, CallsInv, CountInv, GetInv, LastUse, ByLastUse, Fitting;
    StoreBounds(cfg, s.entries, s.order, s.loading);
    DistinctSize(s.order);
    assert |s.entries| == |s.entries.Keys| == |s.order|;
    LastLeaves(s.order, stored, cfg.capacity, uses, key);
  }

  lemma BooksAreCounts<K, V>(cfg: Config<K, V>, s: State<K, V>, c: nat)
    requires Inv(cfg, s) && c in s.calls && !s.calls[c].joinedDone
    ensures s.calls[c].waiters >= 0 && s.calls[c].joiners >= 0
  {
    hide StoreInv, LoadingInv, CallsInv, GetInv;
    assert CountOk(cfg, c, s.calls[c], s.gets);
  }

  /** The loader has given its slot back. */
  ghost predicate Released<K, V>(actions: seq<Action<K, V>>, n: nat, r: nat)
    requires n <= |actions|
  {
    exists i :: 0 <= i < n && actions[i] == Release(r)
  }

  lemma {:induction false} SlotsReleased<K, V>(cfg: Config<K, V>, trace: seq<State<K, V>>, actions: seq<Action<K, V>>, n: nat, r: nat)
    requires IsRun(cfg, trace, actions) && n < |trace|
    ensures r in trace[n].runs ==> (r in trace[n].slots <==> !Released(actions, n, r))
    ensures r !in trace[n].runs ==> !Released(actions, n, r)
  {
    hide Inv, More, Next, Enabled, Init;
    if n == 0 {
      assert r !in trace[0].runs by { NoRuns<K, V>(r); }
    } else {
      ghost var m: nat := n - 1;
      SlotsReleased(cfg, trace, actions, m, r);
      RunMore(cfg, trace, actions, m);
      assert StepAt(cfg, trace, actions, m);
      SlotStep(cfg, trace[m], actions[m], r);
      ReleasedNext(actions, m, r);
    }
  }

  lemma NoRuns<K, V>(r: nat)
    ensures r !in Init<K, V>().runs
  {
  }

  lemma ReleasedNext<K, V>(actions: seq<Action<K, V>>, n: nat, r: nat)
    requires n < |actions|
    ensures Released(actions, n + 1, r) <==> Released(actions, n, r) || actions[n] == Release(r)
  {
  }

  lemma SlotStep<K, V>(cfg: Config<K, V>, s: State<K, V>, a: Action<K, V>, r: nat)
    requires Inv(cfg, s) && Enabled(cfg, s, a)
    ensures var u := Next(cfg, s, a);
            && (r in s.runs ==> r in u.runs && (r in u.slots <==> r in s.slots && a != Release(r)))
            && (r !in s.runs && r in u.runs ==> r in u.slots && a != Release(r))
            && (r !in s.runs ==> a != Release(r))
  {
    hide Inv, Next, MovedCall, Rejects, Record;
    if OfLoad(a) {
      LoadStepShape(cfg, s, a);
    } else if a.Enter? {
      EnterSlots(cfg, s, a);
    } else if a.Leave? {
      LeaveSlots(cfg, s, a);
    } else if a.Decide? {
      DecideSlots(cfg, s, a);
    } else if a.Launch? {
      LaunchSlots(cfg, s, a);
    } else {
      PlainShape(cfg, s, a);
    }
  }

  lemma EnterSlots<K, V>(cfg: Config<K, V>, s: State<K, V>, a: Action<K, V>)
    requires Enabled(cfg, s, a) && a.Enter?
    ensures Next(cfg, s, a).slots == s.slots && Next(cfg, s, a).runs == s.runs
  {
    hide AfterEnter, Joined, NewCall, Without;
    EnterShape(s, a.get, a.live, a.call);
  }

  lemma LeaveSlots<K, V>(cfg: Config<K, V>, s: State<K, V>, a: Action<K, V>)
    requires Enabled(cfg, s, a) && a.Leave?
    ensures Next(cfg, s, a).slots == s.slots && Next(cfg, s, a).runs == s.runs
  {
    hide AfterLeave, Left, Unloaded;
    LeaveShape(s, a.get, a.sawDone);
  }

  lemma DecideSlots<K, V>(cfg: Config<K, V>, s: State<K, V>, a: Action<K, V>)
    requires Enabled(cfg, s, a) && a.Decide?
    ensures Next(cfg, s, a).slots == s.slots && Next(cfg, s, a).runs == s.runs
  {
    hide AfterDecide, Decided, Keeps, Rejects, IsStored;
    DecideShape(cfg, s, a.call);
  }

  /** The run that launches holds its slot, and one that is refused gives it back. */
  lemma LaunchSlots<K, V>(cfg: Config<K, V>, s: State<K, V>, a: Action<K, V>)
    requires Inv(cfg, s) && Enabled(cfg, s, a) && a.Launch?
    ensures var r, u := s.calls[a.call].stage.run, Next(cfg, s, a);
            r in s.slots && r !in s.runs && (r in u.runs <==> r in u.slots)
            && (forall x :: x in s.runs ==> x in u.runs && (x in u.slots <==> x in s.slots)) && u.runs.Keys <= s.runs.Keys + {r}
  {
    assert CallOk(a.call, s.calls[a.call], s.slots, s.runs);
    hide Inv, AfterLaunch, Rejects, Record;
    if Rejects(s, s.calls[a.call], a.expired) {
      RefusedShape(s, a.call, a.expired);
    } else {
      LaunchedShape(s, a.call, a.expired);
    }
  }
}
