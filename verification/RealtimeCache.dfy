/** The bounded cache that streams share (internal/realtime/cache.go):
    misses of one key at a time join one load, and a value that is not
    kept goes only to the caller that started the load, while the callers
    that joined it share one more, private load.

    Every critical section, channel operation and loader return is one step;
    callers, load goroutines and running loaders interleave freely. */
module RealtimeCache {
  import opened Common

  /** What one loader run returned, with the steps at which it began and ended. */
  datatype Loaded<+V> = Loaded(value: V, run: nat, began: nat, ended: nat)

  datatype Outcome<+V> = Value(loaded: Loaded<V>) | Failed

  /** Where the goroutine running a call's loads is. The stages of a run are
      passed once for the starter's load and, if the value was not kept,
      once more (`second`) for the joiners'. */
  datatype Stage =
    | Checking(second: bool)              // about to reject a cancelled context
    | Queued(second: bool)                // waiting for a loader slot
    | Holding(second: bool, run: nat)     // owns a slot, loader not started
    | Loading(second: bool, run: nat)     // waiting for the loader or the timeout
    | Settling(second: bool)              // result in place, last cancellation check
    | Deciding                            // about to decide retention under the lock
    | Publishing                          // about to close the starter's channel
    | PublishingJoined                    // about to close the joiners' channel
    | Finished
  {
    predicate Running() {
      Checking? || Queued? || Holding? || Loading? || Settling?
    }

    /** Before the decision: the call may still be joined. */
    predicate Undecided() {
      Deciding? || (Running() && !second)
    }
  }

  datatype Call<K, V> = Call(
    key: K, result: Outcome<V>, joinedResult: Outcome<V>, waiters: int, joiners: int,
    cancelled: bool, again: bool, done: bool, joinedDone: bool, stage: Stage)

  /** One execution of Get. A joiner waits for the joiners' channel. */
  datatype Phase<V> =
    | Begun
    | Waiting(call: nat, joined: bool)
    | Leaving(call: nat, joined: bool, result: Outcome<V>)
    | Returned(result: Outcome<V>)
  {
    predicate On(c: nat) {
      (Waiting? || Leaving?) && call == c
    }
  }

  datatype Getter<K, V> = Getter(key: K, start: nat, phase: Phase<V>)

  /** A loader run: `output` is what it returned, once it has. */
  datatype Run<K, V> = Run(key: K, began: nat, output: Option<Outcome<V>>)

  datatype Config<!K, !V> =
    Config(capacity: nat, maxLoads: nat, completedLeaves: bool, keep: (K, V) -> bool)
  {
    predicate Valid() {
      capacity >= 1 && maxLoads >= 1
    }
  }

  /** `slots` maps each occupied loader slot's run to the call it serves. */
  datatype State<K, V> = State(
    clock: nat, parentDone: bool,
    entries: map<K, Loaded<V>>, order: seq<K>, loading: map<K, nat>,
    calls: map<nat, Call<K, V>>, gets: map<nat, Getter<K, V>>,
    runs: map<nat, Run<K, V>>, slots: map<nat, nat>)

  datatype Action<K, V> =
    | Begin(get: nat, key: K)
    | Enter(get: nat, live: bool, call: nat)  // live: a stored entry has not expired
    | Wake(get: nat)                          // the awaited channel is closed
    | GiveUp(get: nat)                        // the caller's own context ended
    | Leave(get: nat, sawDone: bool)          // sawDone: both results were seen published, without the lock
    | Check(call: nat, expired: bool)         // expired: the load's timeout passed
    | Acquire(call: nat, run: nat)
    | Abandon(call: nat)                      // ended while queued or loading
    | Launch(call: nat, expired: bool)
    | LoaderReturns(run: nat, output: Option<V>)
    | Release(run: nat)
    | Receive(call: nat)
    | Settle(call: nat, expired: bool)
    | Decide(call: nat)
    | Publish(call: nat)
    | PublishJoined(call: nat)
    | Shutdown
    | Tick                                    // something else moved

  function Init<K(==), V>(): State<K, V> {
    State(0, false, map[], [], map[], map[], map[], map[], map[])
  }

  // ----- steps -----

  function NewCall<K, V>(key: K): Call<K, V> {
    Call(key, Failed, Failed, 1, 0, false, false, false, false, Checking(false))
  }

  /** Stores an outcome where the current run's waiters will read it. */
  function Record<K, V>(call: Call<K, V>, out: Outcome<V>, stage: Stage): Call<K, V>
    requires call.stage.Running()
  {
    if call.stage.second then call.(joinedResult := out, stage := stage)
    else call.(result := out, stage := stage)
  }

  predicate Rejects<K(==), V>(s: State<K, V>, call: Call<K, V>, expired: bool) {
    s.parentDone || call.cancelled || expired
  }

  /** A step of caller g alone. */
  function MoveGet<K(==), V>(s: State<K, V>, g: nat, get: Getter<K, V>): State<K, V> {
    s.(clock := s.clock + 1, gets := s.gets[g := get])
  }

  /** A step of the goroutine behind call c. */
  function MoveCall<K(==), V>(s: State<K, V>, c: nat, call: Call<K, V>): State<K, V> {
    s.(clock := s.clock + 1, calls := s.calls[c := call])
  }

  /** A critical section that moves caller g onto, or off, call c. */
  function MoveBoth<K(==), V>(s: State<K, V>, g: nat, phase: Phase<V>, c: nat, call: Call<K, V>,
                              loading: map<K, nat>): State<K, V>
    requires g in s.gets
  {
    s.(clock := s.clock + 1, gets := s.gets[g := s.gets[g].(phase := phase)],
       calls := s.calls[c := call], loading := loading)
  }

  /** Drops the key's expired entry, if there is one. */
  function Swept<K(==), V>(s: State<K, V>, key: K): State<K, V> {
    if key in s.entries then s.(entries := s.entries - {key}, order := Without(s.order, key)) else s
  }

  function ToFront<K(==), V>(s: State<K, V>, key: K): State<K, V> {
    s.(order := [key] + Without(s.order, key))
  }

  function Joined<K, V>(call: Call<K, V>): Call<K, V> {
    call.(joiners := call.joiners + 1, waiters := call.waiters + 1)
  }

  function AfterEnter<K(==), V>(s: State<K, V>, g: nat, live: bool, c: nat): State<K, V>
    requires g in s.gets && (s.gets[g].key in s.loading ==> s.loading[s.gets[g].key] in s.calls)
  {
    var get := s.gets[g];
    var key := get.key;
    if key in s.entries && live then
      MoveGet(ToFront(s, key), g, get.(phase := Returned(Value(s.entries[key]))))
    else if key in s.loading then
      var j := s.loading[key];
      MoveBoth(Swept(s, key), g, Waiting(j, true), j, Joined(s.calls[j]), s.loading)
    else
      MoveBoth(Swept(s, key), g, Waiting(c, false), c, NewCall(key), s.loading[key := c])
  }

  function Woken<K, V>(get: Getter<K, V>, call: Call<K, V>): Getter<K, V>
    requires get.phase.Waiting?
  {
    get.(phase := Leaving(get.phase.call, get.phase.joined,
                          if get.phase.joined then call.joinedResult else call.result))
  }

  /** The call once one of its callers has left, cancelled when nobody is
      left to wait for what it is still doing. */
  function Left<K, V>(call: Call<K, V>, joined: bool): Call<K, V> {
    var waiters := call.waiters - 1;
    var joiners := if joined then call.joiners - 1 else call.joiners;
    call.(waiters := waiters, joiners := joiners,
          cancelled := call.cancelled || waiters == 0 || (call.again && joiners == 0))
  }

  function Unloaded<K(==), V>(s: State<K, V>, c: nat, call: Call<K, V>): map<K, nat> {
    if call.waiters == 0 && call.key in s.loading && s.loading[call.key] == c
    then s.loading - {call.key} else s.loading
  }

  function AfterLeave<K(==), V>(s: State<K, V>, g: nat, sawDone: bool): State<K, V>
    requires g in s.gets && s.gets[g].phase.Leaving? && s.gets[g].phase.call in s.calls
  {
    var phase := s.gets[g].phase;
    var c := phase.call;
    if sawDone then
      MoveGet(s, g, s.gets[g].(phase := Returned(phase.result)))
    else
      var left := Left(s.calls[c], phase.joined);
      MoveBoth(s, g, Returned(phase.result), c, left, Unloaded(s, c, left))
  }

  predicate Keeps<K(==), V>(cfg: Config<K, V>, s: State<K, V>, c: nat)
    requires c in s.calls
  {
    var call := s.calls[c];
    && call.key in s.loading && s.loading[call.key] == c
    && call.result.Value?
    && cfg.keep(call.key, call.result.loaded.value)
    && !Rejects(s, call, false)
  }

  function Decided<K(==), V>(call: Call<K, V>, kept: bool, rejected: bool): Call<K, V> {
    var checked := if rejected then call.(result := Failed) else call;
    checked.(again := checked.result.Value? && !kept && call.joiners > 0, stage := Publishing)
  }

  /** The most recent keys that fit. */
  function Fitting<K>(order: seq<K>, capacity: nat): seq<K> {
    order[..Min(|order|, capacity)]
  }

  function Stored<K(==), V>(cfg: Config<K, V>, s: State<K, V>, key: K, l: Loaded<V>): State<K, V> {
    var order := Fitting([key] + s.order, cfg.capacity);
    var entries := s.entries[key := l];
    s.(order := order, entries := map k | k in entries && k in order :: entries[k])
  }

  function AfterDecide<K(==), V>(cfg: Config<K, V>, s: State<K, V>, c: nat): State<K, V>
    requires c in s.calls
  {
    var call := s.calls[c];
    var kept := Keeps(cfg, s, c);
    var current := call.key in s.loading && s.loading[call.key] == c;
    var released := s.(loading := if current then s.loading - {call.key} else s.loading);
    MoveCall(if kept then Stored(cfg, released, call.key, call.result.loaded) else released,
             c, Decided(call, kept, Rejects(s, call, false)))
  }

  function Checked<K, V>(call: Call<K, V>, rejected: bool): Call<K, V>
    requires call.stage.Checking?
  {
    if rejected then Record(call, Failed, Settling(call.stage.second))
    else call.(stage := Queued(call.stage.second))
  }

  function Settled<K, V>(call: Call<K, V>, rejected: bool): Call<K, V>
    requires call.stage.Settling?
  {
    var stage := if call.stage.second then PublishingJoined else Deciding;
    if rejected then Record(call, Failed, stage) else call.(stage := stage)
  }

  function Published<K, V>(call: Call<K, V>): Call<K, V> {
    if call.again then call.(done := true, stage := Checking(true))
    else call.(done := true, joinedResult := call.result, stage := PublishingJoined)
  }

  function AfterLaunch<K(==), V>(s: State<K, V>, c: nat, expired: bool): State<K, V>
    requires c in s.calls && s.calls[c].stage.Holding?
  {
    var call, r := s.calls[c], s.calls[c].stage.run;
    if Rejects(s, call, expired) then
      MoveCall(s, c, Record(call, Failed, Settling(call.stage.second))).(slots := s.slots - {r})
    else
      MoveCall(s.(runs := s.runs[r := Run(call.key, s.clock, None)]), c,
               call.(stage := Loading(call.stage.second, r)))
  }

  function Ended<K, V>(run: Run<K, V>, r: nat, output: Option<V>, clock: nat): Run<K, V> {
    run.(output := Some(if output.Some? then Value(Loaded(output.value, r, run.began, clock)) else Failed))
  }

  /** The step can happen: the caller or goroutine is at that point, and a
      wait it ends is over. */
  predicate Enabled<K(==), V>(cfg: Config<K, V>, s: State<K, V>, a: Action<K, V>) {
    match a
    case Begin(g, key) => g !in s.gets && !s.parentDone
    case Enter(g, live, c) =>
      && g in s.gets && s.gets[g].phase.Begun? && c !in s.calls
      && (s.gets[g].key in s.loading ==> s.loading[s.gets[g].key] in s.calls)
    case Wake(g) =>
      && g in s.gets && s.gets[g].phase.Waiting? && s.gets[g].phase.call in s.calls
      && var call := s.calls[s.gets[g].phase.call];
         if s.gets[g].phase.joined then call.joinedDone else call.done
    case GiveUp(g) => g in s.gets && s.gets[g].phase.Waiting?
    case Leave(g, sawDone) =>
      && g in s.gets && s.gets[g].phase.Leaving? && s.gets[g].phase.call in s.calls
      && (sawDone ==> cfg.completedLeaves && s.calls[s.gets[g].phase.call].joinedDone)
    case Check(c, _) => c in s.calls && s.calls[c].stage.Checking?
    case Acquire(c, r) =>
      && c in s.calls && s.calls[c].stage.Queued?
      && |s.slots| < cfg.maxLoads && r !in s.slots && r !in s.runs
    case Abandon(c) => c in s.calls && (s.calls[c].stage.Queued? || s.calls[c].stage.Loading?)
    case Launch(c, _) => c in s.calls && s.calls[c].stage.Holding?
    case LoaderReturns(r, _) => r in s.runs && s.runs[r].output.None?
    case Release(r) => r in s.runs && s.runs[r].output.Some? && r in s.slots
    case Receive(c) =>
      && c in s.calls && s.calls[c].stage.Loading? && s.calls[c].stage.run in s.runs
      && s.runs[s.calls[c].stage.run].output.Some?
    case Settle(c, _) => c in s.calls && s.calls[c].stage.Settling?
    case Decide(c) => c in s.calls && s.calls[c].stage.Deciding?
    case Publish(c) => c in s.calls && s.calls[c].stage.Publishing?
    case PublishJoined(c) => c in s.calls && s.calls[c].stage.PublishingJoined?
    case Shutdown => true
    case Tick => true
  }

  function Next<K(==), V>(cfg: Config<K, V>, s: State<K, V>, a: Action<K, V>): State<K, V>
    requires Enabled(cfg, s, a)
  {
    match a
    case Begin(g, key) => MoveGet(s, g, Getter(key, s.clock, Begun))
    case Enter(g, live, c) => AfterEnter(s, g, live, c)
    case Wake(g) => MoveGet(s, g, Woken(s.gets[g], s.calls[s.gets[g].phase.call]))
    case GiveUp(g) =>
      var get := s.gets[g];
      MoveGet(s, g, get.(phase := Leaving(get.phase.call, get.phase.joined, Failed)))
    case Leave(g, sawDone) => AfterLeave(s, g, sawDone)
    case Check(c, expired) => MoveCall(s, c, Checked(s.calls[c], Rejects(s, s.calls[c], expired)))
    case Acquire(c, r) =>
      MoveCall(s.(slots := s.slots[r := c]), c, s.calls[c].(stage := Holding(s.calls[c].stage.second, r)))
    case Abandon(c) => MoveCall(s, c, Record(s.calls[c], Failed, Settling(s.calls[c].stage.second)))
    case Launch(c, expired) => AfterLaunch(s, c, expired)
    case LoaderReturns(r, output) =>
      s.(clock := s.clock + 1, runs := s.runs[r := Ended(s.runs[r], r, output, s.clock)])
    case Release(r) => s.(clock := s.clock + 1, slots := s.slots - {r})
    case Receive(c) =>
      var call := s.calls[c];
      MoveCall(s, c, Record(call, s.runs[call.stage.run].output.value, Settling(call.stage.second)))
    case Settle(c, expired) => MoveCall(s, c, Settled(s.calls[c], Rejects(s, s.calls[c], expired)))
    case Decide(c) => AfterDecide(cfg, s, c)
    case Publish(c) => MoveCall(s, c, Published(s.calls[c]))
    case PublishJoined(c) => MoveCall(s, c, s.calls[c].(joinedDone := true, stage := Finished))
    case Shutdown => s.(clock := s.clock + 1, parentDone := true)
    case Tick => s.(clock := s.clock + 1)
  }

  // ----- what every step keeps -----

  ghost function Waiters<K, V>(gets: map<nat, Getter<K, V>>, c: nat): set<nat> {
    set g | g in gets && gets[g].phase.On(c)
  }

  ghost function Joiners<K, V>(gets: map<nat, Getter<K, V>>, c: nat): set<nat> {
    set g | g in gets && gets[g].phase.On(c) && gets[g].phase.joined
  }

  /** The freshness promise: a value was accepted by keep, or its loader run
      began after the Get that returns it. */
  ghost predicate Good<K, V>(cfg: Config<K, V>, get: Getter<K, V>, out: Outcome<V>) {
    out.Value? ==> cfg.keep(get.key, out.loaded.value) || get.start < out.loaded.began
  }

  ghost predicate StoreInv<K, V>(cfg: Config<K, V>, entries: map<K, Loaded<V>>, order: seq<K>, loading: map<K, nat>) {
    && Distinct(order)
    && |order| <= cfg.capacity
    && (forall k :: k in order ==> k in entries)
    && (forall k :: k in entries ==> k in order && k !in loading && cfg.keep(k, entries[k].value))
  }

  ghost predicate LoadingInv<K, V>(loading: map<K, nat>, calls: map<nat, Call<K, V>>) {
    forall k :: k in loading ==>
      && loading[k] in calls && calls[loading[k]].key == k
      && calls[loading[k]].stage.Undecided() && calls[loading[k]].waiters > 0
  }

  /** The channels, the second load and the slot of a call follow its stage. */
  ghost predicate CallOk<K, V>(c: nat, call: Call<K, V>, slots: map<nat, nat>, runs: map<nat, Run<K, V>>) {
    && (call.stage.Undecided() ==> !call.again)
    && (call.done <==> !call.stage.Undecided() && !call.stage.Publishing?)
    && (call.joinedDone <==> call.stage.Finished?)
    && (call.stage.Running() && call.stage.second ==> call.again)
    && (call.stage.PublishingJoined? || call.stage.Finished? ==> call.again || call.joinedResult == call.result)
    && (call.stage.Holding? ==>
          call.stage.run in slots && slots[call.stage.run] == c && call.stage.run !in runs)
    && (call.stage.Loading? ==> call.stage.run in runs)
  }

  ghost predicate RunOk<K, V>(r: nat, run: Run<K, V>, slots: map<nat, nat>) {
    && (run.output.None? ==> r in slots)
    && (run.output.Some? && run.output.value.Value? ==> run.output.value.loaded.began == run.began)
  }

  ghost predicate CountOk<K, V>(cfg: Config<K, V>, c: nat, call: Call<K, V>, gets: map<nat, Getter<K, V>>) {
    (cfg.completedLeaves && call.joinedDone) ||
    (call.waiters == |Waiters(gets, c)| && call.joiners == |Joiners(gets, c)|)
  }

  ghost predicate SecondEnded<K, V>(call: Call<K, V>) {
    call.again && (call.stage == Settling(true) || call.stage.PublishingJoined? || call.stage.Finished?)
  }

  /** How a caller on a call relates to that call's runs and results. */
  ghost predicate OnCall<K, V>(cfg: Config<K, V>, get: Getter<K, V>, joined: bool, call: Call<K, V>,
                               runs: map<nat, Run<K, V>>)
  {
    && get.key == call.key
    && (!joined && call.result.Value? ==> get.start < call.result.loaded.began)
    && (call.stage.Loading? && call.stage.run in runs && (call.stage.second || !joined) ==>
          get.start < runs[call.stage.run].began)
    && (SecondEnded(call) && call.joinedResult.Value? ==> get.start < call.joinedResult.loaded.began)
    && (joined && !call.stage.Undecided() && !call.again && call.result.Value? ==>
          cfg.keep(call.key, call.result.loaded.value))
  }

  ghost predicate GetOk<K, V>(cfg: Config<K, V>, get: Getter<K, V>, clock: nat, calls: map<nat, Call<K, V>>,
                              runs: map<nat, Run<K, V>>)
  {
    && get.start < clock
    && (get.phase.Waiting? || get.phase.Leaving? ==>
          get.phase.call in calls && OnCall(cfg, get, get.phase.joined, calls[get.phase.call], runs))
    && (get.phase.Leaving? || get.phase.Returned? ==> Good(cfg, get, get.phase.result))
  }

  ghost predicate CallsInv<K, V>(calls: map<nat, Call<K, V>>, slots: map<nat, nat>, runs: map<nat, Run<K, V>>) {
    && (forall c :: c in calls ==> CallOk(c, calls[c], slots, runs))
    && (forall r :: r in runs ==> RunOk(r, runs[r], slots))
  }

  ghost predicate CountInv<K, V>(cfg: Config<K, V>, calls: map<nat, Call<K, V>>, gets: map<nat, Getter<K, V>>) {
    forall c :: c in calls ==> CountOk(cfg, c, calls[c], gets)
  }

  ghost predicate GetInv<K, V>(cfg: Config<K, V>, gets: map<nat, Getter<K, V>>, clock: nat,
                               calls: map<nat, Call<K, V>>, runs: map<nat, Run<K, V>>)
  {
    forall g :: g in gets ==> GetOk(cfg, gets[g], clock, calls, runs)
  }

  ghost predicate Inv<K, V>(cfg: Config<K, V>, s: State<K, V>) {
    && StoreInv(cfg, s.entries, s.order, s.loading)
    && LoadingInv(s.loading, s.calls)
    && |s.slots| <= cfg.maxLoads
    && CallsInv(s.calls, s.slots, s.runs)
    && CountInv(cfg, s.calls, s.gets)
    && GetInv(cfg, s.gets, s.clock, s.calls, s.runs)
  }

  // ----- proofs, one kind of change at a time -----

  lemma Aged<K, V>(cfg: Config<K, V>, gets: map<nat, Getter<K, V>>, clock: nat,
                   calls: map<nat, Call<K, V>>, runs: map<nat, Run<K, V>>)
    requires GetInv(cfg, gets, clock, calls, runs)
    ensures GetInv(cfg, gets, clock + 1, calls, runs)
  {
    hide OnCall, Good;
  }

  /** One caller's phase change moves that caller alone. */
  lemma Recounted<K, V>(gets: map<nat, Getter<K, V>>, g: nat, get: Getter<K, V>)
    ensures forall c :: Waiters(gets[g := get], c) ==
                        if get.phase.On(c) then Waiters(gets, c) + {g} else Waiters(gets, c) - {g}
    ensures forall c :: Joiners(gets[g := get], c) ==
                        if get.phase.On(c) && get.phase.joined then Joiners(gets, c) + {g} else Joiners(gets, c) - {g}
  {
  }

  ghost predicate SameCall<V>(a: Phase<V>, b: Phase<V>) {
    && (a.Waiting? || a.Leaving? <==> b.Waiting? || b.Leaving?)
    && (a.Waiting? || a.Leaving? ==> a.call == b.call && a.joined == b.joined)
  }

  lemma SameCounts<K, V>(cfg: Config<K, V>, calls: map<nat, Call<K, V>>, gets: map<nat, Getter<K, V>>, g: nat,
                         get: Getter<K, V>)
    requires CountInv(cfg, calls, gets)
    requires SameCall(get.phase, if g in gets then gets[g].phase else Begun)
    ensures CountInv(cfg, calls, gets[g := get])
  {
    forall c ensures Waiters(gets[g := get], c) == Waiters(gets, c) && Joiners(gets[g := get], c) == Joiners(gets, c) {
    }
  }

  lemma MoveGetKept<K, V>(cfg: Config<K, V>, s: State<K, V>, g: nat, get: Getter<K, V>)
    requires Inv(cfg, s) && GetOk(cfg, get, s.clock + 1, s.calls, s.runs)
    requires SameCall(get.phase, if g in s.gets then s.gets[g].phase else Begun)
    ensures Inv(cfg, MoveGet(s, g, get))
  {
    hide StoreInv, LoadingInv, CallsInv, CountInv, SameCall, GetOk;
    SameCounts(cfg, s.calls, s.gets, g, get);
    Aged(cfg, s.gets, s.clock, s.calls, s.runs);
  }

  /** A call's new version suits its callers. */
  ghost predicate SuitsCallers<K, V>(cfg: Config<K, V>, gets: map<nat, Getter<K, V>>, c: nat, call: Call<K, V>,
                                     runs: map<nat, Run<K, V>>)
  {
    forall g :: g in gets && gets[g].phase.On(c) ==> OnCall(cfg, gets[g], gets[g].phase.joined, call, runs)
  }

  ghost predicate SameBooks<K, V>(call: Call<K, V>, moved: Call<K, V>) {
    && moved.key == call.key && moved.waiters == call.waiters && moved.joiners == call.joiners
    && (call.stage.Undecided() ==> moved.stage.Undecided())
    && (call.joinedDone ==> moved.joinedDone)
  }

  lemma MoveCallGets<K, V>(cfg: Config<K, V>, gets: map<nat, Getter<K, V>>, clock: nat, calls: map<nat, Call<K, V>>,
                           runs: map<nat, Run<K, V>>, c: nat, call: Call<K, V>)
    requires GetInv(cfg, gets, clock, calls, runs) && SuitsCallers(cfg, gets, c, call, runs)
    ensures GetInv(cfg, gets, clock + 1, calls[c := call], runs)
  {
    hide OnCall, Good;
  }

  lemma MoveCallCounts<K, V>(cfg: Config<K, V>, calls: map<nat, Call<K, V>>, gets: map<nat, Getter<K, V>>,
                             c: nat, call: Call<K, V>)
    requires CountInv(cfg, calls, gets) && c in calls && SameBooks(calls[c], call)
    ensures CountInv(cfg, calls[c := call], gets)
  {
    assert CountOk(cfg, c, calls[c], gets);
  }

  lemma MoveCallLoading<K, V>(loading: map<K, nat>, calls: map<nat, Call<K, V>>, c: nat, call: Call<K, V>)
    requires LoadingInv(loading, calls) && c in calls && SameBooks(calls[c], call)
    ensures LoadingInv(loading, calls[c := call])
  {
  }

  lemma MoveCallKept<K, V>(cfg: Config<K, V>, s: State<K, V>, c: nat, call: Call<K, V>)
    requires Inv(cfg, s) && c in s.calls && SameBooks(s.calls[c], call)
    requires CallOk(c, call, s.slots, s.runs) && SuitsCallers(cfg, s.gets, c, call, s.runs)
    ensures Inv(cfg, MoveCall(s, c, call))
  {
    hide StoreInv, LoadingInv, CountInv, GetInv, SuitsCallers, CallOk, RunOk, SameBooks;
    MoveCallGets(cfg, s.gets, s.clock, s.calls, s.runs, c, call);
    MoveCallCounts(cfg, s.calls, s.gets, c, call);
    MoveCallLoading(s.loading, s.calls, c, call);
  }

  /** What the callers of c know about it now. */
  lemma CallersKnow<K, V>(cfg: Config<K, V>, s: State<K, V>, c: nat)
    requires Inv(cfg, s) && c in s.calls
    ensures SuitsCallers(cfg, s.gets, c, s.calls[c], s.runs) && CallOk(c, s.calls[c], s.slots, s.runs)
  {
    hide StoreInv, LoadingInv, CountInv, OnCall, CallOk;
    forall g | g in s.gets && s.gets[g].phase.On(c)
      ensures OnCall(cfg, s.gets[g], s.gets[g].phase.joined, s.calls[c], s.runs)
    {
      assert GetOk(cfg, s.gets[g], s.clock, s.calls, s.runs);
    }
  }

  /** The run ends without its loader's value. */
  lemma FailKept<K, V>(cfg: Config<K, V>, s: State<K, V>, c: nat)
    requires Inv(cfg, s) && c in s.calls
    requires s.calls[c].stage.Running() && !s.calls[c].stage.Settling?
    ensures Inv(cfg, MoveCall(s, c, Record(s.calls[c], Failed, Settling(s.calls[c].stage.second))))
  {
    CallersKnow(cfg, s, c);
    hide Inv, MoveCall;
    MoveCallKept(cfg, s, c, Record(s.calls[c], Failed, Settling(s.calls[c].stage.second)));
  }

  lemma QueueKept<K, V>(cfg: Config<K, V>, s: State<K, V>, c: nat)
    requires Inv(cfg, s) && c in s.calls && s.calls[c].stage.Checking?
    ensures Inv(cfg, MoveCall(s, c, s.calls[c].(stage := Queued(s.calls[c].stage.second))))
  {
    CallersKnow(cfg, s, c);
    hide Inv, MoveCall;
    MoveCallKept(cfg, s, c, s.calls[c].(stage := Queued(s.calls[c].stage.second)));
  }

  lemma CheckKept<K, V>(cfg: Config<K, V>, s: State<K, V>, c: nat, rejected: bool)
    requires Inv(cfg, s) && c in s.calls && s.calls[c].stage.Checking?
    ensures Inv(cfg, MoveCall(s, c, Checked(s.calls[c], rejected)))
  {
    hide Inv, MoveCall;
    if rejected {
      FailKept(cfg, s, c);
    } else {
      QueueKept(cfg, s, c);
    }
  }

  lemma SettledSuits<K, V>(cfg: Config<K, V>, s: State<K, V>, c: nat, rejected: bool)
    requires c in s.calls && s.calls[c].stage.Settling?
    requires SuitsCallers(cfg, s.gets, c, s.calls[c], s.runs) && CallOk(c, s.calls[c], s.slots, s.runs)
    ensures var settled := Settled(s.calls[c], rejected);
            SuitsCallers(cfg, s.gets, c, settled, s.runs) && CallOk(c, settled, s.slots, s.runs)
            && SameBooks(s.calls[c], settled)
  {
  }

  lemma SettleKept<K, V>(cfg: Config<K, V>, s: State<K, V>, c: nat, rejected: bool)
    requires Inv(cfg, s) && c in s.calls && s.calls[c].stage.Settling?
    ensures Inv(cfg, MoveCall(s, c, Settled(s.calls[c], rejected)))
  {
    hide *;
    CallersKnow(cfg, s, c);
    SettledSuits(cfg, s, c, rejected);
    MoveCallKept(cfg, s, c, Settled(s.calls[c], rejected));
  }

  lemma PublishKept<K, V>(cfg: Config<K, V>, s: State<K, V>, c: nat)
    requires Inv(cfg, s) && c in s.calls && s.calls[c].stage.Publishing?
    ensures Inv(cfg, MoveCall(s, c, Published(s.calls[c])))
  {
    CallersKnow(cfg, s, c);
    hide Inv, MoveCall;
    MoveCallKept(cfg, s, c, Published(s.calls[c]));
  }

  lemma PublishJoinedKept<K, V>(cfg: Config<K, V>, s: State<K, V>, c: nat)
    requires Inv(cfg, s) && c in s.calls && s.calls[c].stage.PublishingJoined?
    ensures Inv(cfg, MoveCall(s, c, s.calls[c].(joinedDone := true, stage := Finished)))
  {
    CallersKnow(cfg, s, c);
    hide Inv, MoveCall;
    MoveCallKept(cfg, s, c, s.calls[c].(joinedDone := true, stage := Finished));
  }

  lemma ReceiveKept<K, V>(cfg: Config<K, V>, s: State<K, V>, c: nat)
    requires Inv(cfg, s) && c in s.calls && s.calls[c].stage.Loading? && s.calls[c].stage.run in s.runs
    requires s.runs[s.calls[c].stage.run].output.Some?
    ensures Inv(cfg, MoveCall(s, c, Record(s.calls[c], s.runs[s.calls[c].stage.run].output.value,
                                           Settling(s.calls[c].stage.second))))
  {
    CallersKnow(cfg, s, c);
    var r := s.calls[c].stage.run;
    assert RunOk(r, s.runs[r], s.slots);
    hide Inv, MoveCall;
    MoveCallKept(cfg, s, c, Record(s.calls[c], s.runs[r].output.value, Settling(s.calls[c].stage.second)));
  }

  // ----- slots and loader runs -----

  lemma TakenCalls<K, V>(calls: map<nat, Call<K, V>>, slots: map<nat, nat>, runs: map<nat, Run<K, V>>, r: nat, c: nat)
    requires CallsInv(calls, slots, runs) && r !in slots
    ensures CallsInv(calls, slots[r := c], runs)
  {
    forall d | d in calls ensures CallOk(d, calls[d], slots[r := c], runs) {
      assert CallOk(d, calls[d], slots, runs);
    }
    forall q | q in runs ensures RunOk(q, runs[q], slots[r := c]) {
      assert RunOk(q, runs[q], slots);
    }
  }

  lemma SlotTaken<K, V>(cfg: Config<K, V>, s: State<K, V>, r: nat, c: nat)
    requires Inv(cfg, s) && |s.slots| < cfg.maxLoads && r !in s.slots
    ensures Inv(cfg, s.(slots := s.slots[r := c]))
  {
    hide StoreInv, LoadingInv, CountInv, GetInv, CallsInv;
    assert s.slots[r := c].Keys == s.slots.Keys + {r};
    TakenCalls(s.calls, s.slots, s.runs, r, c);
  }

  lemma AcquireKept<K, V>(cfg: Config<K, V>, s: State<K, V>, c: nat, r: nat)
    requires Inv(cfg, s) && c in s.calls && s.calls[c].stage.Queued?
    requires |s.slots| < cfg.maxLoads && r !in s.slots && r !in s.runs
    ensures Inv(cfg, MoveCall(s.(slots := s.slots[r := c]), c,
                              s.calls[c].(stage := Holding(s.calls[c].stage.second, r))))
  {
    var u := s.(slots := s.slots[r := c]);
    SlotTaken(cfg, s, r, c);
    CallersKnow(cfg, u, c);
    hide Inv, MoveCall;
    MoveCallKept(cfg, u, c, s.calls[c].(stage := Holding(s.calls[c].stage.second, r)));
  }

  lemma FreedCalls<K, V>(calls: map<nat, Call<K, V>>, slots: map<nat, nat>, runs: map<nat, Run<K, V>>, r: nat)
    requires CallsInv(calls, slots, runs)
    requires forall c :: c in calls && calls[c].stage.Holding? ==> calls[c].stage.run != r
    requires r in runs ==> runs[r].output.Some?
    ensures CallsInv(calls, slots - {r}, runs)
  {
    forall c | c in calls ensures CallOk(c, calls[c], slots - {r}, runs) {
      assert CallOk(c, calls[c], slots, runs);
    }
    forall q | q in runs ensures RunOk(q, runs[q], slots - {r}) {
      assert RunOk(q, runs[q], slots);
    }
  }

  lemma SlotFreed<K, V>(cfg: Config<K, V>, s: State<K, V>, r: nat)
    requires Inv(cfg, s)
    requires forall c :: c in s.calls && s.calls[c].stage.Holding? ==> s.calls[c].stage.run != r
    requires r in s.runs ==> s.runs[r].output.Some?
    ensures Inv(cfg, s.(slots := s.slots - {r}))
  {
    hide StoreInv, LoadingInv, CountInv, GetInv, CallsInv;
    assert s.slots.Keys == (s.slots - {r}).Keys + (if r in s.slots then {r} else {});
    FreedCalls(s.calls, s.slots, s.runs, r);
  }

  lemma ReleaseKept<K, V>(cfg: Config<K, V>, s: State<K, V>, r: nat)
    requires Inv(cfg, s) && r in s.runs && s.runs[r].output.Some?
    ensures Inv(cfg, s.(clock := s.clock + 1, slots := s.slots - {r}))
  {
    hide StoreInv, LoadingInv, CountInv, GetInv;
    forall c | c in s.calls && s.calls[c].stage.Holding? ensures s.calls[c].stage.run != r {
      assert CallOk(c, s.calls[c], s.slots, s.runs);
    }
    SlotFreed(cfg, s, r);
    Aged(cfg, s.gets, s.clock, s.calls, s.runs);
  }

  lemma LaunchRejectedKept<K, V>(cfg: Config<K, V>, s: State<K, V>, c: nat)
    requires Inv(cfg, s) && c in s.calls && s.calls[c].stage.Holding?
    ensures var call := s.calls[c];
            Inv(cfg, MoveCall(s, c, Record(call, Failed, Settling(call.stage.second))).(slots := s.slots - {call.stage.run}))
  {
    hide StoreInv, LoadingInv, CountInv, GetInv;
    var call, r := s.calls[c], s.calls[c].stage.run;
    var u := MoveCall(s, c, Record(call, Failed, Settling(call.stage.second)));
    FailKept(cfg, s, c);
    assert CallOk(c, call, s.slots, s.runs);
    forall d | d in u.calls && u.calls[d].stage.Holding? ensures u.calls[d].stage.run != r {
      assert CallOk(d, s.calls[d], s.slots, s.runs);
    }
    SlotFreed(cfg, u, r);
  }

  lemma LaunchedKept<K, V>(cfg: Config<K, V>, s: State<K, V>, c: nat)
    requires Inv(cfg, s) && c in s.calls && s.calls[c].stage.Holding?
    ensures var call := s.calls[c];
            Inv(cfg, MoveCall(s.(runs := s.runs[call.stage.run := Run(call.key, s.clock, None)]), c,
                              call.(stage := Loading(call.stage.second, call.stage.run))))
  {
    hide StoreInv, CountInv, LoadingInv;
    CallersKnow(cfg, s, c);
    var call, r := s.calls[c], s.calls[c].stage.run;
    var runs := s.runs[r := Run(call.key, s.clock, None)];
    var moved := call.(stage := Loading(call.stage.second, r));
    forall d | d in s.calls ensures CallOk(d, if d == c then moved else s.calls[d], s.slots, runs) {
      assert CallOk(d, s.calls[d], s.slots, s.runs);
    }
    LaunchedGets(cfg, s, c);
    MoveCallCounts(cfg, s.calls, s.gets, c, moved);
    MoveCallLoading(s.loading, s.calls, c, moved);
  }

  lemma LaunchedGets<K, V>(cfg: Config<K, V>, s: State<K, V>, c: nat)
    requires GetInv(cfg, s.gets, s.clock, s.calls, s.runs) && c in s.calls && s.calls[c].stage.Holding?
    requires s.calls[c].stage.run !in s.runs
    ensures var call := s.calls[c];
            GetInv(cfg, s.gets, s.clock + 1, s.calls[c := call.(stage := Loading(call.stage.second, call.stage.run))],
                   s.runs[call.stage.run := Run(call.key, s.clock, None)])
  {
  }

  lemma LoaderKept<K, V>(cfg: Config<K, V>, s: State<K, V>, r: nat, output: Option<V>)
    requires Inv(cfg, s) && r in s.runs && s.runs[r].output.None?
    ensures Inv(cfg, s.(clock := s.clock + 1, runs := s.runs[r := Ended(s.runs[r], r, output, s.clock)]))
  {
    hide StoreInv, CountInv, LoadingInv;
    Aged(cfg, s.gets, s.clock, s.calls, s.runs);
    var runs := s.runs[r := Ended(s.runs[r], r, output, s.clock)];
    forall c | c in s.calls ensures CallOk(c, s.calls[c], s.slots, runs) {
      assert CallOk(c, s.calls[c], s.slots, s.runs);
    }
    forall g | g in s.gets ensures GetOk(cfg, s.gets[g], s.clock + 1, s.calls, runs) {
      assert GetOk(cfg, s.gets[g], s.clock, s.calls, s.runs);
    }
  }

  // ----- entering, leaving and deciding -----

  lemma StoreToFront<K, V>(cfg: Config<K, V>, entries: map<K, Loaded<V>>, order: seq<K>, loading: map<K, nat>, key: K)
    requires StoreInv(cfg, entries, order, loading) && key in entries
    ensures StoreInv(cfg, entries, [key] + Without(order, key), loading)
  {
    var moved := [key] + Without(order, key);
    WithoutDistinct(order, key);
    FrontDistinct(order, key);
    assert key in order && |moved| == |order|;
    assert forall k :: k in moved <==> k in Elements(moved);
    assert forall k :: k in order <==> k in Elements(order);
  }

  lemma StoreSwept<K, V>(cfg: Config<K, V>, entries: map<K, Loaded<V>>, order: seq<K>, loading: map<K, nat>, key: K)
    requires StoreInv(cfg, entries, order, loading)
    ensures StoreInv(cfg, entries - {key}, Without(order, key), loading)
  {
    WithoutElements(order, key);
    WithoutDistinct(order, key);
    var swept, kept := entries - {key}, Without(order, key);
    assert Distinct(kept);
    assert |kept| <= cfg.capacity;
    assert forall k :: k in kept ==> k in swept;
    assert forall k :: k in swept ==> k in kept;
    assert forall k :: k in swept ==> k !in loading && cfg.keep(k, swept[k].value);
  }

  lemma ToFrontKept<K, V>(cfg: Config<K, V>, s: State<K, V>, key: K)
    requires Inv(cfg, s) && key in s.entries
    ensures Inv(cfg, ToFront(s, key))
  {
    hide StoreInv, LoadingInv, CallsInv, CountInv, GetInv;
    StoreToFront(cfg, s.entries, s.order, s.loading, key);
  }

  lemma SweptKept<K, V>(cfg: Config<K, V>, s: State<K, V>, key: K)
    requires Inv(cfg, s)
    ensures Inv(cfg, Swept(s, key))
  {
    hide StoreInv, LoadingInv, CallsInv, CountInv, GetInv;
    StoreSwept(cfg, s.entries, s.order, s.loading, key);
  }

  /** A caller that is on call d neither before nor after its move leaves d's
      counts as they are. */
  lemma ElsewhereCounts<K, V>(cfg: Config<K, V>, d: nat, call: Call<K, V>, gets: map<nat, Getter<K, V>>,
                              g: nat, get: Getter<K, V>)
    requires CountOk(cfg, d, call, gets) && g in gets && !gets[g].phase.On(d) && !get.phase.On(d)
    ensures CountOk(cfg, d, call, gets[g := get])
  {
    assert Waiters(gets[g := get], d) == Waiters(gets, d);
    assert Joiners(gets[g := get], d) == Joiners(gets, d);
  }

  /** A caller that moves onto or off call c, which is adjusted to match. */
  lemma MoveBothCounts<K, V>(cfg: Config<K, V>, calls: map<nat, Call<K, V>>, gets: map<nat, Getter<K, V>>,
                             g: nat, phase: Phase<V>, c: nat, call: Call<K, V>)
    requires CountInv(cfg, calls, gets) && g in gets && CountOk(cfg, c, call, gets[g := gets[g].(phase := phase)])
    requires forall d :: d != c ==> !phase.On(d) && !gets[g].phase.On(d)
    ensures CountInv(cfg, calls[c := call], gets[g := gets[g].(phase := phase)])
  {
    hide CountOk;
    forall d | d in calls && d != c ensures CountOk(cfg, d, calls[d], gets[g := gets[g].(phase := phase)]) {
      ElsewhereCounts(cfg, d, calls[d], gets, g, gets[g].(phase := phase));
    }
  }

  lemma MoveBothGets<K, V>(cfg: Config<K, V>, gets: map<nat, Getter<K, V>>, clock: nat, calls: map<nat, Call<K, V>>,
                           runs: map<nat, Run<K, V>>, g: nat, phase: Phase<V>, c: nat, call: Call<K, V>)
    requires GetInv(cfg, gets, clock, calls, runs) && SuitsCallers(cfg, gets, c, call, runs)
    requires g in gets && GetOk(cfg, gets[g].(phase := phase), clock + 1, calls[c := call], runs)
    ensures GetInv(cfg, gets[g := gets[g].(phase := phase)], clock + 1, calls[c := call], runs)
  {
    hide OnCall, Good;
  }

  lemma MoveBothKept<K, V>(cfg: Config<K, V>, s: State<K, V>, g: nat, phase: Phase<V>, c: nat, call: Call<K, V>,
                           loading: map<K, nat>)
    requires Inv(cfg, s) && g in s.gets
    requires CallOk(c, call, s.slots, s.runs) && SuitsCallers(cfg, s.gets, c, call, s.runs)
    requires forall d :: d != c ==> !phase.On(d) && !s.gets[g].phase.On(d)
    requires CountOk(cfg, c, call, s.gets[g := s.gets[g].(phase := phase)])
    requires GetOk(cfg, s.gets[g].(phase := phase), s.clock + 1, s.calls[c := call], s.runs)
    requires LoadingInv(loading, s.calls[c := call]) && (forall k :: k in loading ==> k !in s.entries)
    ensures Inv(cfg, MoveBoth(s, g, phase, c, call, loading))
  {
    hide LoadingInv, CountInv, GetInv, CallOk, SuitsCallers, CountOk, GetOk, RunOk;
    MoveBothCounts(cfg, s.calls, s.gets, g, phase, c, call);
    MoveBothGets(cfg, s.gets, s.clock, s.calls, s.runs, g, phase, c, call);
  }

  lemma JoinCount<K, V>(cfg: Config<K, V>, calls: map<nat, Call<K, V>>, gets: map<nat, Getter<K, V>>, g: nat, c: nat)
    requires CountInv(cfg, calls, gets) && c in calls && !calls[c].joinedDone && g in gets && !gets[g].phase.On(c)
    ensures CountOk(cfg, c, Joined(calls[c]), gets[g := gets[g].(phase := Waiting(c, true))])
  {
    assert CountOk(cfg, c, calls[c], gets);
    Recounted(gets, g, gets[g].(phase := Waiting(c, true)));
  }

  lemma JoinGet<K, V>(cfg: Config<K, V>, s: State<K, V>, g: nat, c: nat)
    requires GetInv(cfg, s.gets, s.clock, s.calls, s.runs) && g in s.gets && c in s.calls
    requires s.calls[c].key == s.gets[g].key && s.calls[c].stage.Undecided() && !s.calls[c].again
    ensures GetOk(cfg, s.gets[g].(phase := Waiting(c, true)), s.clock + 1, s.calls[c := Joined(s.calls[c])], s.runs)
  {
    assert GetOk(cfg, s.gets[g], s.clock, s.calls, s.runs);
  }

  lemma JoinLoading<K, V>(loading: map<K, nat>, calls: map<nat, Call<K, V>>, c: nat)
    requires LoadingInv(loading, calls) && c in calls
    ensures LoadingInv(loading, calls[c := Joined(calls[c])])
  {
  }

  /** The call loading a key, as its next caller finds it. */
  lemma Joinable<K, V>(cfg: Config<K, V>, s: State<K, V>, key: K)
    requires Inv(cfg, s) && key in s.loading
    ensures s.loading[key] in s.calls
    ensures var call := s.calls[s.loading[key]];
            call.key == key && call.stage.Undecided() && !call.again && !call.joinedDone
    ensures SuitsCallers(cfg, s.gets, s.loading[key], Joined(s.calls[s.loading[key]]), s.runs)
    ensures CallOk(s.loading[key], Joined(s.calls[s.loading[key]]), s.slots, s.runs)
    ensures forall k :: k in s.loading ==> k !in s.entries
  {
    hide CountInv;
    CallersKnow(cfg, s, s.loading[key]);
  }

  lemma JoinKept<K, V>(cfg: Config<K, V>, s: State<K, V>, g: nat, c: nat)
    requires Inv(cfg, s) && g in s.gets && s.gets[g].phase.Begun?
    requires s.gets[g].key in s.loading && s.loading[s.gets[g].key] == c && c in s.calls
    ensures Inv(cfg, MoveBoth(s, g, Waiting(c, true), c, Joined(s.calls[c]), s.loading))
  {
    hide *;
    Joinable(cfg, s, s.gets[g].key);
    JoinParts(cfg, s, g, c);
    MoveBothKept(cfg, s, g, Waiting(c, true), c, Joined(s.calls[c]), s.loading);
  }

  lemma JoinParts<K, V>(cfg: Config<K, V>, s: State<K, V>, g: nat, c: nat)
    requires Inv(cfg, s) && g in s.gets && s.gets[g].phase.Begun? && c in s.calls
    requires s.calls[c].key == s.gets[g].key && s.calls[c].stage.Undecided() && !s.calls[c].again && !s.calls[c].joinedDone
    ensures CountOk(cfg, c, Joined(s.calls[c]), s.gets[g := s.gets[g].(phase := Waiting(c, true))])
    ensures GetOk(cfg, s.gets[g].(phase := Waiting(c, true)), s.clock + 1, s.calls[c := Joined(s.calls[c])], s.runs)
    ensures LoadingInv(s.loading, s.calls[c := Joined(s.calls[c])])
    ensures forall d :: d != c ==> !Phase<V>.Waiting(c, true).On(d) && !s.gets[g].phase.On(d)
  {
    hide StoreInv, LoadingInv, CallsInv, CountInv, GetInv, CountOk, GetOk, Joined;
    JoinCount(cfg, s.calls, s.gets, g, c);
    JoinGet(cfg, s, g, c);
    JoinLoading(s.loading, s.calls, c);
  }

  lemma NobodyOn<K, V>(cfg: Config<K, V>, s: State<K, V>, c: nat)
    requires GetInv(cfg, s.gets, s.clock, s.calls, s.runs) && c !in s.calls
    ensures forall g :: g in s.gets ==> !s.gets[g].phase.On(c)
  {
    hide OnCall, Good;
    forall g | g in s.gets ensures !s.gets[g].phase.On(c) {
      assert GetOk(cfg, s.gets[g], s.clock, s.calls, s.runs);
    }
  }

  lemma StartCount<K, V>(cfg: Config<K, V>, gets: map<nat, Getter<K, V>>, g: nat, c: nat)
    requires g in gets && forall h :: h in gets ==> !gets[h].phase.On(c)
    ensures CountOk(cfg, c, NewCall<K, V>(gets[g].key), gets[g := gets[g].(phase := Waiting(c, false))])
  {
    var after := gets[g := gets[g].(phase := Waiting(c, false))];
    assert Waiters(after, c) == {g} && Joiners(after, c) == {};
  }

  lemma StartParts<K, V>(cfg: Config<K, V>, s: State<K, V>, g: nat, c: nat)
    requires Inv(cfg, s) && g in s.gets && s.gets[g].phase.Begun? && c !in s.calls
    requires s.gets[g].key !in s.loading && s.gets[g].key !in s.entries
    ensures SuitsCallers(cfg, s.gets, c, NewCall(s.gets[g].key), s.runs)
    ensures CallOk(c, NewCall(s.gets[g].key), s.slots, s.runs)
    ensures GetOk(cfg, s.gets[g].(phase := Waiting(c, false)), s.clock + 1, s.calls[c := NewCall(s.gets[g].key)], s.runs)
    ensures CountOk(cfg, c, NewCall<K, V>(s.gets[g].key), s.gets[g := s.gets[g].(phase := Waiting(c, false))])
    ensures LoadingInv(s.loading[s.gets[g].key := c], s.calls[c := NewCall(s.gets[g].key)])
    ensures forall k :: k in s.loading[s.gets[g].key := c] ==> k !in s.entries
    ensures forall d :: d != c ==> !Phase<V>.Waiting(c, false).On(d) && !s.gets[g].phase.On(d)
  {
    hide CallsInv, CountInv, CountOk;
    NobodyOn(cfg, s, c);
    StartCount(cfg, s.gets, g, c);
    assert GetOk(cfg, s.gets[g], s.clock, s.calls, s.runs);
  }

  lemma StartKept<K, V>(cfg: Config<K, V>, s: State<K, V>, g: nat, c: nat)
    requires Inv(cfg, s) && g in s.gets && s.gets[g].phase.Begun? && c !in s.calls
    requires s.gets[g].key !in s.loading && s.gets[g].key !in s.entries
    ensures Inv(cfg, MoveBoth(s, g, Waiting(c, false), c, NewCall(s.gets[g].key), s.loading[s.gets[g].key := c]))
  {
    hide *;
    StartParts(cfg, s, g, c);
    MoveBothKept(cfg, s, g, Waiting(c, false), c, NewCall(s.gets[g].key), s.loading[s.gets[g].key := c]);
  }

  lemma HitGet<K, V>(cfg: Config<K, V>, s: State<K, V>, g: nat)
    requires Inv(cfg, s) && g in s.gets && s.gets[g].phase.Begun? && s.gets[g].key in s.entries
    ensures GetOk(cfg, s.gets[g].(phase := Returned(Value(s.entries[s.gets[g].key]))), s.clock + 1, s.calls, s.runs)
  {
    hide LoadingInv, CallsInv, CountInv;
    assert GetOk(cfg, s.gets[g], s.clock, s.calls, s.runs);
  }

  lemma HitKept<K, V>(cfg: Config<K, V>, s: State<K, V>, g: nat)
    requires Inv(cfg, s) && g in s.gets && s.gets[g].phase.Begun? && s.gets[g].key in s.entries
    ensures Inv(cfg, MoveGet(ToFront(s, s.gets[g].key), g,
                             s.gets[g].(phase := Returned(Value(s.entries[s.gets[g].key])))))
  {
    hide Inv, MoveGet, GetOk;
    HitGet(cfg, s, g);
    ToFrontKept(cfg, s, s.gets[g].key);
    MoveGetKept(cfg, ToFront(s, s.gets[g].key), g, s.gets[g].(phase := Returned(Value(s.entries[s.gets[g].key]))));
  }

  lemma EnterKept<K, V>(cfg: Config<K, V>, s: State<K, V>, g: nat, live: bool, c: nat)
    requires Inv(cfg, s) && g in s.gets && s.gets[g].phase.Begun? && c !in s.calls
    requires s.gets[g].key in s.loading ==> s.loading[s.gets[g].key] in s.calls
    ensures Inv(cfg, AfterEnter(s, g, live, c))
  {
    var key := s.gets[g].key;
    hide Inv, MoveGet, MoveBoth;
    if key in s.entries && live {
      HitKept(cfg, s, g);
    } else {
      SweptKept(cfg, s, key);
      if key in s.loading {
        JoinKept(cfg, Swept(s, key), g, s.loading[key]);
      } else {
        StartKept(cfg, Swept(s, key), g, c);
      }
    }
  }

  lemma LeaveCount<K, V>(cfg: Config<K, V>, calls: map<nat, Call<K, V>>, gets: map<nat, Getter<K, V>>, g: nat, c: nat)
    requires CountInv(cfg, calls, gets) && c in calls
    requires g in gets && gets[g].phase.Leaving? && gets[g].phase.call == c
    ensures CountOk(cfg, c, Left(calls[c], gets[g].phase.joined),
                    gets[g := gets[g].(phase := Returned(gets[g].phase.result))])
  {
    assert CountOk(cfg, c, calls[c], gets);
    Recounted(gets, g, gets[g].(phase := Returned(gets[g].phase.result)));
    assert g in Waiters(gets, c) && (gets[g].phase.joined <==> g in Joiners(gets, c));
  }

  lemma LeaveGet<K, V>(cfg: Config<K, V>, s: State<K, V>, g: nat, c: nat, call: Call<K, V>)
    requires GetInv(cfg, s.gets, s.clock, s.calls, s.runs) && g in s.gets && s.gets[g].phase.Leaving?
    ensures GetOk(cfg, s.gets[g].(phase := Returned(s.gets[g].phase.result)), s.clock + 1, s.calls[c := call], s.runs)
  {
    assert GetOk(cfg, s.gets[g], s.clock, s.calls, s.runs);
  }

  lemma LeaveCall<K, V>(cfg: Config<K, V>, s: State<K, V>, c: nat, joined: bool)
    requires Inv(cfg, s) && c in s.calls
    ensures CallOk(c, Left(s.calls[c], joined), s.slots, s.runs)
    ensures SuitsCallers(cfg, s.gets, c, Left(s.calls[c], joined), s.runs)
    ensures LoadingInv(s.loading, s.calls) && forall k :: k in s.loading ==> k !in s.entries
  {
    hide LoadingInv, CountInv;
    CallersKnow(cfg, s, c);
  }

  lemma LeaveKept<K, V>(cfg: Config<K, V>, s: State<K, V>, g: nat)
    requires Inv(cfg, s) && g in s.gets && s.gets[g].phase.Leaving? && s.gets[g].phase.call in s.calls
    ensures var c := s.gets[g].phase.call;
            var left := Left(s.calls[c], s.gets[g].phase.joined);
            Inv(cfg, MoveBoth(s, g, Returned(s.gets[g].phase.result), c, left, Unloaded(s, c, left)))
  {
    hide StoreInv, LoadingInv, CallsInv, CountInv, GetInv, CallOk, SuitsCallers, CountOk, GetOk, MoveBoth;
    var phase := s.gets[g].phase;
    var c := phase.call;
    var left := Left(s.calls[c], phase.joined);
    LeaveCount(cfg, s.calls, s.gets, g, c);
    LeaveGet(cfg, s, g, c, left);
    LeaveCall(cfg, s, c, phase.joined);
    LeaveLoading(s, c, left);
    MoveBothKept(cfg, s, g, Returned(phase.result), c, left, Unloaded(s, c, left));
  }

  lemma LeaveLoading<K, V>(s: State<K, V>, c: nat, left: Call<K, V>)
    requires LoadingInv(s.loading, s.calls) && c in s.calls
    requires left.key == s.calls[c].key && left.stage == s.calls[c].stage && left.waiters == s.calls[c].waiters - 1
    ensures LoadingInv(Unloaded(s, c, left), s.calls[c := left])
  {
  }

  lemma StoreReleased<K, V>(cfg: Config<K, V>, entries: map<K, Loaded<V>>, order: seq<K>, loading: map<K, nat>, key: K)
    requires StoreInv(cfg, entries, order, loading)
    ensures StoreInv(cfg, entries, order, loading - {key})
  {
  }

  lemma StoreStored<K, V>(cfg: Config<K, V>, s: State<K, V>, key: K, l: Loaded<V>)
    requires cfg.Valid() && StoreInv(cfg, s.entries, s.order, s.loading)
    requires key !in s.entries && key !in s.loading && cfg.keep(key, l.value)
    ensures var t := Stored(cfg, s, key, l); StoreInv(cfg, t.entries, t.order, t.loading)
  {
    var t := Stored(cfg, s, key, l);
    var pushed := [key] + s.order;
    assert key !in s.order;
    assert Distinct(pushed) && t.order == pushed[..Min(|pushed|, cfg.capacity)];
    assert forall k :: k in t.order ==> k in pushed;
    assert forall k :: k in pushed ==> k == key || k in s.order;
  }

  /** The value is stored exactly when the call still owns its key. */
  lemma DecideStore<K, V>(cfg: Config<K, V>, s: State<K, V>, c: nat)
    requires cfg.Valid() && Inv(cfg, s) && c in s.calls
    ensures var t := AfterDecide(cfg, s, c); StoreInv(cfg, t.entries, t.order, t.loading)
  {
    hide LoadingInv, CallsInv, CountInv, GetInv;
    var call := s.calls[c];
    if call.key in s.loading && s.loading[call.key] == c {
      var released := s.(loading := s.loading - {call.key});
      StoreReleased(cfg, s.entries, s.order, s.loading, call.key);
      assert call.key !in s.entries;
      hide StoreInv;
      if Keeps(cfg, s, c) {
        StoreStored(cfg, released, call.key, call.result.loaded);
      }
    }
  }

  /** Joiners that are still there get a second load unless the value is kept. */
  lemma DecidedSuits<K, V>(cfg: Config<K, V>, s: State<K, V>, c: nat)
    requires Inv(cfg, s) && c in s.calls && s.calls[c].stage.Deciding?
    ensures SuitsCallers(cfg, s.gets, c, Decided(s.calls[c], Keeps(cfg, s, c), Rejects(s, s.calls[c], false)), s.runs)
  {
    hide StoreInv, LoadingInv;
    CallersKnow(cfg, s, c);
    assert CountOk(cfg, c, s.calls[c], s.gets);
    forall g | g in s.gets && s.gets[g].phase.On(c) && s.gets[g].phase.joined
      ensures s.calls[c].joiners > 0
    {
      assert g in Joiners(s.gets, c);
    }
  }

  lemma DecidedCall<K, V>(cfg: Config<K, V>, s: State<K, V>, c: nat, kept: bool, rejected: bool)
    requires Inv(cfg, s) && c in s.calls && s.calls[c].stage.Deciding?
    ensures CallOk(c, Decided(s.calls[c], kept, rejected), s.slots, s.runs)
    ensures CountInv(cfg, s.calls[c := Decided(s.calls[c], kept, rejected)], s.gets)
  {
    hide StoreInv, LoadingInv, GetInv;
    assert CallOk(c, s.calls[c], s.slots, s.runs) && CountOk(cfg, c, s.calls[c], s.gets);
  }

  /** Without its own key, a call can change freely. */
  lemma LoadingReleased<K, V>(loading: map<K, nat>, calls: map<nat, Call<K, V>>, c: nat, call: Call<K, V>)
    requires LoadingInv(loading, calls) && c in calls
    ensures var key := calls[c].key;
            LoadingInv(if key in loading && loading[key] == c then loading - {key} else loading, calls[c := call])
  {
  }

  lemma DecideFrame<K, V>(cfg: Config<K, V>, s: State<K, V>, c: nat)
    requires c in s.calls
    ensures var t := AfterDecide(cfg, s, c);
            && t.calls == s.calls[c := Decided(s.calls[c], Keeps(cfg, s, c), Rejects(s, s.calls[c], false))]
            && t.gets == s.gets && t.runs == s.runs && t.slots == s.slots && t.clock == s.clock + 1
            && t.loading == (var key := s.calls[c].key;
                             if key in s.loading && s.loading[key] == c then s.loading - {key} else s.loading)
  {
  }

  lemma DecideKept<K, V>(cfg: Config<K, V>, s: State<K, V>, c: nat)
    requires cfg.Valid() && Inv(cfg, s) && c in s.calls && s.calls[c].stage.Deciding?
    ensures Inv(cfg, AfterDecide(cfg, s, c))
  {
    hide StoreInv, LoadingInv, CountInv, GetInv, CallOk, RunOk, SuitsCallers, AfterDecide, Decided, Keeps, Rejects;
    var decided := Decided(s.calls[c], Keeps(cfg, s, c), Rejects(s, s.calls[c], false));
    DecideFrame(cfg, s, c);
    DecideStore(cfg, s, c);
    LoadingReleased(s.loading, s.calls, c, decided);
    DecidedSuits(cfg, s, c);
    DecidedCall(cfg, s, c, Keeps(cfg, s, c), Rejects(s, s.calls[c], false));
    MoveCallGets(cfg, s.gets, s.clock, s.calls, s.runs, c, decided);
  }

  // ----- every step -----

  lemma CallerActionKept<K, V>(cfg: Config<K, V>, s: State<K, V>, a: Action<K, V>)
    requires Inv(cfg, s) && Enabled(cfg, s, a) && (a.Begin? || a.Wake? || a.GiveUp?)
    ensures Inv(cfg, Next(cfg, s, a))
  {
    var get := Next(cfg, s, a).gets[a.get];
    assert Next(cfg, s, a) == MoveGet(s, a.get, get);
    CallerGet(cfg, s, a);
    hide Inv, MoveGet, Next, Enabled, GetOk;
    MoveGetKept(cfg, s, a.get, get);
  }

  lemma CallerGet<K, V>(cfg: Config<K, V>, s: State<K, V>, a: Action<K, V>)
    requires Inv(cfg, s) && Enabled(cfg, s, a) && (a.Begin? || a.Wake? || a.GiveUp?)
    ensures GetOk(cfg, Next(cfg, s, a).gets[a.get], s.clock + 1, s.calls, s.runs)
    ensures SameCall(Next(cfg, s, a).gets[a.get].phase, if a.get in s.gets then s.gets[a.get].phase else Begun)
  {
    hide StoreInv, LoadingInv, CountInv, RunOk;
    if !a.Begin? {
      assert GetOk(cfg, s.gets[a.get], s.clock, s.calls, s.runs);
      var c := s.gets[a.get].phase.call;
      assert CallOk(c, s.calls[c], s.slots, s.runs);
    }
  }

  lemma RunActionKept<K, V>(cfg: Config<K, V>, s: State<K, V>, a: Action<K, V>)
    requires Inv(cfg, s) && Enabled(cfg, s, a)
    requires a.Check? || a.Acquire? || a.Abandon? || a.Launch? || a.Receive? || a.Settle? || a.Publish? || a.PublishJoined?
    ensures Inv(cfg, Next(cfg, s, a))
  {
    hide Inv, MoveCall, Checked, Settled, Record, Published, Rejects;
    match a
    case Check(c, expired) => CheckKept(cfg, s, c, Rejects(s, s.calls[c], expired));
    case Acquire(c, r) => AcquireKept(cfg, s, c, r);
    case Abandon(c) => FailKept(cfg, s, c);
    case Launch(c, expired) =>
      if Rejects(s, s.calls[c], expired) {
        LaunchRejectedKept(cfg, s, c);
      } else {
        LaunchedKept(cfg, s, c);
      }
    case Receive(c) => ReceiveKept(cfg, s, c);
    case Settle(c, expired) => SettleKept(cfg, s, c, Rejects(s, s.calls[c], expired));
    case Publish(c) => PublishKept(cfg, s, c);
    case PublishJoined(c) => PublishJoinedKept(cfg, s, c);
  }

  lemma OtherActionKept<K, V>(cfg: Config<K, V>, s: State<K, V>, a: Action<K, V>)
    requires cfg.Valid() && Inv(cfg, s) && Enabled(cfg, s, a)
    requires a.Enter? || a.Leave? || a.Decide? || a.LoaderReturns? || a.Release? || a.Shutdown? || a.Tick?
    ensures Inv(cfg, Next(cfg, s, a))
  {
    hide Inv, MoveGet, MoveBoth, Ended, AfterDecide, AfterEnter, Left, Unloaded, GetOk;
    match a
    case Enter(g, live, c) => EnterKept(cfg, s, g, live, c);
    case Leave(g, sawDone) =>
      if sawDone {
        LeaveDone(cfg, s, g);
      } else {
        LeaveKept(cfg, s, g);
      }
    case Decide(c) => DecideKept(cfg, s, c);
    case LoaderReturns(r, output) => LoaderKept(cfg, s, r, output);
    case Release(r) => ReleaseKept(cfg, s, r);
    case Shutdown => ShutdownKept(cfg, s);
    case Tick => TickKept(cfg, s);
  }

  lemma TickKept<K, V>(cfg: Config<K, V>, s: State<K, V>)
    requires Inv(cfg, s)
    ensures Inv(cfg, s.(clock := s.clock + 1))
  {
    hide StoreInv, LoadingInv, CallsInv, CountInv, GetInv;
    Aged(cfg, s.gets, s.clock, s.calls, s.runs);
  }

  lemma ShutdownKept<K, V>(cfg: Config<K, V>, s: State<K, V>)
    requires Inv(cfg, s)
    ensures Inv(cfg, s.(clock := s.clock + 1, parentDone := true))
  {
    hide StoreInv, LoadingInv, CallsInv, CountInv, GetInv;
    Aged(cfg, s.gets, s.clock, s.calls, s.runs);
  }

  /** The counts of a call whose results are all published no longer matter. */
  lemma LeaveDoneCounts<K, V>(cfg: Config<K, V>, calls: map<nat, Call<K, V>>, gets: map<nat, Getter<K, V>>, g: nat)
    requires CountInv(cfg, calls, gets) && g in gets && gets[g].phase.Leaving? && gets[g].phase.call in calls
    requires cfg.completedLeaves && calls[gets[g].phase.call].joinedDone
    ensures CountInv(cfg, calls, gets[g := gets[g].(phase := Returned(gets[g].phase.result))])
  {
    var get := gets[g].(phase := Returned(gets[g].phase.result));
    Recounted(gets, g, get);
    forall c | c in calls ensures CountOk(cfg, c, calls[c], gets[g := get]) {
      assert CountOk(cfg, c, calls[c], gets);
    }
  }

  lemma LeaveDone<K, V>(cfg: Config<K, V>, s: State<K, V>, g: nat)
    requires Inv(cfg, s) && g in s.gets && s.gets[g].phase.Leaving? && s.gets[g].phase.call in s.calls
    requires cfg.completedLeaves && s.calls[s.gets[g].phase.call].joinedDone
    ensures Inv(cfg, MoveGet(s, g, s.gets[g].(phase := Returned(s.gets[g].phase.result))))
  {
    hide StoreInv, LoadingInv, CallsInv, CountInv, OnCall;
    LeaveDoneCounts(cfg, s.calls, s.gets, g);
    Aged(cfg, s.gets, s.clock, s.calls, s.runs);
    assert GetOk(cfg, s.gets[g], s.clock, s.calls, s.runs);
  }

  lemma InvKept<K, V>(cfg: Config<K, V>, s: State<K, V>, a: Action<K, V>)
    requires cfg.Valid() && Inv(cfg, s) && Enabled(cfg, s, a)
    ensures Inv(cfg, Next(cfg, s, a))
  {
    hide *;
    if a.Begin? || a.Wake? || a.GiveUp? {
      CallerActionKept(cfg, s, a);
    } else if a.Enter? || a.Leave? || a.Decide? || a.LoaderReturns? || a.Release? || a.Shutdown? || a.Tick? {
      OtherActionKept(cfg, s, a);
    } else {
      RunActionKept(cfg, s, a);
    }
  }

  // ----- where every value comes from -----

  /** A value in circulation is the output of a loader run for its key. */
  ghost predicate Sourced<K, V>(runs: map<nat, Run<K, V>>, key: K, out: Outcome<V>) {
    out.Value? ==>
      && out.loaded.run in runs && runs[out.loaded.run].key == key
      && runs[out.loaded.run].output == Some(out)
      && runs[out.loaded.run].began == out.loaded.began
  }

  ghost predicate CallSourced<K, V>(runs: map<nat, Run<K, V>>, call: Call<K, V>) {
    && Sourced(runs, call.key, call.result) && Sourced(runs, call.key, call.joinedResult)
    && (call.stage.Loading? && call.stage.run in runs ==> runs[call.stage.run].key == call.key)
  }

  ghost predicate GetSourced<K, V>(runs: map<nat, Run<K, V>>, get: Getter<K, V>) {
    get.phase.Leaving? || get.phase.Returned? ==> Sourced(runs, get.key, get.phase.result)
  }

  ghost predicate RunStamped<K, V>(r: nat, run: Run<K, V>) {
    run.output.Some? && run.output.value.Value? ==>
      run.output.value.loaded.run == r && run.output.value.loaded.began == run.began
  }

  ghost predicate EntriesSourced<K, V>(runs: map<nat, Run<K, V>>, entries: map<K, Loaded<V>>) {
    forall k :: k in entries ==> Sourced(runs, k, Value(entries[k]))
  }

  ghost predicate CallsSourced<K, V>(runs: map<nat, Run<K, V>>, calls: map<nat, Call<K, V>>) {
    forall c :: c in calls ==> CallSourced(runs, calls[c])
  }

  ghost predicate GetsSourced<K, V>(runs: map<nat, Run<K, V>>, gets: map<nat, Getter<K, V>>) {
    forall g :: g in gets ==> GetSourced(runs, gets[g])
  }

  ghost predicate RunsStamped<K, V>(runs: map<nat, Run<K, V>>) {
    forall r :: r in runs ==> RunStamped(r, runs[r])
  }

  ghost predicate SourceInv<K, V>(s: State<K, V>) {
    && EntriesSourced(s.runs, s.entries) && CallsSourced(s.runs, s.calls)
    && GetsSourced(s.runs, s.gets) && RunsStamped(s.runs)
  }

  /** Run records are final once they have their output. */
  ghost predicate RunsExtend<K, V>(old_: map<nat, Run<K, V>>, new_: map<nat, Run<K, V>>) {
    forall r :: r in old_ ==>
      && r in new_ && new_[r].key == old_[r].key && new_[r].began == old_[r].began
      && (old_[r].output.Some? ==> new_[r] == old_[r])
  }

  lemma SourcesFrame<K, V>(s: State<K, V>, runs: map<nat, Run<K, V>>)
    requires SourceInv(s) && RunsExtend(s.runs, runs)
    requires forall c :: c in s.calls && s.calls[c].stage.Loading? ==> s.calls[c].stage.run in s.runs
    ensures EntriesSourced(runs, s.entries) && CallsSourced(runs, s.calls) && GetsSourced(runs, s.gets)
  {
    forall k | k in s.entries ensures Sourced(runs, k, Value(s.entries[k])) {
      assert Sourced(s.runs, k, Value(s.entries[k]));
    }
    forall c | c in s.calls ensures CallSourced(runs, s.calls[c]) {
      assert CallSourced(s.runs, s.calls[c]);
    }
    forall g | g in s.gets ensures GetSourced(runs, s.gets[g]) {
      assert GetSourced(s.runs, s.gets[g]);
    }
  }

  /** What a goroutine step writes into its call is sourced. */
  lemma MovedSourced<K, V>(s: State<K, V>, c: nat, call: Call<K, V>)
    requires SourceInv(s) && CallSourced(s.runs, call)
    ensures SourceInv(MoveCall(s, c, call))
  {
    hide EntriesSourced, GetsSourced, RunsStamped, CallSourced;
  }

  lemma SourceCall<K, V>(cfg: Config<K, V>, s: State<K, V>, a: Action<K, V>)
    requires SourceInv(s) && Enabled(cfg, s, a)
    requires a.Check? || a.Abandon? || a.Settle? || a.Publish? || a.PublishJoined?
    ensures SourceInv(Next(cfg, s, a))
  {
    var call := Next(cfg, s, a).calls[a.call];
    assert Next(cfg, s, a) == MoveCall(s, a.call, call);
    assert CallSourced(s.runs, s.calls[a.call]);
    FailureSourced(s.runs, call.key);
    hide Sourced, EntriesSourced, GetsSourced, RunsStamped, CallsSourced, Rejects;
    assert CallSourced(s.runs, call);
    hide SourceInv, MoveCall, CallSourced;
    MovedSourced(s, a.call, call);
  }

  lemma SourceAcquire<K, V>(s: State<K, V>, c: nat, r: nat)
    requires SourceInv(s) && c in s.calls && s.calls[c].stage.Queued?
    ensures SourceInv(MoveCall(s.(slots := s.slots[r := c]), c, s.calls[c].(stage := Holding(s.calls[c].stage.second, r))))
  {
    assert CallSourced(s.runs, s.calls[c]);
    MovedSourced(s.(slots := s.slots[r := c]), c, s.calls[c].(stage := Holding(s.calls[c].stage.second, r)));
  }

  lemma SourceReceive<K, V>(s: State<K, V>, c: nat)
    requires SourceInv(s) && c in s.calls && s.calls[c].stage.Loading? && s.calls[c].stage.run in s.runs
    requires s.runs[s.calls[c].stage.run].output.Some?
    ensures SourceInv(MoveCall(s, c, Record(s.calls[c], s.runs[s.calls[c].stage.run].output.value,
                                            Settling(s.calls[c].stage.second))))
  {
    ReceivedSourced(s, c);
    assert CallSourced(s.runs, s.calls[c]);
    MovedSourced(s, c, Record(s.calls[c], s.runs[s.calls[c].stage.run].output.value, Settling(s.calls[c].stage.second)));
  }

  lemma FailureSourced<K, V>(runs: map<nat, Run<K, V>>, key: K)
    ensures Sourced(runs, key, Failed)
  {
  }

  lemma ReceivedSourced<K, V>(s: State<K, V>, c: nat)
    requires SourceInv(s) && c in s.calls && s.calls[c].stage.Loading? && s.calls[c].stage.run in s.runs
    requires s.runs[s.calls[c].stage.run].output.Some?
    ensures Sourced(s.runs, s.calls[c].key, s.runs[s.calls[c].stage.run].output.value)
  {
    assert CallSourced(s.runs, s.calls[c]);
    assert RunStamped(s.calls[c].stage.run, s.runs[s.calls[c].stage.run]);
  }

  lemma SourceCaller<K, V>(cfg: Config<K, V>, s: State<K, V>, a: Action<K, V>)
    requires Inv(cfg, s) && SourceInv(s) && Enabled(cfg, s, a)
    requires a.Begin? || a.Wake? || a.GiveUp?
    ensures GetsSourced(s.runs, Next(cfg, s, a).gets)
  {
    hide StoreInv, LoadingInv, CallsInv, CountInv, EntriesSourced, RunsStamped, Sourced;
    if !a.Begin? {
      assert GetOk(cfg, s.gets[a.get], s.clock, s.calls, s.runs);
      assert CallSourced(s.runs, s.calls[s.gets[a.get].phase.call]);
    }
    if a.GiveUp? {
      FailureSourced(s.runs, s.gets[a.get].key);
    }
  }

  lemma SourceSwept<K, V>(s: State<K, V>, key: K)
    requires SourceInv(s)
    ensures SourceInv(Swept(s, key))
  {
    hide CallsSourced, GetsSourced, RunsStamped, Sourced;
  }

  lemma SourceBoth<K, V>(s: State<K, V>, g: nat, phase: Phase<V>, c: nat, call: Call<K, V>, loading: map<K, nat>)
    requires SourceInv(s) && g in s.gets && CallSourced(s.runs, call)
    requires GetSourced(s.runs, s.gets[g].(phase := phase))
    ensures SourceInv(MoveBoth(s, g, phase, c, call, loading))
  {
    hide EntriesSourced, RunsStamped, CallSourced, GetSourced;
  }

  lemma SourceEnter<K, V>(s: State<K, V>, g: nat, live: bool, c: nat)
    requires SourceInv(s) && g in s.gets
    requires s.gets[g].key in s.loading ==> s.loading[s.gets[g].key] in s.calls
    ensures SourceInv(AfterEnter(s, g, live, c))
  {
    var key := s.gets[g].key;
    if key in s.entries && live {
      assert Sourced(s.runs, key, Value(s.entries[key]));
    } else {
      SourceSwept(s, key);
      if key in s.loading {
        assert CallSourced(s.runs, s.calls[s.loading[key]]);
        SourceBoth(Swept(s, key), g, Waiting(s.loading[key], true), s.loading[key], Joined(s.calls[s.loading[key]]), s.loading);
      } else {
        SourceBoth(Swept(s, key), g, Waiting(c, false), c, NewCall(key), s.loading[key := c]);
      }
    }
  }

  lemma SourceLeave<K, V>(s: State<K, V>, g: nat, sawDone: bool)
    requires SourceInv(s) && g in s.gets && s.gets[g].phase.Leaving? && s.gets[g].phase.call in s.calls
    ensures SourceInv(AfterLeave(s, g, sawDone))
  {
    hide Sourced;
    assert GetSourced(s.runs, s.gets[g]) && CallSourced(s.runs, s.calls[s.gets[g].phase.call]);
  }

  lemma SourceDecide<K, V>(cfg: Config<K, V>, s: State<K, V>, c: nat)
    requires SourceInv(s) && c in s.calls
    ensures SourceInv(AfterDecide(cfg, s, c))
  {
    assert CallSourced(s.runs, s.calls[c]);
  }

  lemma SourceLaunch<K, V>(cfg: Config<K, V>, s: State<K, V>, c: nat, expired: bool)
    requires CallsInv(s.calls, s.slots, s.runs) && SourceInv(s) && c in s.calls && s.calls[c].stage.Holding?
    ensures SourceInv(AfterLaunch(s, c, expired))
  {
    var t := AfterLaunch(s, c, expired);
    assert CallOk(c, s.calls[c], s.slots, s.runs) && CallSourced(s.runs, s.calls[c]);
    forall d | d in s.calls && s.calls[d].stage.Loading? ensures s.calls[d].stage.run in s.runs {
      assert CallOk(d, s.calls[d], s.slots, s.runs);
    }
    SourcesFrame(s, t.runs);
  }

  lemma SourceLoader<K, V>(cfg: Config<K, V>, s: State<K, V>, r: nat, output: Option<V>)
    requires CallsInv(s.calls, s.slots, s.runs) && SourceInv(s) && r in s.runs && s.runs[r].output.None?
    ensures SourceInv(s.(clock := s.clock + 1, runs := s.runs[r := Ended(s.runs[r], r, output, s.clock)]))
  {
    var runs := s.runs[r := Ended(s.runs[r], r, output, s.clock)];
    forall d | d in s.calls && s.calls[d].stage.Loading? ensures s.calls[d].stage.run in s.runs {
      assert CallOk(d, s.calls[d], s.slots, s.runs);
    }
    SourcesFrame(s, runs);
  }

  lemma SourceKept<K, V>(cfg: Config<K, V>, s: State<K, V>, a: Action<K, V>)
    requires Inv(cfg, s) && SourceInv(s) && Enabled(cfg, s, a)
    ensures SourceInv(Next(cfg, s, a))
  {
    hide StoreInv, LoadingInv, CallsInv, CountInv, GetInv, Ended, AfterDecide, AfterEnter, AfterLeave, AfterLaunch;
    hide EntriesSourced, RunsStamped, GetsSourced, CallSourced, Checked, Settled, Record, Published, Rejects;
    match a
    case Enter(g, live, c) => SourceEnter(s, g, live, c);
    case Leave(g, sawDone) => SourceLeave(s, g, sawDone);
    case Launch(c, expired) => SourceLaunch(cfg, s, c, expired);
    case LoaderReturns(r, output) => SourceLoader(cfg, s, r, output);
    case Decide(c) => SourceDecide(cfg, s, c);
    case Release(_) =>
    case Shutdown =>
    case Tick =>
    case Begin(_, _) => SourceCaller(cfg, s, a);
    case Wake(_) => SourceCaller(cfg, s, a);
    case GiveUp(_) => SourceCaller(cfg, s, a);
    case Acquire(c, r) => SourceAcquire(s, c, r);
    case Receive(c) => SourceReceive(s, c);
    case _ => SourceCall(cfg, s, a);
  }
}
