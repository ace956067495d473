/** What a run of the cache has told so far, step by step: which loads met
    trouble, which runs served them, who waited and who gave up; and that every
    result follows from it. RealtimeCacheAnswers states what comes of it. */
module RealtimeCacheTold {
  import opened Common
  import opened RealtimeCache
  import opened RealtimeCacheRuns

  // ----- what the run so far tells -----

  /** A load of call c: the starter's, or the joiners' second one. */
  datatype Load = Load(call: nat, second: bool)

  /** Run r served that load from step `began` on. */
  datatype Service = Service(load: Load, run: nat, began: nat)

  /** Get g waited on that call, as its starter or as a joiner. */
  datatype Wait = Wait(get: nat, call: nat, joined: bool)

  /** Get g found what run r had given stored. */
  datatype Hit = Hit(get: nat, run: nat)

  /** What happened before some step. */
  datatype History = History(
    troubled: iset<Load>, launched: iset<Service>, failed: iset<nat>, waited: iset<Wait>, gaveUp: iset<nat>, hits: iset<Hit>)
  {
    ghost predicate Within(h: History) {
      && troubled <= h.troubled && launched <= h.launched && failed <= h.failed
      && waited <= h.waited && gaveUp <= h.gaveUp && hits <= h.hits
    }
  }

  /** At step i the goroutine behind the load launches run r for it. */
  ghost predicate LaunchesAt<K, V>(l: Service, trace: seq<State<K, V>>, actions: seq<Action<K, V>>) {
    && l.began < |actions| && l.began < |trace| && actions[l.began].Launch? && actions[l.began].call == l.load.call
    && l.load.call in trace[l.began].calls && trace[l.began].calls[l.load.call].stage == Holding(l.load.second, l.run)
  }

  /** Step i is trouble for a load of call c: its timeout passes, or its
      context ends while it is queued or loading; or everything shuts down. */
  ghost predicate TroubleAt<K, V>(load: Load, i: nat, trace: seq<State<K, V>>, actions: seq<Action<K, V>>) {
    && i < |actions| && i < |trace|
    && (actions[i].Shutdown?
        || (&& load.call in trace[i].calls && InLoad(trace[i].calls[load.call].stage, load.second)
            && match actions[i]
               case Check(c, expired) => c == load.call && expired
               case Launch(c, expired) => c == load.call && expired
               case Settle(c, expired) => c == load.call && expired
               case Abandon(c) => c == load.call
               case _ => false))
  }

  predicate InLoad(stage: Stage, second: bool) {
    stage.Running() && stage.second == second
  }

  /** At step i Get g begins to wait. */
  ghost predicate WaitsAt<K, V>(w: Wait, i: nat, trace: seq<State<K, V>>, actions: seq<Action<K, V>>) {
    && i < |actions| && i + 1 < |trace| && actions[i].Enter? && actions[i].get == w.get
    && w.get in trace[i + 1].gets && trace[i + 1].gets[w.get].phase == Waiting(w.call, w.joined)
  }

  /** At step i Get g finds a live entry for its key. */
  ghost predicate HitsAt<K, V>(hit: Hit, i: nat, trace: seq<State<K, V>>, actions: seq<Action<K, V>>) {
    && i < |actions| && i < |trace| && actions[i].Enter? && actions[i].get == hit.get && actions[i].live
    && hit.get in trace[i].gets && trace[i].gets[hit.get].key in trace[i].entries
    && trace[i].entries[trace[i].gets[hit.get].key].run == hit.run
  }

  ghost function Launches<K, V>(n: nat, trace: seq<State<K, V>>, actions: seq<Action<K, V>>): iset<Service> {
    iset l: Service | l.began < n && LaunchesAt(l, trace, actions)
  }

  ghost function Failures<K, V>(n: nat, actions: seq<Action<K, V>>): iset<nat> {
    iset r: nat | (exists i: nat :: i < n && i < |actions| && actions[i] == LoaderReturns(r, None))
  }

  ghost predicate Troubled<K, V>(load: Load, n: nat, trace: seq<State<K, V>>, actions: seq<Action<K, V>>) {
    || (exists i: nat :: i < n && TroubleAt(load, i, trace, actions))
    || (exists r: nat, began: nat :: Service(load, r, began) in Launches(n, trace, actions) && r in Failures(n, actions))
  }

  ghost predicate Waited<K, V>(w: Wait, n: nat, trace: seq<State<K, V>>, actions: seq<Action<K, V>>) {
    exists i: nat :: i < n && WaitsAt(w, i, trace, actions)
  }

  ghost predicate Found<K, V>(hit: Hit, n: nat, trace: seq<State<K, V>>, actions: seq<Action<K, V>>) {
    exists i: nat :: i < n && HitsAt(hit, i, trace, actions)
  }

  ghost predicate GaveUp<K, V>(g: nat, n: nat, actions: seq<Action<K, V>>) {
    exists i: nat :: i < n && i < |actions| && actions[i] == GiveUp(g)
  }

  ghost function Told<K, V>(n: nat, trace: seq<State<K, V>>, actions: seq<Action<K, V>>): History {
    History(
      (iset load: Load | Troubled(load, n, trace, actions)),
      Launches(n, trace, actions), Failures(n, actions),
      (iset w: Wait | Waited(w, n, trace, actions)),
      (iset g: nat | GaveUp(g, n, actions)),
      (iset hit: Hit | Found(hit, n, trace, actions)))
  }

  /** Nobody waits on call c. */
  ghost predicate Deserted<K, V>(gets: map<nat, Getter<K, V>>, c: nat) {
    forall g :: g in gets ==> !gets[g].phase.On(c)
  }

  ghost predicate NoJoiners<K, V>(gets: map<nat, Getter<K, V>>, c: nat) {
    forall g :: g in gets ==> !(gets[g].phase.On(c) && gets[g].phase.joined)
  }

  predicate FirstEnded<K(==), V(==)>(call: Call<K, V>) {
    call.stage == Settling(false) || call.stage.Deciding? || !call.stage.Undecided()
  }

  /** What a call's results are, and why it is cancelled. */
  ghost predicate CallTold<K, V>(c: nat, call: Call<K, V>, gets: map<nat, Getter<K, V>>, runs: map<nat, Run<K, V>>, h: History) {
    && (FirstEnded(call) && call.result.Failed? ==> Load(c, false) in h.troubled || Deserted(gets, c))
    && (SecondEnded(call) && call.joinedResult.Failed? ==> Load(c, true) in h.troubled || NoJoiners(gets, c))
    && (call.result.Value? ==> Service(Load(c, false), call.result.loaded.run, call.result.loaded.began) in h.launched)
    && (SecondEnded(call) && call.joinedResult.Value? ==>
          Service(Load(c, true), call.joinedResult.loaded.run, call.joinedResult.loaded.began) in h.launched)
    && (call.stage.Loading? && call.stage.run in runs ==>
          Service(Load(c, call.stage.second), call.stage.run, runs[call.stage.run].began) in h.launched)
    && (call.cancelled && !call.joinedDone ==> Deserted(gets, c) || (call.again && NoJoiners(gets, c)))
  }

  /** Why Get g has this result: it gave up, or a load it waited for ran into
      trouble; or it found the value stored, or that load's own run gave it. A
      joiner has the starter's value only if keep accepts it. */
  ghost predicate Explained<K, V>(cfg: Config<K, V>, g: nat, key: K, out: Outcome<V>, h: History) {
    match out
    case Failed =>
      || g in h.gaveUp
      || exists c, joined, second ::
           Wait(g, c, joined) in h.waited && Load(c, second) in h.troubled && (second ==> joined)
    case Value(l) =>
      || Hit(g, l.run) in h.hits
      || exists c, joined, second ::
           Wait(g, c, joined) in h.waited && Service(Load(c, second), l.run, l.began) in h.launched
           && (second ==> joined) && (joined && !second ==> cfg.keep(key, l.value))
  }

  ghost predicate GetTold<K, V>(cfg: Config<K, V>, g: nat, get: Getter<K, V>, h: History) {
    && (get.phase.Waiting? || get.phase.Leaving? ==> Wait(g, get.phase.call, get.phase.joined) in h.waited)
    && (get.phase.Leaving? || get.phase.Returned? ==> Explained(cfg, g, get.key, get.phase.result, h))
  }

  ghost predicate CallsTold<K, V>(calls: map<nat, Call<K, V>>, gets: map<nat, Getter<K, V>>, runs: map<nat, Run<K, V>>, h: History) {
    forall c :: c in calls ==> CallTold(c, calls[c], gets, runs, h)
  }

  ghost predicate GetsTold<K, V>(cfg: Config<K, V>, gets: map<nat, Getter<K, V>>, h: History) {
    forall g :: g in gets ==> GetTold(cfg, g, gets[g], h)
  }

  ghost predicate RunsTold<K, V>(runs: map<nat, Run<K, V>>, h: History) {
    forall r :: r in runs && runs[r].output == Some(Failed) ==> r in h.failed
  }

  ghost predicate DownTold<K, V>(s: State<K, V>, h: History) {
    s.parentDone ==> forall load: Load :: load in h.troubled
  }

  /** Every trouble of a loader run is that of its load. */
  ghost predicate RunTrouble(h: History) {
    forall l: Service :: l in h.launched && l.run in h.failed ==> l.load in h.troubled
  }

  ghost predicate AllTold<K, V>(cfg: Config<K, V>, s: State<K, V>, h: History) {
    && CallsTold(s.calls, s.gets, s.runs, h) && GetsTold(cfg, s.gets, h) && RunsTold(s.runs, h) && DownTold(s, h)
    && RunTrouble(h)
  }

  lemma ToldGrows<K, V>(n: nat, trace: seq<State<K, V>>, actions: seq<Action<K, V>>)
    ensures Told(n, trace, actions).Within(Told(n + 1, trace, actions))
    ensures RunTrouble(Told(n, trace, actions))
  {
    hide LaunchesAt, TroubleAt, WaitsAt, HitsAt;
  }

  // ----- what stays told -----

  lemma CallLater<K, V>(c: nat, call: Call<K, V>, gets: map<nat, Getter<K, V>>, later: map<nat, Getter<K, V>>,
                        runs: map<nat, Run<K, V>>, h: History, h': History)
    requires CallTold(c, call, gets, runs, h) && h.Within(h')
    requires Deserted(gets, c) ==> Deserted(later, c)
    requires NoJoiners(gets, c) ==> NoJoiners(later, c)
    ensures CallTold(c, call, later, runs, h')
  {
    hide Deserted, NoJoiners;
  }

  lemma GetLater<K, V>(cfg: Config<K, V>, g: nat, get: Getter<K, V>, h: History, h': History)
    requires GetTold(cfg, g, get, h) && h.Within(h')
    ensures GetTold(cfg, g, get, h')
  {
    if get.phase.Leaving? || get.phase.Returned? {
      ExplainedLater(cfg, g, get.key, get.phase.result, h, h');
    }
  }

  lemma ExplainedLater<K, V>(cfg: Config<K, V>, g: nat, key: K, out: Outcome<V>, h: History, h': History)
    requires Explained(cfg, g, key, out, h) && h.Within(h')
    ensures Explained(cfg, g, key, out, h')
  {
    match out
    case Failed =>
      if g !in h.gaveUp {
        var c, joined, second :|
          Wait(g, c, joined) in h.waited && Load(c, second) in h.troubled && (second ==> joined);
        assert Wait(g, c, joined) in h'.waited && Load(c, second) in h'.troubled;
      }
    case Value(l) =>
      if Hit(g, l.run) !in h.hits {
        var c, joined, second :|
          Wait(g, c, joined) in h.waited && Service(Load(c, second), l.run, l.began) in h.launched
          && (second ==> joined) && (joined && !second ==> cfg.keep(key, l.value));
        assert Wait(g, c, joined) in h'.waited && Service(Load(c, second), l.run, l.began) in h'.launched;
      }
  }

  /** Only caller g moves, and joins no call it was not on. */
  lemma MovedAway<K, V>(gets: map<nat, Getter<K, V>>, g: nat, get: Getter<K, V>, c: nat)
    requires get.phase.On(c) ==> g in gets && gets[g].phase.On(c) && gets[g].phase.joined == get.phase.joined
    ensures Deserted(gets, c) ==> Deserted(gets[g := get], c)
    ensures NoJoiners(gets, c) ==> NoJoiners(gets[g := get], c)
  {
  }

  lemma GetsMoved<K, V>(cfg: Config<K, V>, s: State<K, V>, g: nat, get: Getter<K, V>, h: History, h': History)
    requires CallsTold(s.calls, s.gets, s.runs, h) && GetsTold(cfg, s.gets, h) && h.Within(h')
    requires forall c :: get.phase.On(c) ==> g in s.gets && s.gets[g].phase.On(c) && s.gets[g].phase.joined == get.phase.joined
    requires GetTold(cfg, g, get, h')
    ensures CallsTold(s.calls, s.gets[g := get], s.runs, h') && GetsTold(cfg, s.gets[g := get], h')
  {
    hide CallTold, GetTold, Deserted, NoJoiners;
    forall c | c in s.calls ensures CallTold(c, s.calls[c], s.gets[g := get], s.runs, h') {
      MovedAway(s.gets, g, get, c);
      CallLater(c, s.calls[c], s.gets, s.gets[g := get], s.runs, h, h');
    }
    forall x | x in s.gets && x != g ensures GetTold(cfg, x, s.gets[x], h') {
      GetLater(cfg, x, s.gets[x], h, h');
    }
  }

  /** Only call c moves. */
  lemma CallMoved<K, V>(cfg: Config<K, V>, s: State<K, V>, c: nat, call: Call<K, V>, h: History, h': History)
    requires CallsTold(s.calls, s.gets, s.runs, h) && GetsTold(cfg, s.gets, h) && h.Within(h')
    requires CallTold(c, call, s.gets, s.runs, h')
    ensures CallsTold(s.calls[c := call], s.gets, s.runs, h') && GetsTold(cfg, s.gets, h')
  {
    hide CallTold, GetTold, Deserted, NoJoiners;
    forall d | d in s.calls ensures CallTold(d, s.calls[d], s.gets, s.runs, h') {
      CallLater(d, s.calls[d], s.gets, s.gets, s.runs, h, h');
    }
    forall x | x in s.gets ensures GetTold(cfg, x, s.gets[x], h') {
      GetLater(cfg, x, s.gets[x], h, h');
    }
  }

  // ----- the goroutine behind a call -----

  /** Why a check may reject what a load has. */
  ghost predicate Excused<K, V>(c: nat, call: Call<K, V>, gets: map<nat, Getter<K, V>>, second: bool, h: History) {
    Load(c, second) in h.troubled || if second then NoJoiners(gets, c) else Deserted(gets, c)
  }

  /** A cancelled load that still runs has lost those it runs for. */
  lemma RejectionExcused<K, V>(s: State<K, V>, c: nat, expired: bool, second: bool, h: History)
    requires c in s.calls && CallTold(c, s.calls[c], s.gets, s.runs, h) && CallOk(c, s.calls[c], s.slots, s.runs) && DownTold(s, h)
    requires Rejects(s, s.calls[c], expired) && (expired ==> Load(c, second) in h.troubled)
    requires if second then InLoad(s.calls[c].stage, true) else s.calls[c].stage.Undecided()
    ensures Excused(c, s.calls[c], s.gets, second, h)
  {
    assert Deserted(s.gets, c) ==> NoJoiners(s.gets, c);
  }

  lemma FailTold<K, V>(c: nat, call: Call<K, V>, stage: Stage, gets: map<nat, Getter<K, V>>, runs: map<nat, Run<K, V>>, h: History)
    requires CallTold(c, call, gets, runs, h) && call.stage.Running() && Excused(c, call, gets, call.stage.second, h)
    requires stage == Settling(call.stage.second)
             || (call.stage.Settling? && stage == (if call.stage.second then PublishingJoined else Deciding))
    ensures CallTold(c, Record(call, Failed, stage), gets, runs, h)
  {
    hide Deserted, NoJoiners;
  }

  lemma StageTold<K, V>(c: nat, call: Call<K, V>, stage: Stage, gets: map<nat, Getter<K, V>>, runs: map<nat, Run<K, V>>, h: History)
    requires CallTold(c, call, gets, runs, h)
    requires (call.stage.Checking? && stage == Queued(call.stage.second))
          || (call.stage.Queued? && stage.Holding? && stage.second == call.stage.second)
          || (call.stage.Settling? && stage == (if call.stage.second then PublishingJoined else Deciding))
    requires call.stage.Settling? && call.stage.second ==> call.again
    ensures CallTold(c, call.(stage := stage), gets, runs, h)
  {
    hide Deserted, NoJoiners;
  }

  lemma ReceiveTold<K, V>(c: nat, call: Call<K, V>, gets: map<nat, Getter<K, V>>, runs: map<nat, Run<K, V>>, h: History)
    requires CallTold(c, call, gets, runs, h) && call.stage.Loading? && call.stage.run in runs && runs[call.stage.run].output.Some?
    requires RunTrouble(h) && RunsTold(runs, h) && RunStamped(call.stage.run, runs[call.stage.run])
    ensures CallTold(c, Record(call, runs[call.stage.run].output.value, Settling(call.stage.second)), gets, runs, h)
  {
    hide Deserted, NoJoiners;
    assert Service(Load(c, call.stage.second), call.stage.run, runs[call.stage.run].began) in h.launched;
  }

  lemma DecidedTold<K, V>(c: nat, call: Call<K, V>, kept: bool, rejected: bool, gets: map<nat, Getter<K, V>>,
                          runs: map<nat, Run<K, V>>, h: History)
    requires CallTold(c, call, gets, runs, h) && call.stage.Deciding? && !call.again
    requires rejected ==> Excused(c, call, gets, false, h)
    ensures CallTold(c, Decided(call, kept, rejected), gets, runs, h)
  {
    hide Deserted, NoJoiners;
  }

  lemma PublishedTold<K, V>(c: nat, call: Call<K, V>, gets: map<nat, Getter<K, V>>, runs: map<nat, Run<K, V>>, h: History)
    requires CallTold(c, call, gets, runs, h)
    ensures call.stage.Publishing? ==> CallTold(c, Published(call), gets, runs, h)
    ensures call.stage.PublishingJoined? ==> CallTold(c, call.(joinedDone := true, stage := Finished), gets, runs, h)
  {
    hide Deserted, NoJoiners;
  }

  /** The trouble of this step is told of after it. */
  lemma TroubleTold<K, V>(cfg: Config<K, V>, trace: seq<State<K, V>>, actions: seq<Action<K, V>>, n: nat)
    requires n < |actions| && n < |trace| && Enabled(cfg, trace[n], actions[n])
    ensures var h := Told(n + 1, trace, actions);
            match actions[n]
            case Check(c, true) => Load(c, trace[n].calls[c].stage.second) in h.troubled
            case Launch(c, true) => Load(c, trace[n].calls[c].stage.second) in h.troubled
            case Settle(c, true) => Load(c, trace[n].calls[c].stage.second) in h.troubled
            case Abandon(c) => Load(c, trace[n].calls[c].stage.second) in h.troubled
            case Shutdown => forall load: Load :: load in h.troubled
            case _ => true
  {
    hide LaunchesAt, WaitsAt, HitsAt;
    var a, h := actions[n], Told(n + 1, trace, actions);
    if a.Shutdown? {
      forall load: Load ensures load in h.troubled {
        assert TroubleAt(load, n, trace, actions);
      }
    } else if a.Check? || a.Launch? || a.Settle? || a.Abandon? {
      var second := trace[n].calls[a.call].stage.second;
      assert (!a.Abandon? && !a.expired) || TroubleAt(Load(a.call, second), n, trace, actions);
    }
  }

  /** What a goroutine's step makes of its call. */
  predicate OfLoad<K, V>(a: Action<K, V>) {
    a.Check? || a.Acquire? || a.Abandon? || a.Receive? || a.Settle? || a.Publish? || a.PublishJoined?
  }

  function MovedCall<K(==), V>(s: State<K, V>, a: Action<K, V>): Call<K, V>
    requires OfLoad(a) && a.call in s.calls
    requires match a
             case Check(c, _) => s.calls[c].stage.Checking?
             case Abandon(c) => s.calls[c].stage.Running()
             case Receive(c) => s.calls[c].stage.Loading? && s.calls[c].stage.run in s.runs && s.runs[s.calls[c].stage.run].output.Some?
             case Settle(c, _) => s.calls[c].stage.Settling?
             case Acquire(c, _) => s.calls[c].stage.Queued?
             case _ => true
  {
    var call := s.calls[a.call];
    match a
    case Check(_, expired) => Checked(call, Rejects(s, call, expired))
    case Acquire(_, r) => call.(stage := Holding(call.stage.second, r))
    case Abandon(_) => Record(call, Failed, Settling(call.stage.second))
    case Receive(_) => Record(call, s.runs[call.stage.run].output.value, Settling(call.stage.second))
    case Settle(_, expired) => Settled(call, Rejects(s, call, expired))
    case Publish(_) => Published(call)
    case PublishJoined(_) => call.(joinedDone := true, stage := Finished)
  }

  lemma Frame<K, V>(cfg: Config<K, V>, s: State<K, V>, a: Action<K, V>)
    requires Enabled(cfg, s, a) && OfLoad(a)
    ensures var t := Next(cfg, s, a);
            t.calls == s.calls[a.call := MovedCall(s, a)] && t.gets == s.gets && t.runs == s.runs && t.parentDone == s.parentDone
  {
    hide Rejects, Record, Checked, Settled, Published;
  }

  lemma LoadStepTold<K, V>(cfg: Config<K, V>, s: State<K, V>, a: Action<K, V>, h: History)
    requires Enabled(cfg, s, a) && OfLoad(a) && CallTold(a.call, s.calls[a.call], s.gets, s.runs, h)
    requires CallOk(a.call, s.calls[a.call], s.slots, s.runs) && DownTold(s, h) && RunTrouble(h) && RunsTold(s.runs, h)
    requires forall r :: r in s.runs ==> RunStamped(r, s.runs[r])
    requires (a.Check? && a.expired) || (a.Settle? && a.expired) || a.Abandon? ==>
               Load(a.call, s.calls[a.call].stage.second) in h.troubled
    ensures CallTold(a.call, MovedCall(s, a), s.gets, s.runs, h)
  {
    hide CallTold, DownTold, RunTrouble, RunsTold, RunStamped, Rejects, CallOk, Record, Deserted, NoJoiners, Next;
    var c, call := a.call, s.calls[a.call];
    match a
    case Check(_, expired) => CheckTold(s, c, expired, h);
    case Acquire(_, r) => StageTold(c, call, Holding(call.stage.second, r), s.gets, s.runs, h);
    case Abandon(_) => FailTold(c, call, Settling(call.stage.second), s.gets, s.runs, h);
    case Receive(_) => ReceiveTold(c, call, s.gets, s.runs, h);
    case Settle(_, expired) => SettleTold(s, c, expired, h);
    case Publish(_) => PublishedTold(c, call, s.gets, s.runs, h);
    case PublishJoined(_) => PublishedTold(c, call, s.gets, s.runs, h);
  }

  lemma CheckTold<K, V>(s: State<K, V>, c: nat, expired: bool, h: History)
    requires c in s.calls && s.calls[c].stage.Checking? && CallTold(c, s.calls[c], s.gets, s.runs, h)
    requires CallOk(c, s.calls[c], s.slots, s.runs) && DownTold(s, h)
    requires expired ==> Load(c, s.calls[c].stage.second) in h.troubled
    ensures CallTold(c, Checked(s.calls[c], Rejects(s, s.calls[c], expired)), s.gets, s.runs, h)
  {
    hide CallTold, DownTold, Rejects, CallOk, Record, Deserted, NoJoiners;
    var call := s.calls[c];
    if Rejects(s, call, expired) {
      Stages(s, c);
      RejectionExcused(s, c, expired, call.stage.second, h);
      FailTold(c, call, Settling(call.stage.second), s.gets, s.runs, h);
    } else {
      StageTold(c, call, Queued(call.stage.second), s.gets, s.runs, h);
    }
  }

  lemma SettleTold<K, V>(s: State<K, V>, c: nat, expired: bool, h: History)
    requires c in s.calls && s.calls[c].stage.Settling? && CallTold(c, s.calls[c], s.gets, s.runs, h)
    requires CallOk(c, s.calls[c], s.slots, s.runs) && DownTold(s, h)
    requires expired ==> Load(c, s.calls[c].stage.second) in h.troubled
    ensures CallTold(c, Settled(s.calls[c], Rejects(s, s.calls[c], expired)), s.gets, s.runs, h)
  {
    hide CallTold, DownTold, Rejects, CallOk, Record, Deserted, NoJoiners;
    var call := s.calls[c];
    var stage := if call.stage.second then PublishingJoined else Deciding;
    Stages(s, c);
    if Rejects(s, call, expired) {
      RejectionExcused(s, c, expired, call.stage.second, h);
      FailTold(c, call, stage, s.gets, s.runs, h);
    } else {
      StageTold(c, call, stage, s.gets, s.runs, h);
    }
  }

  lemma Stages<K, V>(s: State<K, V>, c: nat)
    requires c in s.calls && CallOk(c, s.calls[c], s.slots, s.runs) && s.calls[c].stage.Running()
    ensures if s.calls[c].stage.second then InLoad(s.calls[c].stage, true) && s.calls[c].again else s.calls[c].stage.Undecided()
  {
  }

  lemma LaunchTold<K, V>(cfg: Config<K, V>, s: State<K, V>, c: nat, h: History, h': History)
    requires c in s.calls && s.calls[c].stage.Holding? && s.calls[c].stage.run !in s.runs
    requires CallsTold(s.calls, s.gets, s.runs, h) && h.Within(h')
    requires forall d :: d in s.calls && s.calls[d].stage.Loading? ==> s.calls[d].stage.run in s.runs
    requires Service(Load(c, s.calls[c].stage.second), s.calls[c].stage.run, s.clock) in h'.launched
    ensures var call := s.calls[c];
            CallsTold(s.calls[c := call.(stage := Loading(call.stage.second, call.stage.run))], s.gets,
                      s.runs[call.stage.run := Run(call.key, s.clock, None)], h')
  {
    hide Deserted, NoJoiners;
    var call := s.calls[c];
    var runs := s.runs[call.stage.run := Run(call.key, s.clock, None)];
    forall d | d in s.calls && d != c ensures CallTold(d, s.calls[d], s.gets, runs, h') {
      assert CallTold(d, s.calls[d], s.gets, s.runs, h);
    }
    assert CallTold(c, call, s.gets, s.runs, h);
  }

  lemma LoaderTold<K, V>(s: State<K, V>, r: nat, run: Run<K, V>, h: History, h': History)
    requires CallsTold(s.calls, s.gets, s.runs, h) && RunsTold(s.runs, h) && h.Within(h')
    requires r in s.runs && run.began == s.runs[r].began && (run.output == Some(Failed) ==> r in h'.failed)
    ensures CallsTold(s.calls, s.gets, s.runs[r := run], h') && RunsTold(s.runs[r := run], h')
  {
    hide Deserted, NoJoiners;
    forall d | d in s.calls ensures CallTold(d, s.calls[d], s.gets, s.runs[r := run], h') {
      assert CallTold(d, s.calls[d], s.gets, s.runs, h);
    }
  }

  // ----- the callers -----

  /** What a caller that is woken takes is the result of the load it waited for. */
  lemma WokenExplained<K, V>(cfg: Config<K, V>, s: State<K, V>, g: nat, h: History)
    requires Enabled(cfg, s, Wake(g)) && GetTold(cfg, g, s.gets[g], h)
    requires CallTold(s.gets[g].phase.call, s.calls[s.gets[g].phase.call], s.gets, s.runs, h)
    requires CallOk(s.gets[g].phase.call, s.calls[s.gets[g].phase.call], s.slots, s.runs)
    requires OnCall(cfg, s.gets[g], s.gets[g].phase.joined, s.calls[s.gets[g].phase.call], s.runs)
    ensures GetTold(cfg, g, Woken(s.gets[g], s.calls[s.gets[g].phase.call]), h)
  {
    var get, c := s.gets[g], s.gets[g].phase.call;
    var call, joined := s.calls[c], get.phase.joined;
    var second := joined && call.again;
    assert get.phase.On(c) && !Deserted(s.gets, c) && (joined ==> !NoJoiners(s.gets, c));
    var out := if joined then call.joinedResult else call.result;
    assert Wait(g, c, joined) in h.waited && (second ==> joined);
    assert joined ==> call.stage.Finished?;
    if out.Failed? {
      assert Load(c, second) in h.troubled;
    } else {
      assert Service(Load(c, second), out.loaded.run, out.loaded.began) in h.launched;
    }
  }

  /** A caller joins call c, or starts it. */
  lemma EnteredTold<K, V>(cfg: Config<K, V>, s: State<K, V>, g: nat, c: nat, call: Call<K, V>, joined: bool, h: History, h': History)
    requires CallsTold(s.calls, s.gets, s.runs, h) && GetsTold(cfg, s.gets, h) && h.Within(h')
    requires g in s.gets && s.gets[g].phase.Begun? && Wait(g, c, joined) in h'.waited
    requires if joined
             then c in s.calls && call == Joined(s.calls[c]) && !Deserted(s.gets, c) && !s.calls[c].again && s.calls[c].stage.Undecided()
             else call == NewCall(s.gets[g].key) && c !in s.calls
    ensures var gets := s.gets[g := s.gets[g].(phase := Waiting(c, joined))];
            CallsTold(s.calls[c := call], gets, s.runs, h') && GetsTold(cfg, gets, h')
  {
    hide GetTold;
    var gets := s.gets[g := s.gets[g].(phase := Waiting(c, joined))];
    forall d | d in s.calls && d != c ensures CallTold(d, s.calls[d], gets, s.runs, h') {
      MovedAway(s.gets, g, gets[g], d);
      hide Deserted, NoJoiners;
      CallLater(d, s.calls[d], s.gets, gets, s.runs, h, h');
    }
    assert joined ==> CallTold(c, s.calls[c], s.gets, s.runs, h);
    assert CallTold(c, call, gets, s.runs, h');
    forall x | x in s.gets && x != g ensures GetTold(cfg, x, s.gets[x], h') {
      GetLater(cfg, x, s.gets[x], h, h');
    }
    assert GetTold(cfg, g, gets[g], h') by { WaitingTold(cfg, g, gets[g], h'); }
  }

  lemma WaitingTold<K, V>(cfg: Config<K, V>, g: nat, get: Getter<K, V>, h: History)
    requires get.phase.Waiting? && Wait(g, get.phase.call, get.phase.joined) in h.waited
    ensures GetTold(cfg, g, get, h)
  {
  }

  /** A caller leaves call c, which is cancelled if nobody is left to wait for it. */
  lemma LeftTold<K, V>(cfg: Config<K, V>, s: State<K, V>, g: nat, h: History, h': History)
    requires CallsTold(s.calls, s.gets, s.runs, h) && GetsTold(cfg, s.gets, h) && h.Within(h')
    requires g in s.gets && s.gets[g].phase.Leaving? && s.gets[g].phase.call in s.calls
    requires var c := s.gets[g].phase.call;
             CountOk(cfg, c, Left(s.calls[c], s.gets[g].phase.joined), s.gets[g := s.gets[g].(phase := Returned(s.gets[g].phase.result))])
    ensures var c := s.gets[g].phase.call;
            var gets := s.gets[g := s.gets[g].(phase := Returned(s.gets[g].phase.result))];
            CallsTold(s.calls[c := Left(s.calls[c], s.gets[g].phase.joined)], gets, s.runs, h') && GetsTold(cfg, gets, h')
  {
    var c, get := s.gets[g].phase.call, s.gets[g].(phase := Returned(s.gets[g].phase.result));
    var gets := s.gets[g := get];
    var left := Left(s.calls[c], s.gets[g].phase.joined);
    GetLater(cfg, g, s.gets[g], h, h');
    GetsMoved(cfg, s, g, get, h, h');
    assert CallTold(c, s.calls[c], gets, s.runs, h');
    EmptyCounts(cfg, c, left, gets);
    assert CallTold(c, left, gets, s.runs, h') by { hide Deserted, NoJoiners, CountOk; }
  }

  lemma EmptyCounts<K, V>(cfg: Config<K, V>, c: nat, call: Call<K, V>, gets: map<nat, Getter<K, V>>)
    requires CountOk(cfg, c, call, gets)
    ensures !call.joinedDone && call.waiters == 0 ==> Deserted(gets, c)
    ensures !call.joinedDone && call.joiners == 0 ==> NoJoiners(gets, c)
  {
    if !call.joinedDone && call.waiters == 0 {
      assert Waiters(gets, c) == {};
      forall g | g in gets ensures !gets[g].phase.On(c) {
        assert g !in Waiters(gets, c);
      }
    }
    if !call.joinedDone && call.joiners == 0 {
      assert Joiners(gets, c) == {};
      forall g | g in gets ensures !(gets[g].phase.On(c) && gets[g].phase.joined) {
        assert g !in Joiners(gets, c);
      }
    }
  }

  // ----- every step -----

  lemma WaitTold<K, V>(n: nat, trace: seq<State<K, V>>, actions: seq<Action<K, V>>, w: Wait)
    requires WaitsAt(w, n, trace, actions)
    ensures w in Told(n + 1, trace, actions).waited
  {
    hide LaunchesAt, TroubleAt, HitsAt, WaitsAt;
  }

  lemma HitTold<K, V>(n: nat, trace: seq<State<K, V>>, actions: seq<Action<K, V>>, hit: Hit)
    requires HitsAt(hit, n, trace, actions)
    ensures hit in Told(n + 1, trace, actions).hits
  {
    hide LaunchesAt, TroubleAt, HitsAt, WaitsAt;
  }

  lemma EnterTold<K, V>(cfg: Config<K, V>, trace: seq<State<K, V>>, actions: seq<Action<K, V>>, n: nat)
    requires n < |actions| && n + 1 < |trace| && actions[n].Enter? && Enabled(cfg, trace[n], actions[n]) && Inv(cfg, trace[n])
    requires trace[n + 1] == Next(cfg, trace[n], actions[n])
    requires CallsTold(trace[n].calls, trace[n].gets, trace[n].runs, Told(n, trace, actions))
    requires GetsTold(cfg, trace[n].gets, Told(n, trace, actions))
    ensures var t, h' := trace[n + 1], Told(n + 1, trace, actions);
            CallsTold(t.calls, t.gets, t.runs, h') && GetsTold(cfg, t.gets, h') && t.runs == trace[n].runs && t.parentDone == trace[n].parentDone
  {
    hide Inv, CallsTold, GetsTold, Told, Deserted, Joined;
    var s, g, h, h' := trace[n], actions[n].get, Told(n, trace, actions), Told(n + 1, trace, actions);
    var key := s.gets[g].key;
    ToldGrows(n, trace, actions);
    if key in s.entries && actions[n].live {
      HitTold(n, trace, actions, Hit(g, s.entries[key].run));
      GetsMoved(cfg, s, g, s.gets[g].(phase := Returned(Value(s.entries[key]))), h, h');
    } else if key in s.loading {
      var j := s.loading[key];
      Joinable(cfg, s, key);
      LoadingHasWaiters(cfg, s, key);
      WaitTold(n, trace, actions, Wait(g, j, true));
      EnteredTold(cfg, s, g, j, Joined(s.calls[j]), true, h, h');
    } else {
      WaitTold(n, trace, actions, Wait(g, actions[n].call, false));
      EnteredTold(cfg, s, g, actions[n].call, NewCall(key), false, h, h');
    }
  }

  lemma LoadingHasWaiters<K, V>(cfg: Config<K, V>, s: State<K, V>, key: K)
    requires Inv(cfg, s) && key in s.loading
    ensures s.loading[key] in s.calls && !Deserted(s.gets, s.loading[key])
  {
    hide StoreInv, CallsInv, GetInv;
    var j := s.loading[key];
    assert CountOk(cfg, j, s.calls[j], s.gets) && CallOk(j, s.calls[j], s.slots, s.runs) by { CallersKnow(cfg, s, j); }
    assert |Waiters(s.gets, j)| > 0;
    var g :| g in Waiters(s.gets, j);
  }

  /** Begin, Wake, GiveUp, and Leave. */
  lemma CallerTold<K, V>(cfg: Config<K, V>, trace: seq<State<K, V>>, actions: seq<Action<K, V>>, n: nat)
    requires n < |actions| && n + 1 < |trace| && Enabled(cfg, trace[n], actions[n]) && Inv(cfg, trace[n])
    requires actions[n].Begin? || actions[n].Wake? || actions[n].GiveUp? || actions[n].Leave?
    requires trace[n + 1] == Next(cfg, trace[n], actions[n])
    requires CallsTold(trace[n].calls, trace[n].gets, trace[n].runs, Told(n, trace, actions))
    requires GetsTold(cfg, trace[n].gets, Told(n, trace, actions))
    ensures var t, h' := trace[n + 1], Told(n + 1, trace, actions);
            CallsTold(t.calls, t.gets, t.runs, h') && GetsTold(cfg, t.gets, h') && t.runs == trace[n].runs && t.parentDone == trace[n].parentDone
  {
    hide Inv, CallTold, Told, Left, Unloaded;
    var s, g, h, h' := trace[n], actions[n].get, Told(n, trace, actions), Told(n + 1, trace, actions);
    ToldGrows(n, trace, actions);
    match actions[n]
    case Begin(_, key) => GetsMoved(cfg, s, g, Getter(key, s.clock, Begun), h, h');
    case Wake(_) =>
      WakeKnows(cfg, s, g);
      WokenExplained(cfg, s, g, h);
      GetLater(cfg, g, Woken(s.gets[g], s.calls[s.gets[g].phase.call]), h, h');
      GetsMoved(cfg, s, g, Woken(s.gets[g], s.calls[s.gets[g].phase.call]), h, h');
    case GiveUp(_) =>
      GaveUpTold(n, trace, actions, g);
      GetsMoved(cfg, s, g, s.gets[g].(phase := Leaving(s.gets[g].phase.call, s.gets[g].phase.joined, Failed)), h, h');
    case Leave(_, sawDone) =>
      GetLater(cfg, g, s.gets[g], h, h');
      if sawDone {
        GetsMoved(cfg, s, g, s.gets[g].(phase := Returned(s.gets[g].phase.result)), h, h');
      } else {
        LeaveCounts(cfg, s, g);
        LeftTold(cfg, s, g, h, h');
      }
  }

  lemma GaveUpTold<K, V>(n: nat, trace: seq<State<K, V>>, actions: seq<Action<K, V>>, g: nat)
    requires n < |actions| && actions[n] == GiveUp(g)
    ensures g in Told(n + 1, trace, actions).gaveUp
  {
    hide LaunchesAt, TroubleAt, HitsAt, WaitsAt;
  }

  lemma LeaveCounts<K, V>(cfg: Config<K, V>, s: State<K, V>, g: nat)
    requires Inv(cfg, s) && g in s.gets && s.gets[g].phase.Leaving? && s.gets[g].phase.call in s.calls
    ensures var c := s.gets[g].phase.call;
            CountOk(cfg, c, Left(s.calls[c], s.gets[g].phase.joined), s.gets[g := s.gets[g].(phase := Returned(s.gets[g].phase.result))])
  {
    hide StoreInv, LoadingInv, CallsInv, GetInv, CountInv, CountOk;
    LeaveCount(cfg, s.calls, s.gets, g, s.gets[g].phase.call);
  }

  lemma WakeKnows<K, V>(cfg: Config<K, V>, s: State<K, V>, g: nat)
    requires Inv(cfg, s) && Enabled(cfg, s, Wake(g))
    ensures var get, c := s.gets[g], s.gets[g].phase.call;
            CallOk(c, s.calls[c], s.slots, s.runs) && OnCall(cfg, get, get.phase.joined, s.calls[c], s.runs)
  {
    CallersKnow(cfg, s, s.gets[g].phase.call);
    hide Inv, CallOk, OnCall;
    assert s.gets[g].phase.On(s.gets[g].phase.call);
  }

  lemma LaterTold<K, V>(cfg: Config<K, V>, s: State<K, V>, h: History, h': History)
    requires CallsTold(s.calls, s.gets, s.runs, h) && GetsTold(cfg, s.gets, h) && h.Within(h')
    ensures CallsTold(s.calls, s.gets, s.runs, h') && GetsTold(cfg, s.gets, h')
  {
    hide CallTold, GetTold, Deserted, NoJoiners;
    forall d | d in s.calls ensures CallTold(d, s.calls[d], s.gets, s.runs, h') {
      CallLater(d, s.calls[d], s.gets, s.gets, s.runs, h, h');
    }
    forall x | x in s.gets ensures GetTold(cfg, x, s.gets[x], h') {
      GetLater(cfg, x, s.gets[x], h, h');
    }
  }

  lemma LoadActionTold<K, V>(cfg: Config<K, V>, trace: seq<State<K, V>>, actions: seq<Action<K, V>>, n: nat)
    requires n < |actions| && n + 1 < |trace| && Enabled(cfg, trace[n], actions[n]) && OfLoad(actions[n])
    requires Inv(cfg, trace[n]) && SourceInv(trace[n]) && trace[n + 1] == Next(cfg, trace[n], actions[n])
    requires var h := Told(n + 1, trace, actions);
             CallsTold(trace[n].calls, trace[n].gets, trace[n].runs, h) && GetsTold(cfg, trace[n].gets, h)
             && RunsTold(trace[n].runs, h) && DownTold(trace[n], h)
    ensures var t, h := trace[n + 1], Told(n + 1, trace, actions);
            CallsTold(t.calls, t.gets, t.runs, h) && GetsTold(cfg, t.gets, h) && t.runs == trace[n].runs && t.parentDone == trace[n].parentDone
  {
    var s, a, h := trace[n], actions[n], Told(n + 1, trace, actions);
    Frame(cfg, s, a);
    TroubleTold(cfg, trace, actions, n);
    ToldGrows(n + 1, trace, actions);
    hide Next, Told, CallTold, GetTold, DownTold, RunTrouble, RunsTold, StoreInv, LoadingInv, CountInv, GetInv, Sourced, CallOk, RunOk,
         RunStamped, MovedCall;
    LoadStepTold(cfg, s, a, h);
    CallMoved(cfg, s, a.call, MovedCall(s, a), h, h);
  }

  lemma DecideTold<K, V>(cfg: Config<K, V>, s: State<K, V>, c: nat, h: History)
    requires Enabled(cfg, s, Decide(c)) && Inv(cfg, s)
    requires CallsTold(s.calls, s.gets, s.runs, h) && GetsTold(cfg, s.gets, h) && DownTold(s, h)
    ensures var t := AfterDecide(cfg, s, c);
            CallsTold(t.calls, t.gets, t.runs, h) && GetsTold(cfg, t.gets, h) && t.runs == s.runs && t.parentDone == s.parentDone
  {
    var call, rejected := s.calls[c], Rejects(s, s.calls[c], false);
    DecideFrame(cfg, s, c);
    CallersKnow(cfg, s, c);
    assert !call.again;
    assert AfterDecide(cfg, s, c).parentDone == s.parentDone;
    hide Inv, CallTold, GetTold, DownTold, AfterDecide, Decided, Keeps, Rejects, CallOk;
    if rejected {
      RejectionExcused(s, c, false, false, h);
    }
    DecidedTold(c, call, Keeps(cfg, s, c), rejected, s.gets, s.runs, h);
    CallMoved(cfg, s, c, Decided(call, Keeps(cfg, s, c), rejected), h, h);
  }

  lemma LaunchActionTold<K, V>(cfg: Config<K, V>, trace: seq<State<K, V>>, actions: seq<Action<K, V>>, n: nat)
    requires n < |actions| && n + 1 < |trace| && Enabled(cfg, trace[n], actions[n]) && actions[n].Launch?
    requires Inv(cfg, trace[n]) && trace[n].clock == n && trace[n + 1] == Next(cfg, trace[n], actions[n])
    requires var h := Told(n + 1, trace, actions);
             CallsTold(trace[n].calls, trace[n].gets, trace[n].runs, h) && GetsTold(cfg, trace[n].gets, h)
             && RunsTold(trace[n].runs, h) && DownTold(trace[n], h)
    ensures var t, h := trace[n + 1], Told(n + 1, trace, actions);
            CallsTold(t.calls, t.gets, t.runs, h) && GetsTold(cfg, t.gets, h) && RunsTold(t.runs, h) && t.parentDone == trace[n].parentDone
  {
    hide CallsTold, GetsTold, RunsTold, DownTold, Inv, Told, Rejects, Record;
    var s, c, h := trace[n], actions[n].call, Told(n + 1, trace, actions);
    TroubleTold(cfg, trace, actions, n);
    ServiceTold(n, trace, actions, Service(Load(c, s.calls[c].stage.second), s.calls[c].stage.run, n));
    if Rejects(s, s.calls[c], actions[n].expired) {
      LaunchRefused(cfg, s, c, actions[n].expired, h);
    } else {
      Launched(cfg, s, c, h);
    }
  }

  lemma LaunchRefused<K, V>(cfg: Config<K, V>, s: State<K, V>, c: nat, expired: bool, h: History)
    requires Inv(cfg, s) && c in s.calls && s.calls[c].stage.Holding? && Rejects(s, s.calls[c], expired)
    requires CallsTold(s.calls, s.gets, s.runs, h) && GetsTold(cfg, s.gets, h) && DownTold(s, h)
    requires expired ==> Load(c, s.calls[c].stage.second) in h.troubled
    ensures CallsTold(s.calls[c := Record(s.calls[c], Failed, Settling(s.calls[c].stage.second))], s.gets, s.runs, h)
  {
    var call := s.calls[c];
    LaunchKnows(cfg, s, c);
    hide Inv, CallTold, GetTold, DownTold, CallOk, Rejects, Record;
    Stages(s, c);
    RejectionExcused(s, c, expired, call.stage.second, h);
    FailTold(c, call, Settling(call.stage.second), s.gets, s.runs, h);
    CallMoved(cfg, s, c, Record(call, Failed, Settling(call.stage.second)), h, h);
  }

  lemma Launched<K, V>(cfg: Config<K, V>, s: State<K, V>, c: nat, h: History)
    requires Inv(cfg, s) && c in s.calls && s.calls[c].stage.Holding?
    requires CallsTold(s.calls, s.gets, s.runs, h) && RunsTold(s.runs, h)
    requires Service(Load(c, s.calls[c].stage.second), s.calls[c].stage.run, s.clock) in h.launched
    ensures var call := s.calls[c];
            var runs := s.runs[call.stage.run := Run(call.key, s.clock, None)];
            CallsTold(s.calls[c := call.(stage := Loading(call.stage.second, call.stage.run))], s.gets, runs, h) && RunsTold(runs, h)
  {
    LaunchKnows(cfg, s, c);
    hide Inv, CallsTold;
    LaunchTold(cfg, s, c, h, h);
  }

  lemma ServiceTold<K, V>(n: nat, trace: seq<State<K, V>>, actions: seq<Action<K, V>>, l: Service)
    requires l.began == n && LaunchesAt(l, trace, actions)
    ensures l in Told(n + 1, trace, actions).launched
  {
  }

  lemma LaunchKnows<K, V>(cfg: Config<K, V>, s: State<K, V>, c: nat)
    requires Inv(cfg, s) && c in s.calls && s.calls[c].stage.Holding?
    ensures CallOk(c, s.calls[c], s.slots, s.runs) && s.calls[c].stage.run !in s.runs
    ensures forall d :: d in s.calls && s.calls[d].stage.Loading? ==> s.calls[d].stage.run in s.runs
  {
    hide StoreInv, LoadingInv, CountInv, GetInv;
    assert CallOk(c, s.calls[c], s.slots, s.runs);
    forall d | d in s.calls && s.calls[d].stage.Loading? ensures s.calls[d].stage.run in s.runs {
      assert CallOk(d, s.calls[d], s.slots, s.runs);
    }
  }

  lemma LoaderActionTold<K, V>(cfg: Config<K, V>, trace: seq<State<K, V>>, actions: seq<Action<K, V>>, n: nat)
    requires n < |actions| && n + 1 < |trace| && Enabled(cfg, trace[n], actions[n]) && actions[n].LoaderReturns?
    requires trace[n + 1] == Next(cfg, trace[n], actions[n])
    requires var h := Told(n + 1, trace, actions);
             CallsTold(trace[n].calls, trace[n].gets, trace[n].runs, h) && GetsTold(cfg, trace[n].gets, h) && RunsTold(trace[n].runs, h)
    ensures var t, h := trace[n + 1], Told(n + 1, trace, actions);
            CallsTold(t.calls, t.gets, t.runs, h) && GetsTold(cfg, t.gets, h) && RunsTold(t.runs, h) && t.parentDone == trace[n].parentDone
  {
    var s, r, h := trace[n], actions[n].run, Told(n + 1, trace, actions);
    assert actions[n].output.None? ==> r in h.failed by { hide LaunchesAt, TroubleAt, WaitsAt, HitsAt; }
    hide Told, CallsTold, GetsTold, RunsTold;
    LoaderTold(s, r, Ended(s.runs[r], r, actions[n].output, s.clock), h, h);
  }

  lemma PlainStep<K, V>(cfg: Config<K, V>, s: State<K, V>, a: Action<K, V>)
    requires Enabled(cfg, s, a) && (a.Release? || a.Shutdown? || a.Tick?)
    ensures var t := Next(cfg, s, a); t.calls == s.calls && t.gets == s.gets && t.runs == s.runs
  {
  }

  lemma DownStep<K, V>(cfg: Config<K, V>, trace: seq<State<K, V>>, actions: seq<Action<K, V>>, n: nat)
    requires n < |actions| && n < |trace| && Enabled(cfg, trace[n], actions[n])
    requires DownTold(trace[n], Told(n, trace, actions))
    ensures DownTold(trace[n], Told(n + 1, trace, actions))
    ensures actions[n].Shutdown? ==> DownTold(Next(cfg, trace[n], actions[n]), Told(n + 1, trace, actions))
  {
    ToldGrows(n, trace, actions);
    TroubleTold(cfg, trace, actions, n);
    hide Told;
  }

  lemma LaterRuns<K, V>(runs: map<nat, Run<K, V>>, h: History, h': History)
    requires RunsTold(runs, h) && h.Within(h')
    ensures RunsTold(runs, h')
  {
  }

  lemma StepTold<K, V>(cfg: Config<K, V>, trace: seq<State<K, V>>, actions: seq<Action<K, V>>, n: nat)
    requires n < |actions| && n + 1 < |trace| && Enabled(cfg, trace[n], actions[n]) && trace[n].clock == n
    requires Inv(cfg, trace[n]) && SourceInv(trace[n]) && trace[n + 1] == Next(cfg, trace[n], actions[n])
    requires AllTold(cfg, trace[n], Told(n, trace, actions))
    ensures AllTold(cfg, trace[n + 1], Told(n + 1, trace, actions))
  {
    var s, a, h, h' := trace[n], actions[n], Told(n, trace, actions), Told(n + 1, trace, actions);
    ToldGrows(n, trace, actions);
    ToldGrows(n + 1, trace, actions);
    hide Inv, SourceInv, Told, CallsTold, GetsTold, RunsTold, RunTrouble, OfLoad, MovedCall, Next, Enabled;
    LaterTold(cfg, s, h, h');
    LaterRuns(s.runs, h, h');
    DownStep(cfg, trace, actions, n);
    if a.Enter? {
      EnterTold(cfg, trace, actions, n);
    } else if a.Begin? || a.Wake? || a.GiveUp? || a.Leave? {
      CallerTold(cfg, trace, actions, n);
    } else if a.Decide? {
      DecideStep(cfg, trace, actions, n);
    } else if a.Launch? {
      LaunchActionTold(cfg, trace, actions, n);
    } else if a.LoaderReturns? {
      LoaderActionTold(cfg, trace, actions, n);
    } else {
      RestTold(cfg, trace, actions, n);
    }
  }

  lemma DecideStep<K, V>(cfg: Config<K, V>, trace: seq<State<K, V>>, actions: seq<Action<K, V>>, n: nat)
    requires n < |actions| && n + 1 < |trace| && Enabled(cfg, trace[n], actions[n]) && actions[n].Decide?
    requires Inv(cfg, trace[n]) && trace[n + 1] == Next(cfg, trace[n], actions[n])
    requires var h := Told(n + 1, trace, actions);
             CallsTold(trace[n].calls, trace[n].gets, trace[n].runs, h) && GetsTold(cfg, trace[n].gets, h) && DownTold(trace[n], h)
    ensures var t, h := trace[n + 1], Told(n + 1, trace, actions);
            CallsTold(t.calls, t.gets, t.runs, h) && GetsTold(cfg, t.gets, h) && t.runs == trace[n].runs && t.parentDone == trace[n].parentDone
  {
    hide Inv, Told, CallsTold, GetsTold, DownTold, AfterDecide;
    DecideTold(cfg, trace[n], actions[n].call, Told(n + 1, trace, actions));
  }

  /** A step of the goroutine behind a call, or one that moves no call and no Get. */
  lemma RestTold<K, V>(cfg: Config<K, V>, trace: seq<State<K, V>>, actions: seq<Action<K, V>>, n: nat)
    requires n < |actions| && n + 1 < |trace| && Enabled(cfg, trace[n], actions[n])
    requires OfLoad(actions[n]) || actions[n].Release? || actions[n].Shutdown? || actions[n].Tick?
    requires Inv(cfg, trace[n]) && SourceInv(trace[n]) && trace[n + 1] == Next(cfg, trace[n], actions[n])
    requires var h := Told(n + 1, trace, actions);
             CallsTold(trace[n].calls, trace[n].gets, trace[n].runs, h) && GetsTold(cfg, trace[n].gets, h)
             && RunsTold(trace[n].runs, h) && DownTold(trace[n], h)
    requires actions[n].Shutdown? ==> DownTold(trace[n + 1], Told(n + 1, trace, actions))
    ensures var t, h := trace[n + 1], Told(n + 1, trace, actions);
            CallsTold(t.calls, t.gets, t.runs, h) && GetsTold(cfg, t.gets, h) && RunsTold(t.runs, h) && DownTold(t, h)
  {
    hide Inv, SourceInv, Told, CallsTold, GetsTold, RunsTold, Next, Enabled;
    if OfLoad(actions[n]) {
      LoadActionTold(cfg, trace, actions, n);
    } else {
      PlainStep(cfg, trace[n], actions[n]);
      SameParent(cfg, trace[n], actions[n]);
    }
  }

  lemma SameParent<K, V>(cfg: Config<K, V>, s: State<K, V>, a: Action<K, V>)
    requires Enabled(cfg, s, a) && (a.Release? || a.Tick? || a.Shutdown?)
    ensures a.Shutdown? || Next(cfg, s, a).parentDone == s.parentDone
  {
  }

  lemma RunTold<K, V>(cfg: Config<K, V>, trace: seq<State<K, V>>, actions: seq<Action<K, V>>, n: nat)
    requires IsRun(cfg, trace, actions) && n < |trace|
    ensures AllTold(cfg, trace[n], Told(n, trace, actions))
  {
    hide Next, Enabled, Told, AllTold, Inv, SourceInv, GetsDated, RunsDated;
    StartTold(cfg, trace, actions);
    var i := 0;
    while i < n
      invariant i <= n && AllTold(cfg, trace[i], Told(i, trace, actions))
    {
      assert StepAt(cfg, trace, actions, i);
      RunLawful(cfg, trace, actions, i);
      StepTold(cfg, trace, actions, i);
      i := i + 1;
    }
  }

  lemma StartTold<K, V>(cfg: Config<K, V>, trace: seq<State<K, V>>, actions: seq<Action<K, V>>)
    ensures AllTold(cfg, Init(), Told(0, trace, actions))
  {
    ToldGrows(0, trace, actions);
  }
}
