module PinsRounds {
  /** Shared refreshes of a channel's pins (internal/web/pins_source.go): streams
      whose refreshes overlap share a round, whose cached snapshot must still be
      new enough for each of them. */

  import opened Common

  /** A snapshot: the log's sequence it shows and the moment its read began. */
  datatype Snapshot = Snapshot(at: nat, began: nat)

  /** `loads` are the snapshots the round's own cache may hand out; `born` is
      history: the moment the round was made. */
  datatype Round = Round(scope: nat, users: int, trigger: nat, loads: set<Snapshot>, born: nat)

  datatype Source = Source(scope: nat, trigger: nat, preexisting: Option<nat>, built: nat)

  /** A Refresh in progress: `needed` is its source's trigger when it began. */
  datatype Call = Call(source: nat, round: nat, needed: nat, open: bool)

  /** `now` counts steps and `committed` the events of the log. */
  datatype State = State(
    now: nat, committed: nat, current: map<nat, nat>, rounds: map<nat, Round>, sources: map<nat, Source>, calls: map<nat, Call>)

  datatype Action =
    | Commit
    | Build(source: nat, scope: nat)
    | Trigger(source: nat, seen: nat)
    | Begin(call: nat, source: nat, round: nat)
    | Load(call: nat)
    | Take(call: nat, snapshot: Snapshot)
    | End(call: nat)

  function Init(): State {
    State(0, 0, map[], map[], map[], map[])
  }

  // ----- steps -----

  /** NewPinsSource: remembers the round there is. */
  function Built(s: State, source: nat, scope: nat): State {
    var preexisting := if scope in s.current then Some(s.current[scope]) else None;
    s.(sources := s.sources[source := Source(scope, 0, preexisting, s.now)])
  }

  /** A matching event of the log raises the source's trigger. */
  function Triggered(s: State, source: nat, seen: nat): State
    requires source in s.sources
  {
    s.(sources := s.sources[source := s.sources[source].(trigger := Max(s.sources[source].trigger, seen))])
  }

  /** The round a Refresh may not join: none, the one from before the source was
      built, or one made before the source's latest invalidation. */
  predicate NeedsRound(current: map<nat, nat>, rounds: map<nat, Round>, src: Source) {
    || src.scope !in current || current[src.scope] !in rounds || src.preexisting == Some(current[src.scope])
    || rounds[current[src.scope]].trigger < src.trigger
  }

  /** Refresh's first critical section. */
  function Begun(s: State, call: nat, source: nat, added: nat): State
    requires source in s.sources
  {
    var src := s.sources[source];
    var made := NeedsRound(s.current, s.rounds, src);
    var current := if made then s.current[src.scope := added] else s.current;
    var rounds := if made then s.rounds[added := Round(src.scope, 0, src.trigger, {}, s.now)] else s.rounds;
    var r := current[src.scope];
    s.(current := current, rounds := rounds[r := rounds[r].(users := rounds[r].users + 1)],
       sources := s.sources[source := src.(preexisting := None)], calls := s.calls[call := Call(source, r, src.trigger, true)])
  }

  /** A loader of the round's cache loads the pins. */
  function Loaded(s: State, call: nat): State
    requires call in s.calls && s.calls[call].round in s.rounds
  {
    var r := s.calls[call].round;
    s.(rounds := s.rounds[r := s.rounds[r].(loads := s.rounds[r].loads + {Snapshot(s.committed, s.now)})])
  }

  /** The deferred section: the last user discards the round. */
  function Ended(s: State, call: nat): State
    requires call in s.calls && s.calls[call].round in s.rounds
  {
    var r := s.calls[call].round;
    var round := s.rounds[r].(users := s.rounds[r].users - 1);
    var last := round.users == 0 && round.scope in s.current && s.current[round.scope] == r;
    s.(rounds := s.rounds[r := round], current := if last then s.current - {round.scope} else s.current,
       calls := s.calls[call := s.calls[call].(open := false)])
  }

  /** Take is what the cache promises: any snapshot loaded in this round. */
  ghost predicate Enabled(s: State, a: Action) {
    match a
    case Commit => true
    case Build(source, scope) => source !in s.sources
    case Trigger(source, seen) => source in s.sources && seen <= s.committed
    case Begin(call, source, added) => call !in s.calls && source in s.sources && added !in s.rounds
    case Load(call) => call in s.calls && s.calls[call].open && s.calls[call].round in s.rounds
    case Take(call, snapshot) => call in s.calls && s.calls[call].open && s.calls[call].round in s.rounds && snapshot in s.rounds[s.calls[call].round].loads
    case End(call) => call in s.calls && s.calls[call].open && s.calls[call].round in s.rounds
  }

  function Step(s: State, a: Action): State
    requires Enabled(s, a)
  {
    match a
    case Commit => s.(committed := s.committed + 1)
    case Build(source, scope) => Built(s, source, scope)
    case Trigger(source, seen) => Triggered(s, source, seen)
    case Begin(call, source, added) => Begun(s, call, source, added)
    case Load(call) => Loaded(s, call)
    case Take(call, snapshot) => s
    case End(call) => Ended(s, call)
  }

  function Next(s: State, a: Action): State
    requires Enabled(s, a)
  {
    Step(s, a).(now := s.now + 1)
  }

  // ----- the invariant -----

  /** A round's reads began after it was made, and show what it was made for. */
  ghost predicate RoundOk(r: Round, now: nat, committed: nat) {
    && r.born <= now && r.trigger <= committed
    && forall x :: x in r.loads ==> r.born <= x.began && r.trigger <= x.at
  }

  ghost predicate RoundsInv(rounds: map<nat, Round>, now: nat, committed: nat) {
    forall r :: r in rounds ==> RoundOk(rounds[r], now, committed)
  }

  ghost function Users(calls: map<nat, Call>, r: nat): set<nat> {
    set c | c in calls && calls[c].open && calls[c].round == r
  }

  ghost predicate UsersOk(calls: map<nat, Call>, rounds: map<nat, Round>, r: nat) {
    r in rounds && rounds[r].users == |Users(calls, r)|
  }

  /** The current round of a scope is one in use: none is kept when done. */
  ghost predicate UsersInv(current: map<nat, nat>, calls: map<nat, Call>, rounds: map<nat, Round>) {
    && (forall r :: r in rounds ==> UsersOk(calls, rounds, r))
    && (forall c :: c in calls ==> calls[c].round in rounds)
    && (forall x :: x in current ==> current[x] in rounds && rounds[current[x]].scope == x && rounds[current[x]].users > 0)
  }

  /** The round a source could join was made after the source was built. */
  ghost predicate SourceOk(src: Source, current: map<nat, nat>, rounds: map<nat, Round>, now: nat, committed: nat) {
    && src.trigger <= committed && src.built <= now
    && (src.scope in current && current[src.scope] in rounds && src.preexisting != Some(current[src.scope])
        ==> src.built <= rounds[current[src.scope]].born)
  }

  ghost predicate SourcesInv(sources: map<nat, Source>, current: map<nat, nat>, rounds: map<nat, Round>, now: nat, committed: nat) {
    forall x :: x in sources ==> SourceOk(sources[x], current, rounds, now, committed)
  }

  ghost predicate CallOk(c: Call, sources: map<nat, Source>, rounds: map<nat, Round>) {
    c.source in sources && c.round in rounds && c.needed <= rounds[c.round].trigger && sources[c.source].built <= rounds[c.round].born
  }

  ghost predicate CallsInv(calls: map<nat, Call>, sources: map<nat, Source>, rounds: map<nat, Round>) {
    forall c :: c in calls ==> CallOk(calls[c], sources, rounds)
  }

  ghost predicate Inv(s: State) {
    && RoundsInv(s.rounds, s.now, s.committed) && UsersInv(s.current, s.calls, s.rounds)
    && SourcesInv(s.sources, s.current, s.rounds, s.now, s.committed) && CallsInv(s.calls, s.sources, s.rounds)
  }

  /** Time and the log only go on. */
  lemma Later(s: State, u: State)
    requires Inv(s) && s.now <= u.now && s.committed <= u.committed
    requires u == s.(now := u.now, committed := u.committed)
    ensures Inv(u)
  {
    forall r | r in s.rounds ensures RoundOk(s.rounds[r], u.now, u.committed) {
      assert RoundOk(s.rounds[r], s.now, s.committed);
    }
    forall x | x in s.sources ensures SourceOk(s.sources[x], s.current, s.rounds, u.now, u.committed) {
      assert SourceOk(s.sources[x], s.current, s.rounds, s.now, s.committed);
    }
  }

  lemma SourceKept(s: State, source: nat, src: Source)
    requires Inv(s) && SourceOk(src, s.current, s.rounds, s.now, s.committed)
    requires source in s.sources ==> src.built == s.sources[source].built
    requires source !in s.sources ==> forall c :: c in s.calls ==> s.calls[c].source in s.sources
    ensures Inv(s.(sources := s.sources[source := src]))
  {
    hide RoundsInv, UsersInv;
    var after := s.sources[source := src];
    forall x | x in after ensures SourceOk(after[x], s.current, s.rounds, s.now, s.committed) {
      if x != source {
        assert SourceOk(s.sources[x], s.current, s.rounds, s.now, s.committed);
      }
    }
    forall c | c in s.calls ensures CallOk(s.calls[c], after, s.rounds) {
      assert CallOk(s.calls[c], s.sources, s.rounds);
    }
  }

  lemma BuiltKept(s: State, source: nat, scope: nat)
    requires Inv(s) && source !in s.sources
    ensures Inv(Built(s, source, scope))
  {
    hide RoundsInv, UsersInv;
    forall c | c in s.calls ensures s.calls[c].source in s.sources {
      assert CallOk(s.calls[c], s.sources, s.rounds);
    }
    var preexisting := if scope in s.current then Some(s.current[scope]) else None;
    SourceKept(s, source, Source(scope, 0, preexisting, s.now));
  }

  lemma TriggeredKept(s: State, source: nat, seen: nat)
    requires Inv(s) && source in s.sources && seen <= s.committed
    ensures Inv(Triggered(s, source, seen))
  {
    hide RoundsInv, UsersInv, CallsInv;
    var src := s.sources[source];
    assert SourceOk(src, s.current, s.rounds, s.now, s.committed);
    SourceKept(s, source, src.(trigger := Max(src.trigger, seen)));
  }

  lemma LoadedKept(s: State, call: nat)
    requires Inv(s) && Enabled(s, Load(call))
    ensures Inv(Loaded(s, call))
  {
    var r := s.calls[call].round;
    var u := Loaded(s, call);
    forall x | x in u.rounds ensures RoundOk(u.rounds[x], s.now, s.committed) {
      assert RoundOk(s.rounds[x], s.now, s.committed);
    }
    hide RoundsInv;
    forall x | x in u.rounds ensures UsersOk(s.calls, u.rounds, x) {
      assert UsersOk(s.calls, s.rounds, x);
    }
    forall x | x in s.sources ensures SourceOk(s.sources[x], s.current, u.rounds, s.now, s.committed) {
      assert SourceOk(s.sources[x], s.current, s.rounds, s.now, s.committed);
    }
    forall c | c in s.calls ensures CallOk(s.calls[c], s.sources, u.rounds) {
      assert CallOk(s.calls[c], s.sources, s.rounds);
    }
  }

  // ----- beginning and ending a refresh -----

  /** A new round, not yet used, becomes the scope's current one. */
  ghost predicate Settled(s: State) {
    && RoundsInv(s.rounds, s.now, s.committed) && SourcesInv(s.sources, s.current, s.rounds, s.now, s.committed)
    && CallsInv(s.calls, s.sources, s.rounds) && (forall r :: r in s.rounds ==> UsersOk(s.calls, s.rounds, r))
    && (forall c :: c in s.calls ==> s.calls[c].round in s.rounds)
  }

  function Made(s: State, src: Source, added: nat): State {
    s.(current := s.current[src.scope := added], rounds := s.rounds[added := Round(src.scope, 0, src.trigger, {}, s.now)])
  }

  lemma MadeSettled(s: State, source: nat, added: nat)
    requires Inv(s) && source in s.sources && added !in s.rounds
    ensures Settled(Made(s, s.sources[source], added))
  {
    var src := s.sources[source];
    var u := Made(s, src, added);
    assert SourceOk(src, s.current, s.rounds, s.now, s.committed);
    forall r | r in u.rounds ensures RoundOk(u.rounds[r], s.now, s.committed) && UsersOk(s.calls, u.rounds, r) {
      if r != added {
        assert RoundOk(s.rounds[r], s.now, s.committed) && UsersOk(s.calls, s.rounds, r);
      } else {
        assert Users(s.calls, added) == {};
      }
    }
    forall x | x in s.sources ensures SourceOk(s.sources[x], u.current, u.rounds, s.now, s.committed) {
      assert SourceOk(s.sources[x], s.current, s.rounds, s.now, s.committed);
    }
    forall c | c in s.calls ensures CallOk(s.calls[c], s.sources, u.rounds) {
      assert CallOk(s.calls[c], s.sources, s.rounds);
    }
  }

  /** The call joins the current round. */
  function Joined(s: State, call: nat, source: nat, r: nat): State
    requires source in s.sources && r in s.rounds
  {
    s.(rounds := s.rounds[r := s.rounds[r].(users := s.rounds[r].users + 1)],
       sources := s.sources[source := s.sources[source].(preexisting := None)],
       calls := s.calls[call := Call(source, r, s.sources[source].trigger, true)])
  }

  lemma JoinedUsers(calls: map<nat, Call>, call: nat, c: Call, r: nat)
    requires call !in calls && c.open
    ensures |Users(calls[call := c], r)| == |Users(calls, r)| + if r == c.round then 1 else 0
  {
    if r == c.round {
      assert Users(calls[call := c], r) == Users(calls, r) + {call};
    } else {
      assert Users(calls[call := c], r) == Users(calls, r);
    }
  }

  lemma JoinedSettled(s: State, call: nat, source: nat, r: nat)
    requires Settled(s) && call !in s.calls && source in s.sources && r in s.rounds
    requires var src := s.sources[source]; src.trigger <= s.rounds[r].trigger && src.built <= s.rounds[r].born
    requires s.sources[source].scope in s.current && s.current[s.sources[source].scope] == r
    ensures Settled(Joined(s, call, source, r))
  {
    hide Users;
    var u := Joined(s, call, source, r);
    forall x | x in u.rounds ensures RoundOk(u.rounds[x], s.now, s.committed) && UsersOk(u.calls, u.rounds, x) {
      assert RoundOk(s.rounds[x], s.now, s.committed) && UsersOk(s.calls, s.rounds, x);
      JoinedUsers(s.calls, call, u.calls[call], x);
    }
    forall x | x in u.sources ensures SourceOk(u.sources[x], s.current, u.rounds, s.now, s.committed) {
      assert SourceOk(s.sources[x], s.current, s.rounds, s.now, s.committed);
    }
    forall c | c in u.calls ensures CallOk(u.calls[c], u.sources, u.rounds) {
      if c != call {
        assert CallOk(s.calls[c], s.sources, s.rounds);
      }
    }
  }

  lemma CurrentFacts(s: State, source: nat)
    requires Inv(s) && source in s.sources && !NeedsRound(s.current, s.rounds, s.sources[source])
    ensures var src := s.sources[source];
            var r := s.current[src.scope];
            src.trigger <= s.rounds[r].trigger && src.built <= s.rounds[r].born
  {
    hide RoundsInv, UsersInv, CallsInv;
    assert SourceOk(s.sources[source], s.current, s.rounds, s.now, s.committed);
  }

  lemma CurrentUsed(s: State, u: State, scope: nat, r: nat)
    requires UsersInv(s.current, s.calls, s.rounds) && r in u.rounds && u.rounds[r].scope == scope && u.rounds[r].users > 0
    requires u.current == s.current[scope := r]
    requires forall x :: x in s.rounds && x != r ==> x in u.rounds && u.rounds[x] == s.rounds[x]
    requires forall x :: x in s.current && x != scope ==> s.current[x] != r
    ensures forall x :: x in u.current ==> u.current[x] in u.rounds && u.rounds[u.current[x]].scope == x && u.rounds[u.current[x]].users > 0
  {
  }

  /** The state in which the call joins: with a new round if it needs one. */
  function Ready(s: State, source: nat, added: nat): State
    requires source in s.sources
  {
    if NeedsRound(s.current, s.rounds, s.sources[source]) then Made(s, s.sources[source], added) else s
  }

  lemma ReadySettled(s: State, source: nat, added: nat)
    requires Inv(s) && source in s.sources && added !in s.rounds
    ensures var u, src := Ready(s, source, added), s.sources[source];
            && Settled(u) && u.sources == s.sources && u.calls == s.calls && src.scope in u.current && u.current[src.scope] in u.rounds
            && src.trigger <= u.rounds[u.current[src.scope]].trigger && src.built <= u.rounds[u.current[src.scope]].born
  {
    var src := s.sources[source];
    assert SourceOk(src, s.current, s.rounds, s.now, s.committed);
    if NeedsRound(s.current, s.rounds, src) {
      MadeSettled(s, source, added);
    } else {
      CurrentFacts(s, source);
    }
  }

  lemma BegunIs(s: State, call: nat, source: nat, added: nat)
    requires source in s.sources
    ensures var u, src := Ready(s, source, added), s.sources[source];
            && src.scope in u.current && u.current[src.scope] in u.rounds
            && Begun(s, call, source, added) == Joined(u, call, source, u.current[src.scope])
  {
  }

  lemma ReadyCurrent(s: State, source: nat, added: nat)
    requires UsersInv(s.current, s.calls, s.rounds) && source in s.sources && added !in s.rounds
    ensures var u, scope := Ready(s, source, added), s.sources[source].scope;
            && scope in u.current && u.current[scope] in u.rounds && u.rounds[u.current[scope]].scope == scope
            && u.current == s.current[scope := u.current[scope]]
            && (forall x :: x in s.rounds ==> x in u.rounds && u.rounds[x] == s.rounds[x])
            && (forall x :: x in s.current && x != scope ==> s.current[x] != u.current[scope])
  {
  }

  lemma BegunKept(s: State, call: nat, source: nat, added: nat)
    requires Inv(s) && Enabled(s, Begin(call, source, added))
    ensures Inv(Begun(s, call, source, added))
  {
    hide RoundsInv, SourcesInv, CallsInv, UsersOk, NeedsRound, Ready, Begun;
    var ready, scope := Ready(s, source, added), s.sources[source].scope;
    ReadySettled(s, source, added);
    ReadyCurrent(s, source, added);
    BegunIs(s, call, source, added);
    var r := ready.current[scope];
    var u := Joined(ready, call, source, r);
    JoinedSettled(ready, call, source, r);
    assert UsersOk(u.calls, u.rounds, r);
    UsersAre(u.calls, u.rounds, r, call);
    CurrentUsed(s, u, scope, r);
  }

  lemma UsersAre(calls: map<nat, Call>, rounds: map<nat, Round>, r: nat, call: nat)
    requires UsersOk(calls, rounds, r) && call in calls && calls[call].open && calls[call].round == r
    ensures rounds[r].users > 0
  {
    assert call in Users(calls, r);
  }

  lemma EndedUsers(calls: map<nat, Call>, call: nat, r: nat)
    requires call in calls && calls[call].open
    ensures |Users(calls[call := calls[call].(open := false)], r)| == |Users(calls, r)| - if r == calls[call].round then 1 else 0
  {
    var after := Users(calls[call := calls[call].(open := false)], r);
    if r == calls[call].round {
      assert Users(calls, r) == after + {call};
    } else {
      assert Users(calls, r) == after;
    }
  }

  lemma EndedKept(s: State, call: nat)
    requires Inv(s) && Enabled(s, End(call))
    ensures Inv(Ended(s, call))
  {
    hide Users;
    var u := Ended(s, call);
    var r := s.calls[call].round;
    forall x | x in u.rounds ensures RoundOk(u.rounds[x], s.now, s.committed) && UsersOk(u.calls, u.rounds, x) {
      assert RoundOk(s.rounds[x], s.now, s.committed) && UsersOk(s.calls, s.rounds, x);
      EndedUsers(s.calls, call, x);
    }
    assert UsersOk(u.calls, u.rounds, r);
    forall x | x in s.sources ensures SourceOk(s.sources[x], u.current, u.rounds, s.now, s.committed) {
      assert SourceOk(s.sources[x], s.current, s.rounds, s.now, s.committed);
    }
    forall c | c in u.calls ensures CallOk(u.calls[c], s.sources, u.rounds) {
      assert CallOk(s.calls[c], s.sources, s.rounds);
    }
  }

  lemma InvKept(s: State, a: Action)
    requires Inv(s) && Enabled(s, a)
    ensures Inv(Next(s, a))
  {
    hide Inv, Built, Triggered, Begun, Loaded, Ended;
    match a {
      case Commit =>
      case Build(source, scope) => BuiltKept(s, source, scope);
      case Trigger(source, seen) => TriggeredKept(s, source, seen);
      case Begin(call, source, added) => BegunKept(s, call, source, added);
      case Load(call) => LoadedKept(s, call);
      case Take(_, _) =>
      case End(call) => EndedKept(s, call);
    }
    assert Step(s, a).now == s.now by { StepNow(s, a); }
    if a.Commit? {
      Later(s, Next(s, a));
    } else {
      Later(Step(s, a), Next(s, a));
    }
  }

  lemma StepNow(s: State, a: Action)
    requires Enabled(s, a)
    ensures Step(s, a).now == s.now
  {
  }

  // ----- runs -----

  ghost predicate StepAt(trace: seq<State>, actions: seq<Action>, i: nat)
    requires i < |actions| < |trace|
  {
    Enabled(trace[i], actions[i]) && trace[i + 1] == Next(trace[i], actions[i])
  }

  ghost predicate IsRun(trace: seq<State>, actions: seq<Action>) {
    && |trace| == |actions| + 1 && trace[0] == Init()
    && forall i :: 0 <= i < |actions| ==> StepAt(trace, actions, i)
  }

  lemma RunInv(trace: seq<State>, actions: seq<Action>, n: nat)
    requires IsRun(trace, actions) && n < |trace|
    ensures Inv(trace[n])
  {
    hide Next, Enabled;
    assert Inv(Init());
    hide Inv, Init;
    var i := 0;
    while i < n
      invariant i <= n && Inv(trace[i])
    {
      assert StepAt(trace, actions, i);
      InvKept(trace[i], actions[i]);
      i := i + 1;
    }
  }

  /** Whatever rounds are shared, the snapshot a Refresh gets was read after its
      source was built, and shows every invalidation the source had seen. */
  lemma SharedSnapshotsAreFresh(trace: seq<State>, actions: seq<Action>, n: nat, call: nat, snapshot: Snapshot)
    requires IsRun(trace, actions) && n < |actions| && actions[n] == Take(call, snapshot)
    ensures var s := trace[n];
            && call in s.calls && s.calls[call].source in s.sources
            && s.sources[s.calls[call].source].built <= snapshot.began && s.calls[call].needed <= snapshot.at
  {
    RunInv(trace, actions, n);
    assert StepAt(trace, actions, n);
    hide IsRun, UsersInv, SourcesInv;
    var s := trace[n];
    assert CallOk(s.calls[call], s.sources, s.rounds);
    assert RoundOk(s.rounds[s.calls[call].round], s.now, s.committed);
  }

  /** A round is current only while a Refresh uses it: no finished snapshot is
      handed out later. */
  lemma CurrentRoundsAreInUse(trace: seq<State>, actions: seq<Action>, n: nat, scope: nat)
    requires IsRun(trace, actions) && n < |trace| && scope in trace[n].current
    ensures exists c :: c in trace[n].calls && trace[n].calls[c].open && trace[n].calls[c].round == trace[n].current[scope]
  {
    RunInv(trace, actions, n);
    hide IsRun, RoundsInv, SourcesInv, CallsInv;
    var s := trace[n];
    var r := s.current[scope];
    assert UsersOk(s.calls, s.rounds, r);
    assert Users(s.calls, r) != {};
    var c :| c in Users(s.calls, r);
  }

  // ----- the shared object -----

  class PinsRefreshes {
    var current: map<nat, nat>
    var rounds: map<nat, Round>
    var sources: map<nat, Source>
    var calls: map<nat, Call>

    ghost function View(now: nat, committed: nat): State
      reads this
    {
      State(now, committed, current, rounds, sources, calls)
    }

    constructor ()
      ensures View(0, 0) == Init()
    {
      current, rounds, sources, calls := map[], map[], map[], map[];
    }

    method Build(source: nat, scope: nat, now: nat, ghost committed: nat)
      modifies this`sources
      ensures View(now, committed) == Built(old(View(now, committed)), source, scope)
    {
      var preexisting := if scope in current then Some(current[scope]) else None;
      sources := sources[source := Source(scope, 0, preexisting, now)];
    }

    method Trigger(source: nat, seen: nat, ghost now: nat, ghost committed: nat)
      requires source in sources
      modifies this`sources
      ensures View(now, committed) == Triggered(old(View(now, committed)), source, seen)
    {
      var src := sources[source];
      sources := sources[source := src.(trigger := Max(src.trigger, seen))];
    }

    /** Refresh up to its reads: finds or makes the round and counts itself in. */
    method Enter(call: nat, source: nat, added: nat, now: nat, ghost committed: nat)
      requires Inv(View(now, committed)) && Enabled(View(now, committed), Begin(call, source, added))
      modifies this
      ensures View(now, committed) == Begun(old(View(now, committed)), call, source, added)
    {
      hide Inv, RoundsInv, UsersInv, SourcesInv, CallsInv;
      var src := sources[source];
      if src.scope !in current || current[src.scope] !in rounds || src.preexisting == Some(current[src.scope])
         || rounds[current[src.scope]].trigger < src.trigger {
        rounds := rounds[added := Round(src.scope, 0, src.trigger, {}, now)];
        current := current[src.scope := added];
      }
      var r := current[src.scope];
      sources := sources[source := src.(preexisting := None)];
      rounds := rounds[r := rounds[r].(users := rounds[r].users + 1)];
      calls := calls[call := Call(source, r, src.trigger, true)];
    }

    /** Refresh's deferred part: the last one out discards the round. */
    method Leave(call: nat, ghost now: nat, ghost committed: nat)
      requires Enabled(View(now, committed), End(call))
      modifies this
      ensures View(now, committed) == Ended(old(View(now, committed)), call)
    {
      var r := calls[call].round;
      rounds := rounds[r := rounds[r].(users := rounds[r].users - 1)];
      calls := calls[call := calls[call].(open := false)];
      var scope := rounds[r].scope;
      if rounds[r].users == 0 && scope in current && current[scope] == r {
        current := current - {scope};
      }
    }
  }
}
