/** Sessions and their streams one step at a time: what each call has done so far
    and what ends or refuses a stream.
    SessionStreamsCauses states what comes of it. */
module SessionStreamsReasons {
  import opened Common
  import opened SessionStreams
  import opened SessionStreamsRuns

  // ----- what a deleting call may cancel -----

  ghost predicate Started(c: nat, request: Request, n: nat, actions: seq<Action>) {
    exists i :: 0 <= i < n && i < |actions| && actions[i] == Start(c, request)
  }

  /** At step i the call found its token's session live. */
  ghost predicate FoundAt(c: nat, x: nat, i: nat, trace: seq<State>, actions: seq<Action>) {
    && i < |actions| && i < |trace| && actions[i].Resolve? && actions[i].c == c && !actions[i].fails
    && x in trace[i].live && x in trace[i].made && trace[i].made[x].expiry > actions[i].asOf
  }

  ghost predicate FoundBefore(c: nat, x: nat, n: nat, trace: seq<State>, actions: seq<Action>) {
    exists i :: 0 <= i < n && FoundAt(c, x, i, trace, actions)
  }

  /** At step m the call's mutation deleted session x and reported success. */
  ghost predicate DeletedAt(c: nat, x: nat, m: nat, trace: seq<State>, actions: seq<Action>) {
    && m < |actions| && m + 1 < |trace| && actions[m].Mutate? && actions[m].c == c && !actions[m].reports
    && x in trace[m].live && x !in trace[m + 1].live
  }

  /** At step m the call's mutation reported an error. */
  predicate ReportedAt(c: nat, m: nat, actions: seq<Action>) {
    m < |actions| && actions[m].Mutate? && actions[m].c == c && actions[m].reports
  }

  /** Before step n the call deleted session x, or may have: its mutation
      reported an error, and the call had found x live under its token. */
  ghost predicate Ends(c: nat, x: nat, n: nat, trace: seq<State>, actions: seq<Action>) {
    || (exists m :: 0 <= m < n && DeletedAt(c, x, m, trace, actions))
    || (exists m :: 0 <= m < n && ReportedAt(c, m, actions) && FoundBefore(c, x, m, trace, actions)
                    && (Started(c, Delete(x), m, actions) || Started(c, Replace(x), m, actions)))
  }

  /** Before step n the call may have deleted any session of the account but
      one: its mutation reported an error. */
  ghost predicate EndsAccount(c: nat, account: nat, n: nat, actions: seq<Action>) {
    exists m, current :: 0 <= m < n && ReportedAt(c, m, actions) && Started(c, DeleteOthers(account, current), m, actions)
  }

  /** What the calls know and owe has its reasons. */
  ghost predicate CallReasons(c: nat, call: Call, n: nat, trace: seq<State>, actions: seq<Action>) {
    && Started(c, call.request, n, actions)
    && (call.phase.Mutating? && call.phase.previous.Some? ==>
          !call.request.DeleteOthers? && call.phase.previous.value == call.request.token
          && FoundBefore(c, call.request.token, n, trace, actions))
    && (call.phase.Cancelling? ==>
          && (forall x :: x in call.phase.ids ==> Ends(c, x, n, trace, actions))
          && (call.phase.wholeAccount.Some? ==> EndsAccount(c, call.phase.wholeAccount.value, n, actions)))
  }

  ghost predicate Reasons(calls: map<nat, Call>, n: nat, trace: seq<State>, actions: seq<Action>) {
    forall c :: c in calls ==> CallReasons(c, calls[c], n, trace, actions)
  }

  lemma ReasonsLater(c: nat, call: Call, n: nat, trace: seq<State>, actions: seq<Action>)
    requires CallReasons(c, call, n, trace, actions)
    ensures CallReasons(c, call, n + 1, trace, actions)
  {
    hide DeletedAt, ReportedAt, FoundAt;
    StartedLater(c, call.request, n, actions);
    if call.phase.Cancelling? {
      forall x | x in call.phase.ids ensures Ends(c, x, n + 1, trace, actions) {
        EndsLater(c, x, n, trace, actions);
      }
    }
  }

  lemma StartedLater(c: nat, request: Request, n: nat, actions: seq<Action>)
    requires Started(c, request, n, actions)
    ensures Started(c, request, n + 1, actions)
  {
  }

  lemma EndsLater(c: nat, x: nat, n: nat, trace: seq<State>, actions: seq<Action>)
    requires Ends(c, x, n, trace, actions)
    ensures Ends(c, x, n + 1, trace, actions)
  {
    hide DeletedAt, ReportedAt, FoundBefore, Started;
  }

  /** Who a committed mutation deletes. */
  predicate Targets(request: Request, made: map<nat, Session>, x: nat) {
    match request
    case Delete(token) => x == token
    case Replace(token) => x == token
    case DeleteOthers(account, current) => x in made && made[x].account == account && x != current
  }

  /** A mutation that takes effect deletes exactly the sessions it names, and
      one that does not deletes nothing. */
  lemma DeletesExactly(cfg: Config, s: State, a: Action, x: nat)
    requires Inv(cfg, s) && Enabled(cfg, s, a) && a.Mutate? && x in s.live
    ensures x !in Next(cfg, s, a).live <==> a.commits && Targets(s.calls[a.c].request, s.made, x)
  {
    hide CallsInv, GuardedInv, HubInv, CapsInv;
  }

  lemma MutateShape(cfg: Config, s: State, a: Action)
    requires Enabled(cfg, s, a) && a.Mutate?
    ensures var call := s.calls[a.c];
            var deleted := if a.commits then Deleted(s.made, s.live, call.request) else {};
            var t := Next(cfg, s, a);
            && t.calls == s.calls[a.c := Call(call.request, Owed(call.request, call.phase.previous, deleted, a.reports))]
            && t.live - {a.id} == s.live - deleted - {a.id}
  {
    hide Owed, Deleted;
    var m := Mutated(s, a.c, a.commits, a.reports);
    hide Mutated;
    assert Next(cfg, s, a).calls == m.calls;
  }

  lemma MutatedCall(cfg: Config, s: State, a: Action)
    requires Enabled(cfg, s, a) && a.Mutate? && s.live <= s.made.Keys
    ensures var call, now := s.calls[a.c], Next(cfg, s, a).calls[a.c];
            && now.request == call.request && now.phase.Cancelling?
            && (forall x :: x in now.phase.ids ==>
                  if a.reports then call.phase.previous == Some(x) && !call.request.DeleteOthers? else x in s.live && x !in Next(cfg, s, a).live)
            && (now.phase.wholeAccount.Some? ==>
                  a.reports && call.request.DeleteOthers? && call.request.account == now.phase.wholeAccount.value)
  {
    MutateShape(cfg, s, a);
    assert a.id !in s.live && (a.commits || a.reports);
    hide Next, Enabled;
  }

  lemma MutateReasons(cfg: Config, trace: seq<State>, actions: seq<Action>, n: nat)
    requires n < |actions| && n + 1 < |trace| && Enabled(cfg, trace[n], actions[n]) && actions[n].Mutate?
    requires trace[n].live <= trace[n].made.Keys
    requires trace[n + 1] == Next(cfg, trace[n], actions[n])
    requires CallReasons(actions[n].c, trace[n].calls[actions[n].c], n, trace, actions)
    ensures CallReasons(actions[n].c, trace[n + 1].calls[actions[n].c], n + 1, trace, actions)
  {
    var s, a := trace[n], actions[n];
    MutatedCall(cfg, s, a);
    hide Next, Started, FoundBefore;
    var c := a.c;
    StartedLater(c, s.calls[c].request, n, actions);
    if a.reports {
      assert ReportedAt(c, n, actions);
    } else {
      var ids := trace[n + 1].calls[c].phase.ids;
      forall x | x in ids ensures Ends(c, x, n + 1, trace, actions) {
        assert DeletedAt(c, x, n, trace, actions);
      }
    }
  }

  lemma CallMoves(cfg: Config, s: State, a: Action)
    requires Enabled(cfg, s, a) && (a.Resolve? || a.CancelSession? || a.CancelAccount? || a.Return?)
    ensures var call, now := s.calls[a.c], Next(cfg, s, a).calls[a.c];
            && now.request == call.request
            && (now.phase.Mutating? && now.phase.previous.Some? ==>
                  a.Resolve? && !a.fails && !call.request.DeleteOthers? && now.phase.previous.value == call.request.token
                  && Resolves(s.made, s.live, call.request.token, a.asOf))
            && (now.phase.Cancelling? ==>
                  call.phase.Cancelling? && now.phase.ids <= call.phase.ids
                  && (now.phase.wholeAccount.Some? ==> now.phase.wholeAccount == call.phase.wholeAccount))
  {
    hide CancelledSession, CancelledAccount;
  }

  lemma CallStepReasons(cfg: Config, trace: seq<State>, actions: seq<Action>, n: nat)
    requires n < |actions| && n + 1 < |trace| && Enabled(cfg, trace[n], actions[n])
    requires trace[n + 1] == Next(cfg, trace[n], actions[n]) && OfCall(actions[n]) && !actions[n].Mutate?
    requires actions[n].Start? || CallReasons(actions[n].c, trace[n].calls[actions[n].c], n, trace, actions)
    ensures CallReasons(actions[n].c, trace[n + 1].calls[actions[n].c], n + 1, trace, actions)
  {
    var s, a := trace[n], actions[n];
    if a.Start? {
      assert Started(a.c, a.request, n + 1, actions);
    } else {
      CallMoves(cfg, s, a);
      hide Next, Ends, EndsAccount, Started;
      ReasonsLater(a.c, s.calls[a.c], n, trace, actions);
      if a.Resolve? && trace[n + 1].calls[a.c].phase.Mutating? && trace[n + 1].calls[a.c].phase.previous.Some? {
        assert FoundAt(a.c, s.calls[a.c].request.token, n, trace, actions);
      }
    }
  }

  predicate OfCall(a: Action) {
    a.Start? || a.Resolve? || a.Mutate? || a.CancelSession? || a.CancelAccount? || a.Return?
  }

  lemma OneCall(cfg: Config, s: State, a: Action)
    requires Enabled(cfg, s, a) && OfCall(a)
    ensures var calls := Next(cfg, s, a).calls; a.c in calls && calls == s.calls[a.c := calls[a.c]]
  {
    if a.Mutate? {
      MutateShape(cfg, s, a);
      hide Next, Enabled, Owed, Deleted;
    } else {
      hide Mutated, CancelledSession, CancelledAccount, Resolves;
    }
  }

  lemma NoCall(cfg: Config, s: State, a: Action)
    requires Enabled(cfg, s, a) && !OfCall(a)
    ensures Next(cfg, s, a).calls == s.calls
  {
    hide Admits, CancelledAll, Resolves, Ended;
  }

  /** A step of one call leaves the others alone. */
  lemma OtherCalls(cfg: Config, s: State, a: Action, c: nat)
    requires Enabled(cfg, s, a) && !(OfCall(a) && a.c == c)
    ensures c in Next(cfg, s, a).calls <==> c in s.calls
    ensures c in s.calls ==> Next(cfg, s, a).calls[c] == s.calls[c]
  {
    hide Next, Enabled;
    if OfCall(a) {
      OneCall(cfg, s, a);
    } else {
      NoCall(cfg, s, a);
    }
  }

  lemma StepReasons(cfg: Config, trace: seq<State>, actions: seq<Action>, n: nat)
    requires n < |actions| && n + 1 < |trace| && Enabled(cfg, trace[n], actions[n]) && trace[n].live <= trace[n].made.Keys
    requires trace[n + 1] == Next(cfg, trace[n], actions[n]) && Reasons(trace[n].calls, n, trace, actions)
    ensures Reasons(trace[n + 1].calls, n + 1, trace, actions)
  {
    hide CallReasons;
    var s, a, calls := trace[n], actions[n], trace[n + 1].calls;
    forall c | c in calls ensures CallReasons(c, calls[c], n + 1, trace, actions) {
      if a.Mutate? && a.c == c {
        MutateReasons(cfg, trace, actions, n);
      } else if OfCall(a) && a.c == c {
        CallStepReasons(cfg, trace, actions, n);
      } else {
        OtherCalls(cfg, s, a, c);
        ReasonsLater(c, s.calls[c], n, trace, actions);
      }
    }
  }

  lemma LiveAreMade(cfg: Config, trace: seq<State>, actions: seq<Action>, n: nat)
    requires IsRun(cfg, trace, actions) && n < |trace|
    ensures trace[n].live <= trace[n].made.Keys
  {
    RunInv(cfg, trace, actions, n);
    hide IsRun, CallsInv, GuardedInv, HubInv, CapsInv;
  }

  lemma RunReasons(cfg: Config, trace: seq<State>, actions: seq<Action>, n: nat)
    requires IsRun(cfg, trace, actions) && n < |trace|
    ensures Reasons(trace[n].calls, n, trace, actions)
  {
    hide Next, Enabled, CallReasons;
    var i := 0;
    while i < n
      invariant i <= n && Reasons(trace[i].calls, i, trace, actions)
    {
      assert StepAt(cfg, trace, actions, i);
      LiveAreMade(cfg, trace, actions, i);
      StepReasons(cfg, trace, actions, i);
      i := i + 1;
    }
  }

  // ----- why a connection is cancelled -----

  /** Step i ends connection x: its client went, the server shut down, or a
      call ended its session, or may have. */
  ghost predicate EndsStream(x: nat, i: nat, trace: seq<State>, actions: seq<Action>) {
    && i < |actions| && i < |trace| && x in trace[i].connections
    && match actions[i]
       case ClientGone(y) => y == x
       case Shutdown => true
       case CancelSession(c, id) => id == trace[i].connections[x].session && Ends(c, id, i, trace, actions)
       case CancelAccount(c) => EndsAccount(c, trace[i].connections[x].account, i, actions)
       case _ => false
  }

  /** What one step does to a connection. */
  predicate Marked(s: State, a: Action, x: nat)
    requires x in s.connections
  {
    || s.connections[x].cancelled
    || match a
       case ClientGone(y) => y == x
       case Shutdown => true
       case CancelSession(c, id) => id == s.connections[x].session
       case CancelAccount(c) =>
         c in s.calls && s.calls[c].phase.Cancelling? && s.calls[c].phase.wholeAccount == Some(s.connections[x].account)
       case _ => false
  }

  predicate OfHub(a: Action) {
    a.Register? || a.Close? || a.ClientGone? || a.Shutdown? || a.CancelSession? || a.CancelAccount?
  }

  lemma NoConnection(cfg: Config, s: State, a: Action)
    requires Enabled(cfg, s, a) && !OfHub(a)
    ensures Next(cfg, s, a).connections == s.connections
  {
    hide Mutated, Resolves, Ended;
    if a.Mutate? {
      assert Mutated(s, a.c, a.commits, a.reports).connections == s.connections by { MutatedHub(s, a.c, a.commits, a.reports); }
    }
  }

  lemma MutatedHub(s: State, c: nat, commits: bool, reports: bool)
    requires c in s.calls && s.calls[c].phase.Mutating?
    ensures Mutated(s, c, commits, reports).connections == s.connections
    ensures Mutated(s, c, commits, reports).streams == s.streams
  {
    hide Owed, Deleted;
  }

  lemma ConnectionStep(cfg: Config, s: State, a: Action, x: nat)
    requires Enabled(cfg, s, a) && x in Next(cfg, s, a).connections
    ensures x in s.connections ==> Next(cfg, s, a).connections[x] == s.connections[x].(cancelled := Marked(s, a, x))
    ensures x !in s.connections ==> a == Register(x) && !Next(cfg, s, a).connections[x].cancelled
  {
    if OfHub(a) {
      hide Mutated, Admits, Resolves, Ended;
    } else {
      NoConnection(cfg, s, a);
      hide Next, Enabled;
    }
  }

  lemma StepEnds(cfg: Config, trace: seq<State>, actions: seq<Action>, n: nat, x: nat)
    requires IsRun(cfg, trace, actions) && n < |actions| && x in trace[n].connections && x in trace[n + 1].connections
    ensures trace[n + 1].connections[x].cancelled <==> trace[n].connections[x].cancelled || EndsStream(x, n, trace, actions)
  {
    assert StepAt(cfg, trace, actions, n);
    RunReasons(cfg, trace, actions, n);
    hide IsRun, Next, Ends, EndsAccount, Started;
    ConnectionStep(cfg, trace[n], actions[n], x);
    if actions[n].CancelSession? || actions[n].CancelAccount? {
      assert CallReasons(actions[n].c, trace[n].calls[actions[n].c], n, trace, actions);
    }
    if actions[n].CancelAccount? && EndsAccount(actions[n].c, trace[n].connections[x].account, n, actions) {
      OneAccount(cfg, trace, actions, n, actions[n].c, trace[n].connections[x].account);
    }
  }

  lemma OneAccount(cfg: Config, trace: seq<State>, actions: seq<Action>, n: nat, c: nat, account: nat)
    requires IsRun(cfg, trace, actions) && n < |actions| && actions[n] == CancelAccount(c) && Enabled(cfg, trace[n], actions[n])
    requires EndsAccount(c, account, n, actions) && Reasons(trace[n].calls, n, trace, actions)
    ensures trace[n].calls[c].phase.wholeAccount == Some(account)
  {
    var whole := trace[n].calls[c].phase.wholeAccount.value;
    hide IsRun, Next, Enabled, Ends, FoundBefore, Started;
    assert CallReasons(c, trace[n].calls[c], n, trace, actions);
    var m, current :| 0 <= m < n && ReportedAt(c, m, actions) && Started(c, DeleteOthers(account, current), m, actions);
    var k, other :| 0 <= k < n && ReportedAt(c, k, actions) && Started(c, DeleteOthers(whole, other), k, actions);
    OneRequest(cfg, trace, actions, m, DeleteOthers(account, current), k, DeleteOthers(whole, other), c);
  }

  lemma OneRequest(cfg: Config, trace: seq<State>, actions: seq<Action>, m: nat, r: Request, k: nat, q: Request, c: nat)
    requires IsRun(cfg, trace, actions) && Started(c, r, m, actions) && Started(c, q, k, actions)
    ensures r == q
  {
    hide IsRun;
    var i :| 0 <= i < m && i < |actions| && actions[i] == Start(c, r);
    var j :| 0 <= j < k && j < |actions| && actions[j] == Start(c, q);
    StartsOnce(cfg, trace, actions, i, j, c);
  }

  /** A call starts once. */
  lemma StartsOnce(cfg: Config, trace: seq<State>, actions: seq<Action>, i: nat, j: nat, c: nat)
    requires IsRun(cfg, trace, actions) && i < |actions| && j < |actions|
    requires actions[i].Start? && actions[i].c == c && actions[j].Start? && actions[j].c == c
    ensures i == j
  {
    hide Next, Enabled;
    var first, second := Min(i, j), Max(i, j);
    if first < second {
      CallsStay(cfg, trace, actions, first, second, c);
      assert StepAt(cfg, trace, actions, second);
      StartsNew(cfg, trace[second], actions[second]);
    }
  }

  lemma CallsStay(cfg: Config, trace: seq<State>, actions: seq<Action>, i: nat, j: nat, c: nat)
    requires IsRun(cfg, trace, actions) && i < j < |trace| && actions[i].Start? && actions[i].c == c
    ensures c in trace[j].calls
  {
    hide Next, Enabled;
    assert StepAt(cfg, trace, actions, i);
    StartEnters(cfg, trace[i], actions[i]);
    var k := i + 1;
    while k < j
      invariant i < k <= j && c in trace[k].calls
    {
      assert StepAt(cfg, trace, actions, k);
      CallsGrow(cfg, trace[k], actions[k], c);
      k := k + 1;
    }
  }

  lemma StartEnters(cfg: Config, s: State, a: Action)
    requires Enabled(cfg, s, a) && a.Start?
    ensures a.c in Next(cfg, s, a).calls
  {
  }

  lemma StartsNew(cfg: Config, s: State, a: Action)
    requires Enabled(cfg, s, a) && a.Start?
    ensures a.c !in s.calls
  {
  }

  lemma CallsGrow(cfg: Config, s: State, a: Action, c: nat)
    requires Enabled(cfg, s, a) && c in s.calls
    ensures c in Next(cfg, s, a).calls
  {
    hide Next, Enabled;
    if OfCall(a) && a.c == c {
      OneCall(cfg, s, a);
    } else {
      OtherCalls(cfg, s, a, c);
    }
  }

  /** Connection x was there from step i to step n. */
  ghost predicate ThereSince(x: nat, i: nat, n: nat, trace: seq<State>) {
    i <= n < |trace| && forall k :: i <= k <= n ==> x in trace[k].connections
  }

  lemma Since(cfg: Config, trace: seq<State>, actions: seq<Action>, m: nat, x: nat)
    requires m + 1 < |trace| && x in trace[m].connections && x in trace[m + 1].connections
    ensures (exists i :: 0 <= i < m + 1 && ThereSince(x, i, m + 1, trace) && EndsStream(x, i, trace, actions)) <==>
            EndsStream(x, m, trace, actions)
            || exists i :: 0 <= i < m && ThereSince(x, i, m, trace) && EndsStream(x, i, trace, actions)
  {
    hide EndsStream;
    if i :| 0 <= i < m && ThereSince(x, i, m, trace) && EndsStream(x, i, trace, actions) {
      assert ThereSince(x, i, m + 1, trace);
    }
    if i :| 0 <= i < m + 1 && ThereSince(x, i, m + 1, trace) && EndsStream(x, i, trace, actions) {
      assert i < m ==> ThereSince(x, i, m, trace);
    }
    assert ThereSince(x, m, m + 1, trace);
  }

  lemma MutatesOf(cfg: Config, s: State, a: Action)
    requires Enabled(cfg, s, a) && a.Mutate?
    ensures a.c in s.calls
  {
  }

  lemma RequestIs(cfg: Config, trace: seq<State>, actions: seq<Action>, n: nat, c: nat, request: Request)
    requires IsRun(cfg, trace, actions) && n < |trace| && c in trace[n].calls && Started(c, request, n, actions)
    ensures trace[n].calls[c].request == request
  {
    RunReasons(cfg, trace, actions, n);
    hide IsRun, Next, Enabled, Ends, EndsAccount, FoundBefore, Started;
    assert CallReasons(c, trace[n].calls[c], n, trace, actions);
    OneRequest(cfg, trace, actions, n, request, n, trace[n].calls[c].request, c);
  }

  predicate HasMutated(calls: map<nat, Call>, c: nat) {
    c in calls && (calls[c].phase.Cancelling? || calls[c].phase.Returned?)
  }

  lemma MutatedStays(cfg: Config, s: State, a: Action, c: nat)
    requires Enabled(cfg, s, a)
    ensures HasMutated(s.calls, c) ==> HasMutated(Next(cfg, s, a).calls, c) && !(a.Mutate? && a.c == c)
    ensures a.Mutate? && a.c == c ==> HasMutated(Next(cfg, s, a).calls, c)
  {
    if OfCall(a) && a.c == c {
      hide Deleted, CancelledSession, CancelledAccount, Resolves;
    } else {
      OtherCalls(cfg, s, a, c);
    }
  }

  /** A call mutates once. */
  lemma MutatesOnce(cfg: Config, trace: seq<State>, actions: seq<Action>, i: nat, j: nat, c: nat)
    requires IsRun(cfg, trace, actions) && i < |actions| && j < |actions|
    requires actions[i].Mutate? && actions[i].c == c && actions[j].Mutate? && actions[j].c == c
    ensures i == j
  {
    hide Next, Enabled, HasMutated;
    var first, second := Min(i, j), Max(i, j);
    if first < second {
      assert StepAt(cfg, trace, actions, first);
      MutatedStays(cfg, trace[first], actions[first], c);
      var k := first + 1;
      while k < second
        invariant first < k <= second && HasMutated(trace[k].calls, c)
      {
        assert StepAt(cfg, trace, actions, k);
        MutatedStays(cfg, trace[k], actions[k], c);
        k := k + 1;
      }
      assert StepAt(cfg, trace, actions, second);
      MutatedStays(cfg, trace[second], actions[second], c);
    }
  }

  // ----- why a stream is refused -----

  /** Step i refuses stream x, or closes it: there was no room or the server
      was shutting down; its second look failed or did not find the session;
      its context had ended or its session expired by the end of opening; or
      it closed. */
  ghost predicate RefusesAt(cfg: Config, x: nat, i: nat, trace: seq<State>, actions: seq<Action>) {
    && i < |actions| && i < |trace| && x in trace[i].streams
    && var s, stream := trace[i], trace[i].streams[x];
       match actions[i]
       case Register(y) =>
         && y == x
         && (s.shutdown || |s.connections| >= cfg.maxStreams
             || |set z | z in s.connections && s.connections[z].account == stream.account| >= cfg.limit)
       case Recheck(y, asOf, fails) =>
         y == x && (fails || stream.session !in s.live || stream.session !in s.made || s.made[stream.session].expiry <= asOf)
       case Accept(y) =>
         && y == x && x in s.connections
         && (s.connections[x].cancelled
             || (stream.session in s.made && s.now >= s.made[stream.session].expiry))
       case Close(y) => y == x
       case _ => false
  }

  predicate Refused(streams: map<nat, Stream>, x: nat) {
    x in streams && (streams[x].phase.Failing? || streams[x].phase.Over?)
  }

  predicate OfStream(a: Action) {
    a.Find? || a.Register? || a.Recheck? || a.Accept? || a.Close?
  }

  lemma NoStream(cfg: Config, s: State, a: Action)
    requires Enabled(cfg, s, a) && !OfStream(a)
    ensures Next(cfg, s, a).streams == s.streams
  {
    hide Mutated, CancelledSession, CancelledAccount, CancelledAll, Resolves;
    if a.Mutate? {
      assert Mutated(s, a.c, a.commits, a.reports).streams == s.streams by { MutatedHub(s, a.c, a.commits, a.reports); }
    }
  }

  lemma OneStream(cfg: Config, s: State, a: Action)
    requires Enabled(cfg, s, a) && OfStream(a)
    ensures var streams := Next(cfg, s, a).streams; a.s in streams && streams == s.streams[a.s := streams[a.s]]
    ensures a.Find? ==> a.s !in s.streams
    ensures !a.Find? ==> a.s in s.streams && (a.Close? || !Refused(s.streams, a.s))
    ensures var s' := Next(cfg, s, a).streams;
            Refused(s', a.s) <==>
            match a
            case Register(x) => !Admits(cfg, s.shutdown, s.connections, s.streams[x].account)
            case Recheck(x, asOf, fails) => fails || !Resolves(s.made, s.live, s.streams[x].session, asOf)
            case Accept(x) => Ended(s, x)
            case Close(_) => true
            case _ => false
  {
    hide Admits, Resolves, Ended;
  }

  lemma StreamStep(cfg: Config, trace: seq<State>, actions: seq<Action>, i: nat, x: nat)
    requires IsRun(cfg, trace, actions) && i < |actions|
    ensures Refused(trace[i + 1].streams, x) <==> Refused(trace[i].streams, x) || RefusesAt(cfg, x, i, trace, actions)
  {
    assert StepAt(cfg, trace, actions, i);
    hide IsRun, Next;
    var s, a := trace[i], actions[i];
    if OfStream(a) {
      OneStream(cfg, s, a);
      if a.s == x && a.Register? {
        assert OfAccount(s.connections, s.streams[x].account)
            == set z | z in s.connections && s.connections[z].account == s.streams[x].account;
      }
      if a.s == x && a.Accept? {
        SameSession(cfg, trace, actions, i, x);
      }
    } else {
      NoStream(cfg, s, a);
    }
  }

  lemma SameSession(cfg: Config, trace: seq<State>, actions: seq<Action>, i: nat, x: nat)
    requires IsRun(cfg, trace, actions) && i < |trace| && x in trace[i].connections
    ensures x in trace[i].streams && trace[i].connections[x].session == trace[i].streams[x].session
  {
    RunInv(cfg, trace, actions, i);
    hide IsRun, StoreInv, CallsInv, GuardedInv, CapsInv;
  }

  lemma NoneRefused(x: nat)
    ensures !Refused(map[], x)
  {
  }
}
