module SessionStreamsRuns {
  /** Over whole runs: a deleted session has no live stream, and the caps hold. */

  import opened SessionStreams

  ghost predicate StepAt(cfg: Config, trace: seq<State>, actions: seq<Action>, i: nat)
    requires i < |actions| < |trace|
  {
    Enabled(cfg, trace[i], actions[i]) && trace[i + 1] == Next(cfg, trace[i], actions[i])
  }

  ghost predicate IsRun(cfg: Config, trace: seq<State>, actions: seq<Action>) {
    && |trace| == |actions| + 1 && trace[0] == Init()
    && forall i :: 0 <= i < |actions| ==> StepAt(cfg, trace, actions, i)
  }

  lemma InitInv(cfg: Config)
    ensures Inv(cfg, Init())
  {
    forall a ensures OfAccount(map[], a) == {} {
    }
  }

  lemma RunInv(cfg: Config, trace: seq<State>, actions: seq<Action>, n: nat)
    requires IsRun(cfg, trace, actions) && n < |trace|
    ensures Inv(cfg, trace[n])
  {
    hide Inv, Next, Enabled, Init;
    InitInv(cfg);
    var i := 0;
    while i < n
      invariant i <= n && Inv(cfg, trace[i])
    {
      assert StepAt(cfg, trace, actions, i);
      InvKept(cfg, trace[i], actions[i]);
      i := i + 1;
    }
  }

  /** Once the call that deleted a session has returned, whatever the store
      reported to it, no accepted stream of that session has a live context. */
  lemma DeletedSessionsHaveNoLiveStream(cfg: Config, trace: seq<State>, actions: seq<Action>, n: nat, x: nat)
    requires IsRun(cfg, trace, actions) && n < |trace|
    requires x in trace[n].streams && trace[n].streams[x].phase.Accepted?
    requires trace[n].streams[x].session in trace[n].remover
    requires var c := trace[n].remover[trace[n].streams[x].session];
             c in trace[n].calls ==> trace[n].calls[c].phase.Returned?
    ensures x in trace[n].connections && Ended(trace[n], x)
  {
    RunInv(cfg, trace, actions, n);
    hide IsRun, CapsInv, CallsInv;
    var s := trace[n];
    assert s.connections[x].session == s.streams[x].session;
    assert s.connections[x].cancelled || Guarded(s.streams[x].session, s.now, s.made, s.live, s.remover, s.calls);
  }

  /** Neither cap is ever exceeded, and after shutdown every connection is
      cancelled and none is added. */
  lemma CapsHold(cfg: Config, trace: seq<State>, actions: seq<Action>, n: nat, account: nat)
    requires IsRun(cfg, trace, actions) && n < |trace|
    ensures |trace[n].connections| <= cfg.maxStreams && |OfAccount(trace[n].connections, account)| <= cfg.limit
    ensures trace[n].shutdown ==> forall x :: x in trace[n].connections ==> trace[n].connections[x].cancelled
  {
    RunInv(cfg, trace, actions, n);
    hide IsRun, StoreInv, CallsInv, GuardedInv;
  }
}
