module SessionStreamsCauses {
  /** Over whole runs: why a stream ends or is refused. Nobody's stream is
      cancelled but for a cause in the run, and none is refused without one. */

  import opened Common
  import opened SessionStreams
  import opened SessionStreamsRuns
  import opened SessionStreamsReasons

  /** A connection is cancelled exactly if, since it registered, its client
      went, the server shut down, a call that deleted its session, or may
      have, cancelled it, or a call that may have deleted the sessions of its
      whole account did. */
  lemma CancelledForACause(cfg: Config, trace: seq<State>, actions: seq<Action>, n: nat, x: nat)
    requires IsRun(cfg, trace, actions) && n < |trace| && x in trace[n].connections
    ensures trace[n].connections[x].cancelled <==>
            exists i :: 0 <= i < n && ThereSince(x, i, n, trace) && EndsStream(x, i, trace, actions)
    decreases n
  {
    hide Next, Enabled, EndsStream;
    if n > 0 {
      assert StepAt(cfg, trace, actions, n - 1);
      if x in trace[n - 1].connections {
        CancelledForACause(cfg, trace, actions, n - 1, x);
        StepEnds(cfg, trace, actions, n - 1, x);
        Since(cfg, trace, actions, n - 1, x);
      } else {
        ConnectionStep(cfg, trace[n - 1], actions[n - 1], x);
      }
    }
  }

  /** So signing out the others leaves the current session's streams alone: no
      step of a DeleteOthers that reported success ends one. */
  lemma CurrentSessionSurvives(cfg: Config, trace: seq<State>, actions: seq<Action>, m: nat, i: nat, c: nat,
                               account: nat, current: nat, x: nat)
    requires IsRun(cfg, trace, actions) && m < i < |actions| && Started(c, DeleteOthers(account, current), m, actions)
    requires actions[m].Mutate? && actions[m].c == c && !actions[m].reports
    requires actions[i].CancelSession? || actions[i].CancelAccount?
    requires actions[i].c == c && x in trace[i].connections && trace[i].connections[x].session == current
    ensures !EndsStream(x, i, trace, actions)
  {
    hide Next, Enabled;
    forall k | 0 <= k < i && actions[k].Mutate? && actions[k].c == c ensures k == m {
      MutatesOnce(cfg, trace, actions, k, m, c);
    }
    if DeletedAt(c, current, m, trace, actions) {
      assert StepAt(cfg, trace, actions, m);
      RunInv(cfg, trace, actions, m);
      DeletesExactly(cfg, trace[m], actions[m], current);
      assert c in trace[m].calls by { MutatesOf(cfg, trace[m], actions[m]); }
      RequestIs(cfg, trace, actions, m, c, DeleteOthers(account, current));
    }
  }

  /** A stream is refused or closed exactly if some step did so: every other
      stream whose session was found goes on to be accepted. */
  lemma {:induction false} RefusedForACause(cfg: Config, trace: seq<State>, actions: seq<Action>, n: nat, x: nat)
    requires IsRun(cfg, trace, actions) && n < |trace|
    ensures Refused(trace[n].streams, x) <==> exists i :: 0 <= i < n && RefusesAt(cfg, x, i, trace, actions)
  {
    hide Next, Enabled, Refused, RefusesAt;
    if n == 0 {
      assert !Refused(map[], x) by { NoneRefused(x); }
    } else {
      RefusedForACause(cfg, trace, actions, n - 1, x);
      StreamStep(cfg, trace, actions, n - 1, x);
    }
  }
}
