module HubLevelsExact {
  /** Over whole runs of the hub's levels: a raise is held up only by another
      that rose past what it loaded, a wait ends unsuccessfully only by its own
      context, and what a wait reports it has loaded since it last woke. */

  import opened Common
  import opened HubLevels
  import opened HubLevelsRuns
  import opened HubLevelsSteps

  /** A swap publishes its value, which raises the level; or the level has risen
      since the raise loaded it, nothing changes, and it loads again. */
  lemma SwapsExactly(trace: seq<State>, actions: seq<Action>, n: nat, r: nat, cell: nat)
    requires IsRun(trace, actions) && n < |actions| && actions[n] == Swap(r, cell)
    ensures r in trace[n].raises && r in trace[n + 1].raises
    ensures var s, u, raise := trace[n], trace[n + 1], trace[n].raises[r];
            if u.raises[r].phase.Closing? then Latest(u, raise.level) == raise.value > Latest(s, raise.level)
            else
              && u.raises[r].phase.Loading? && u.current == s.current && u.cells == s.cells
              && exists i :: 0 <= i < n && actions[i] == Load(r) && Latest(trace[i], raise.level) < Latest(s, raise.level)
  {
    assert StepAt(trace, actions, n);
    RunInv(trace, actions, n);
    RunBelow(trace, actions, n);
    RaisesLoaded(trace, actions, n, r);
    var s, raise := trace[n], trace[n].raises[r];
    SwapOutcome(s, r, cell);
    if s.current[raise.level] != raise.phase.loaded {
      hide Inv, Superseded, Next, Enabled;
      var i :| 0 <= i < n && actions[i] == Load(r) && raise.level in trace[i].current && trace[i].current[raise.level] == raise.phase.loaded;
      LoadedThen(trace, actions, i, n, raise.level);
    }
  }

  /** What a wait returns it has loaded since it last woke: each level's value
      was that level's at a later step, and the watch's generation was taken
      later too; and a wait is given up only when its own context ends. */
  lemma WaitsReportWhatIs(trace: seq<State>, actions: seq<Action>, n: nat, w: nat)
    requires IsRun(trace, actions) && n < |trace| && w in trace[n].waits
    ensures var phase := trace[n].waits[w].phase;
            && (phase.Returned? ==> forall l :: l in phase.levels ==> ReportedAt(trace, actions, n, w, l, phase.levels[l]))
            && (phase.Returned? && phase.glimpse.Some? ==> GlancedAt(actions, n, w, phase.glimpse.value))
            && (phase.Blocked? ==> forall l :: l in phase.captured ==> CapturedAt(trace, actions, n, w, l, phase.captured[l]))
            && (phase.Cancelled? ==> exists i :: 0 <= i < n && actions[i] == Cancel(w))
  {
    RunFresh(trace, actions, n, w);
    hide IsRun, ReportedAt, GlancedAt, CapturedAt;
  }
}
