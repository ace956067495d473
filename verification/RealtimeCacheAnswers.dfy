module RealtimeCacheAnswers {
  /** Over whole runs of the cache: why a Get returns what it returns. A failure
      has a cause in the run, and a value is that of the very load waited for. */

  import opened Common
  import opened RealtimeCache
  import opened RealtimeCacheRuns
  import opened RealtimeCacheTold

  /** A failure has a cause: the Get gave up itself; or a load it waited for,
      the starter's or, for a joiner, the joiners' own, met its timeout or the
      end of its context, or its loader returned an error, or everything shut
      down. Nobody else's leaving fails a Get. */
  lemma FailuresHaveCauses<K, V>(cfg: Config<K, V>, trace: seq<State<K, V>>, actions: seq<Action<K, V>>, n: nat, g: nat)
    requires IsRun(cfg, trace, actions) && n < |trace|
    requires g in trace[n].gets && trace[n].gets[g].phase.Returned? && trace[n].gets[g].phase.result.Failed?
    ensures GaveUp(g, n, actions)
            || exists c, joined, second ::
                 Waited(Wait(g, c, joined), n, trace, actions) && Troubled(Load(c, second), n, trace, actions) && (second ==> joined)
  {
    RunTold(cfg, trace, actions, n);
    hide IsRun, CallsTold, RunsTold, DownTold, RunTrouble, GaveUp, Waited, Troubled, Launches, Failures, Found;
    var h := Told(n, trace, actions);
    assert GetTold(cfg, g, trace[n].gets[g], h);
    if g !in h.gaveUp {
      var c, joined, second :| Wait(g, c, joined) in h.waited && Load(c, second) in h.troubled && (second ==> joined);
      assert Waited(Wait(g, c, joined), n, trace, actions) && Troubled(Load(c, second), n, trace, actions);
    }
  }

  /** A value is what the Get found stored, or what the very load it waited
      for was given by its run: the starter gets its own load's value, and a
      joiner gets that only if keep accepts it, and else the second load's. */
  lemma ValuesAreTheLoads<K, V>(cfg: Config<K, V>, trace: seq<State<K, V>>, actions: seq<Action<K, V>>, n: nat, g: nat)
    requires IsRun(cfg, trace, actions) && n < |trace|
    requires g in trace[n].gets && trace[n].gets[g].phase.Returned? && trace[n].gets[g].phase.result.Value?
    ensures var l := trace[n].gets[g].phase.result.loaded;
            || Found(Hit(g, l.run), n, trace, actions)
            || exists c, joined, second ::
                 Waited(Wait(g, c, joined), n, trace, actions) && LaunchesAt(Service(Load(c, second), l.run, l.began), trace, actions)
                 && (second ==> joined) && (joined && !second ==> cfg.keep(trace[n].gets[g].key, l.value))
  {
    RunTold(cfg, trace, actions, n);
    hide IsRun, CallsTold, RunsTold, DownTold, RunTrouble, GaveUp, Waited, Troubled, LaunchesAt, Failures, Found;
    var h, l := Told(n, trace, actions), trace[n].gets[g].phase.result.loaded;
    assert GetTold(cfg, g, trace[n].gets[g], h);
    if Hit(g, l.run) !in h.hits {
      var c, joined, second :|
        Wait(g, c, joined) in h.waited && Service(Load(c, second), l.run, l.began) in h.launched
        && (second ==> joined) && (joined && !second ==> cfg.keep(trace[n].gets[g].key, l.value));
      assert Waited(Wait(g, c, joined), n, trace, actions) && LaunchesAt(Service(Load(c, second), l.run, l.began), trace, actions);
    }
  }
}
