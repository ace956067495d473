module PinsRoundsExact {
  /** Shared refreshes told by the actions: a snapshot shows every invalidation
      its source met before the refresh began, and a refresh makes a round of its
      own only when it must. */

  import opened Common
  import opened PinsRounds

  // ----- what a snapshot shows -----

  lemma TriggerStep(s: State, a: Action, source: nat)
    requires Enabled(s, a) && source in s.sources
    ensures source in Next(s, a).sources
    ensures Next(s, a).sources[source].trigger
         == if a.Trigger? && a.source == source then Max(s.sources[source].trigger, a.seen) else s.sources[source].trigger
    ensures Next(s, a).sources[source].built == s.sources[source].built && Next(s, a).sources[source].scope == s.sources[source].scope
  {
    hide NeedsRound;
  }

  /** A source's trigger covers every invalidation it has met. */
  lemma {:induction false} TriggersCount(trace: seq<State>, actions: seq<Action>, n: nat, i: nat)
    requires IsRun(trace, actions) && i < n < |trace| && actions[i].Trigger?
    ensures actions[i].source in trace[n].sources && actions[i].seen <= trace[n].sources[actions[i].source].trigger
  {
    hide Next, Init;
    ghost var m: nat := n - 1;
    assert StepAt(trace, actions, m);
    if i < m {
      TriggersCount(trace, actions, m, i);
    }
    TriggerStep(trace[m], actions[m], actions[i].source);
  }

  lemma CallStep(s: State, a: Action, call: nat)
    requires Enabled(s, a) && call in s.calls
    ensures call in Next(s, a).calls && Next(s, a).calls[call].source == s.calls[call].source && Next(s, a).calls[call].needed == s.calls[call].needed
  {
    hide NeedsRound;
  }

  lemma BeginStep(s: State, a: Action)
    requires Enabled(s, a) && a.Begin?
    ensures var u, call := Next(s, a), a.call;
            && call in u.calls && u.calls[call].source == a.source && u.calls[call].needed == s.sources[a.source].trigger
            && u.calls[call].round == (if NeedsRound(s.current, s.rounds, s.sources[a.source]) then a.round else s.current[s.sources[a.source].scope])
  {
  }

  lemma {:induction false} CallsLast(trace: seq<State>, actions: seq<Action>, n: nat, j: nat)
    requires IsRun(trace, actions) && j < n < |trace| && actions[j].Begin?
    ensures actions[j].call in trace[n].calls && trace[n].calls[actions[j].call].source == actions[j].source
    ensures actions[j].source in trace[j].sources && trace[n].calls[actions[j].call].needed == trace[j].sources[actions[j].source].trigger
  {
    hide Next, Init;
    ghost var m: nat := n - 1;
    assert StepAt(trace, actions, m);
    if j < m {
      CallsLast(trace, actions, m, j);
      CallStep(trace[m], actions[m], actions[j].call);
    } else {
      BeginStep(trace[m], actions[m]);
    }
  }

  /** A snapshot that a refresh takes shows every invalidation that its source
      had met when the refresh began. */
  lemma SnapshotsShowWhatWasMet(trace: seq<State>, actions: seq<Action>, i: nat, j: nat, n: nat, call: nat, snapshot: Snapshot)
    requires IsRun(trace, actions) && i < j < n < |actions| && actions[n] == Take(call, snapshot)
    requires actions[j].Begin? && actions[j].call == call && actions[i].Trigger? && actions[i].source == actions[j].source
    ensures actions[i].seen <= snapshot.at
  {
    hide Next, Enabled, Init;
    SharedSnapshotsAreFresh(trace, actions, n, call, snapshot);
    CallsLast(trace, actions, n, j);
    TriggersCount(trace, actions, j, i);
  }

  // ----- when a round is shared -----

  /** Rounds were made before now, and what a source found was there before it. */
  ghost predicate Dated(s: State) {
    && (forall r :: r in s.rounds ==> s.rounds[r].born < s.now)
    && (forall x :: x in s.sources ==> FoundBefore(s.sources[x], s.rounds))
  }

  ghost predicate FoundBefore(src: Source, rounds: map<nat, Round>) {
    src.preexisting.Some? ==> src.preexisting.value in rounds && rounds[src.preexisting.value].born < src.built
  }

  lemma DatedStep(s: State, a: Action)
    requires Inv(s) && Dated(s) && Enabled(s, a)
    ensures Dated(Next(s, a))
  {
    var u := Next(s, a);
    RoundsStay(s, a);
    CurrentThere(s);
    hide Inv, NeedsRound;
    forall x | x in u.sources ensures FoundBefore(u.sources[x], u.rounds) {
      if x in s.sources {
        assert FoundBefore(s.sources[x], s.rounds);
      }
    }
  }

  lemma CurrentThere(s: State)
    requires Inv(s)
    ensures forall x :: x in s.current ==> s.current[x] in s.rounds
  {
    hide RoundsInv, SourcesInv, CallsInv;
  }

  lemma RoundsStay(s: State, a: Action)
    requires Enabled(s, a)
    ensures forall r :: r in s.rounds ==> r in Next(s, a).rounds && Next(s, a).rounds[r].born == s.rounds[r].born
                                          && Next(s, a).rounds[r].trigger == s.rounds[r].trigger
  {
    hide NeedsRound;
  }

  lemma RunDated(trace: seq<State>, actions: seq<Action>, n: nat)
    requires IsRun(trace, actions) && n < |trace|
    ensures Dated(trace[n])
  {
    hide Inv, Next, Enabled, Dated;
    assert Dated(Init()) by { InitDated(); }
    var i := 0;
    while i < n
      invariant i <= n && Dated(trace[i])
    {
      RunInv(trace, actions, i);
      assert StepAt(trace, actions, i);
      DatedStep(trace[i], actions[i]);
      i := i + 1;
    }
  }

  lemma InitDated()
    ensures Dated(Init())
  {
  }

  /** A refresh joins its scope's current round exactly if there is one that was
      made after the source was built and for an invalidation at least as late as
      any the source has met; otherwise it makes a new one. */
  lemma JoinsExactly(trace: seq<State>, actions: seq<Action>, n: nat, call: nat, source: nat, added: nat)
    requires IsRun(trace, actions) && n < |actions| && actions[n] == Begin(call, source, added)
    ensures source in trace[n].sources && call in trace[n + 1].calls
    ensures var s, src, r := trace[n], trace[n].sources[source], trace[n + 1].calls[call].round;
            if src.scope in s.current && s.current[src.scope] in s.rounds
               && src.built <= s.rounds[s.current[src.scope]].born && src.trigger <= s.rounds[s.current[src.scope]].trigger
            then r == s.current[src.scope] && r != added
            else r == added && added !in s.rounds
  {
    RunInv(trace, actions, n);
    RunDated(trace, actions, n);
    assert StepAt(trace, actions, n);
    hide IsRun;
    var s, src := trace[n], trace[n].sources[source];
    BeginStep(s, actions[n]);
    assert FoundBefore(src, s.rounds);
    if !NeedsRound(s.current, s.rounds, src) {
      CurrentFacts(s, source);
    }
    hide Inv, Dated, Next;
  }
}
