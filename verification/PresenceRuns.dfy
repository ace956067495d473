module PresenceRuns {
  /** Over whole runs: readers catch up from any token, and who is online. */

  import opened Common
  import opened Presence

  ghost predicate StepAt(trace: seq<State>, actions: seq<Action>, i: nat)
    requires i < |actions| < |trace|
  {
    Enabled(trace[i], actions[i]) && trace[i + 1] == Next(trace[i], actions[i])
  }

  ghost predicate IsRun(trace: seq<State>, actions: seq<Action>) {
    && |trace| == |actions| + 1 && trace[0] == Init()
    && forall i :: 0 <= i < |actions| ==> StepAt(trace, actions, i)
  }

  lemma InitInv()
    ensures Inv(Init())
  {
  }

  lemma RunInv(trace: seq<State>, actions: seq<Action>, n: nat)
    requires IsRun(trace, actions) && n < |trace|
    ensures Inv(trace[n])
  {
    hide Inv, Next, Enabled, Init;
    InitInv();
    var i := 0;
    while i < n
      invariant i <= n && Inv(trace[i])
    {
      assert StepAt(trace, actions, i);
      InvKept(trace[i], actions[i]);
      i := i + 1;
    }
  }

  /** The log only grows, so what it says of a generation stays said. */
  lemma LogGrows(trace: seq<State>, actions: seq<Action>, m: nat, n: nat)
    requires IsRun(trace, actions) && m <= n < |trace|
    ensures |trace[m].log| == trace[m].generation && trace[m].log <= trace[n].log
  {
    RunInv(trace, actions, m);
    hide Inv, Next, Enabled, Init;
    assert |trace[m].log| == trace[m].generation by { LogLength(trace[m]); }
    var i := m;
    while i < n
      invariant m <= i <= n && trace[m].log <= trace[i].log
    {
      assert StepAt(trace, actions, i);
      StepLog(trace[i], actions[i]);
      i := i + 1;
    }
  }

  lemma LogLength(s: State)
    requires Inv(s)
    ensures |s.log| == s.generation
  {
    hide OrderInv, MembersInv, RecordsInv, RefsInv, Remembered;
  }

  lemma StepLog(s: State, a: Action)
    requires Enabled(s, a)
    ensures s.log <= Next(s, a).log
  {
    hide Without;
  }

  /** A reader who took the flags at any earlier step catches up: unless After
      resets, their flags overwritten with its entries are the current ones. */
  lemma ReadersCatchUp(trace: seq<State>, actions: seq<Action>, m: nat, n: nat, process: nat, member: nat)
    requires IsRun(trace, actions) && m <= n < |trace|
    requires !After(trace[n], process, Token(process, trace[m].generation)).reset
    ensures Overwritten(Online(trace[m], member), After(trace[n], process, Token(process, trace[m].generation)).entries, member)
         == Online(trace[n], member)
  {
    RunInv(trace, actions, m);
    RunInv(trace, actions, n);
    LogGrows(trace, actions, m, n);
    hide IsRun, Inv, After, Online, Flag;
    LogLength(trace[n]);
    OnlineIsFlag(trace[m], process, member);
    DeltaReplay(trace[n], process, Token(process, trace[m].generation), member);
    SameFlag(trace[m].log, trace[n].log, member);
  }

  lemma SameFlag(log: seq<Change>, longer: seq<Change>, member: nat)
    requires log <= longer
    ensures Flag(longer, |log|, member) == Flag(log, |log|, member)
  {
    assert longer[..|log|] == log && log[..|log|] == log;
  }

  lemma OnlineIsFlag(s: State, process: nat, member: nat)
    requires Inv(s)
    ensures |s.log| == s.generation && Online(s, member) == Flag(s.log, s.generation, member)
  {
    hide OrderInv, MembersInv, RecordsInv, RefsInv, LastChange;
    assert Remembered(member, s.log, s.boundary, s.members, s.records);
    assert s.log[..s.generation] == s.log;
  }

  /** A member is online exactly while it has accepted streams or its grace
      period runs, whatever timers fire when. */
  lemma OnlineWhileOpen(trace: seq<State>, actions: seq<Action>, n: nat, member: nat)
    requires IsRun(trace, actions) && n < |trace|
    ensures var s := trace[n];
            Online(s, member) <==>
              && member in s.members && s.members[member] in s.records
              && var record := s.records[s.members[member]];
                 OpenOn(s.opens, s.members[member]) != {}
                 || (Current(record, s.timers) && s.timers[record.timer.value].kind.Grace?)
  {
    RunInv(trace, actions, n);
    var s := trace[n];
    hide IsRun, OrderInv, LogInv;
    if member in s.members {
      var r := s.members[member];
      assert RecordOk(r, s.records[r], s.timers, s.members);
    }
  }

  /** The change list is strictly ordered and holds every known member once. */
  lemma ChangesAreOrdered(trace: seq<State>, actions: seq<Action>, n: nat)
    requires IsRun(trace, actions) && n < |trace|
    ensures OrderInv(trace[n].changes, trace[n].records, trace[n].generation)
    ensures MembersInv(trace[n].members, trace[n].records, trace[n].changes)
  {
    RunInv(trace, actions, n);
    hide IsRun, OrderInv, MembersInv, LogInv, RecordsInv, RefsInv;
  }
}
