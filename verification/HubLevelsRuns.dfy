module HubLevelsRuns {
  /** Over whole runs of the hub's levels: what a level is, and no lost wakeup. */

  import opened Common
  import opened HubLevels

  ghost predicate StepAt(trace: seq<State>, actions: seq<Action>, i: nat)
    requires i < |actions| < |trace|
  {
    Enabled(trace[i], actions[i]) && trace[i + 1] == Next(trace[i], actions[i])
  }

  ghost predicate IsRun(trace: seq<State>, actions: seq<Action>) {
    && |trace| == |actions| + 1 && trace[0] == Init()
    && forall i :: 0 <= i < |actions| ==> StepAt(trace, actions, i)
  }

  lemma RunInv(trace: seq<State>, actions: seq<Action>, n: nat)
    requires IsRun(trace, actions) && n < |trace|
    ensures Inv(trace[n])
  {
    assert Inv(trace[0]);
    hide Inv, Next, Enabled, Init;
    var i := 0;
    while i < n
      invariant i <= n && Inv(trace[i])
    {
      assert StepAt(trace, actions, i);
      InvKept(trace[i], actions[i]);
      i := i + 1;
    }
  }

  /** A level is the greatest value of the raises that have taken effect, and
      zero before there are any. A raise has taken effect once it returns. */
  lemma LevelIsTheMaximum(trace: seq<State>, actions: seq<Action>, n: nat, l: nat)
    requires IsRun(trace, actions) && n < |trace| && l in trace[n].current
    ensures var s := trace[n];
            && (forall r :: r in s.raises && s.raises[r].level == l && s.raises[r].phase.TookEffect() ==>
                              s.raises[r].value <= Latest(s, l))
            && (Latest(s, l) == 0 ||
                exists r :: r in s.raises && s.raises[r].level == l && s.raises[r].phase.TookEffect()
                            && s.raises[r].value == Latest(s, l))
  {
    RunInv(trace, actions, n);
    hide IsRun, WaitsInv, ChannelInv;
    var s := trace[n];
    forall r | r in s.raises && s.raises[r].level == l && s.raises[r].phase.TookEffect()
      ensures s.raises[r].value <= Latest(s, l)
    {
      assert RaiseOk(r, s.raises[r], s.cells, s.current, s.closer);
    }
    var cell := s.cells[s.current[l]];
    assert OriginOk(cell, s.raises);
    if Latest(s, l) != 0 {
      var r := cell.origin.value;
      assert s.raises[r].level == l && s.raises[r].phase.TookEffect() && s.raises[r].value == Latest(s, l);
    }
  }

  /** A superseded channel is closed exactly once, by the raise that
      superseded it; a current one is open. */
  lemma ClosedExactlyOnce(trace: seq<State>, actions: seq<Action>, n: nat, ch: nat)
    requires IsRun(trace, actions) && n < |trace| && ch in trace[n].cells
    ensures var s := trace[n];
            && (Live(ch, s.cells[ch].level, s.current) ==> Closes(s.closes, ch) == 0)
            && (!Live(ch, s.cells[ch].level, s.current) ==>
                  && ch in s.closer && s.closer[ch] in s.raises
                  && Closes(s.closes, ch) == (if s.raises[s.closer[ch]].phase == Closing(ch) then 0 else 1))
  {
    RunInv(trace, actions, n);
    var s := trace[n];
    hide IsRun, WaitsInv, RaisesInv, OriginInv, OrderInv, Live, Closes;
    assert ChannelOk(ch, Live(ch, s.cells[ch].level, s.current), Closes(s.closes, ch), s.closer, s.raises);
  }

  /** No lost wakeup: a wait blocked while one of its levels is above what it
      asked for can wake, or a raise is about to close a channel it holds. */
  lemma NoLostWakeup(trace: seq<State>, actions: seq<Action>, n: nat, w: nat, l: nat)
    requires IsRun(trace, actions) && n < |trace|
    requires w in trace[n].waits && trace[n].waits[w].phase.Blocked?
    requires l in trace[n].waits[w].after && Latest(trace[n], l) > trace[n].waits[w].after[l]
    ensures var s := trace[n];
            && l in s.waits[w].phase.captured
            && (CanWake(s, w) ||
                exists r :: r in s.raises && s.raises[r].phase == Closing(s.waits[w].phase.captured[l]))
  {
    var s := trace[n];
    var ch := HeldChannel(trace, actions, n, w, l);
    ClosedExactlyOnce(trace, actions, n, ch);
    hide IsRun, Latest;
    if s.raises[s.closer[ch]].phase != Closing(ch) {
      assert Closes(s.closes, s.waits[w].phase.captured[l]) > 0;
    }
  }

  lemma HeldChannel(trace: seq<State>, actions: seq<Action>, n: nat, w: nat, l: nat) returns (ch: nat)
    requires IsRun(trace, actions) && n < |trace|
    requires w in trace[n].waits && trace[n].waits[w].phase.Blocked?
    requires l in trace[n].waits[w].after && Latest(trace[n], l) > trace[n].waits[w].after[l]
    ensures var s := trace[n];
            && l in s.waits[w].phase.captured && ch == s.waits[w].phase.captured[l] && ch in s.cells
            && !Live(ch, s.cells[ch].level, s.current)
  {
    RunInv(trace, actions, n);
    var s := trace[n];
    hide IsRun, RaisesInv, ChannelInv, OriginInv;
    assert WaitOk(s.waits[w], s.cells, s.current);
    ch := s.waits[w].phase.captured[l];
  }

  /** A wait that returns reports each level it asked for, none above what the
      hub has, and something above what it asked: a level, or the watch's
      generation. */
  lemma WaitsReturnNews(trace: seq<State>, actions: seq<Action>, n: nat, w: nat)
    requires IsRun(trace, actions) && n < |trace|
    requires w in trace[n].waits && trace[n].waits[w].phase.Returned?
    ensures var wait := trace[n].waits[w];
            && wait.phase.levels.Keys == wait.after.Keys
            && (Above(wait.phase.levels, wait.after) || Newer(wait.phase.glimpse, wait.observed))
            && forall l :: l in wait.after ==> wait.phase.levels[l] <= Latest(trace[n], l)
  {
    RunInv(trace, actions, n);
    hide IsRun, OrderInv, RaisesInv, ChannelInv, OriginInv;
    assert WaitOk(trace[n].waits[w], trace[n].cells, trace[n].current);
  }

  /** What a blocked wait saw of its watch was no news. */
  lemma BlockedGlimpse(trace: seq<State>, actions: seq<Action>, n: nat, w: nat)
    requires IsRun(trace, actions) && n < |trace| && w in trace[n].waits && trace[n].waits[w].phase.Blocked?
    ensures var wait := trace[n].waits[w];
            wait.phase.glimpse.Some? == wait.observed.Some? && !Newer(wait.phase.glimpse, wait.observed)
  {
    hide IsRun, OrderInv, RaisesInv, ChannelInv, OriginInv;
    RunInv(trace, actions, n);
    assert WaitOk(trace[n].waits[w], trace[n].cells, trace[n].current);
  }

  lemma AsksForLevels(trace: seq<State>, actions: seq<Action>, n: nat, w: nat)
    requires IsRun(trace, actions) && n < |trace| && w in trace[n].waits
    ensures forall l :: l in trace[n].waits[w].after ==> l in trace[n].current
  {
    RunInv(trace, actions, n);
    hide IsRun, OrderInv, RaisesInv, ChannelInv, OriginInv;
    assert WaitOk(trace[n].waits[w], trace[n].cells, trace[n].current);
  }

  /** Levels never fall. */
  lemma LevelsRise(trace: seq<State>, actions: seq<Action>, m: nat, n: nat, l: nat)
    requires IsRun(trace, actions) && m <= n < |trace| && l in trace[m].current
    ensures l in trace[n].current && Latest(trace[m], l) <= Latest(trace[n], l)
  {
    var i := m;
    hide Inv, Next, Enabled, Init;
    while i < n
      invariant m <= i <= n && l in trace[i].current && Latest(trace[m], l) <= Latest(trace[i], l)
    {
      assert StepAt(trace, actions, i);
      RunInv(trace, actions, i);
      StepRises(trace[i], actions[i]);
      i := i + 1;
    }
  }

  /** A wait keeps what it asks for. */
  ghost predicate SameWaits(waits: map<nat, Wait>, waits': map<nat, Wait>) {
    forall w :: w in waits ==> w in waits' && waits'[w].after == waits[w].after && waits'[w].observed == waits[w].observed
  }

  lemma MovedWaits(s: State, w: nat, phase: WaitPhase)
    requires w in s.waits
    ensures SameWaits(s.waits, MoveWait(s, w, phase).waits)
  {
  }

  lemma StepWaits(s: State, a: Action)
    requires Enabled(s, a)
    ensures SameWaits(s.waits, Next(s, a).waits)
  {
    hide Values, Settled, CanWake, Closes, MoveWait, SameWaits;
    match a
    case Capture(w, l) => MovedWaits(s, w, Capturing(s.waits[w].phase.captured[l := s.current[l]], s.waits[w].phase.glimpse));
    case Glance(w, generation) => MovedWaits(s, w, Capturing(s.waits[w].phase.captured, Some(generation)));
    case Settle(w) => MovedWaits(s, w, Settled(s.waits[w], Values(s.cells, s.waits[w].phase.captured)));
    case Wake(w) => MovedWaits(s, w, AFRESH);
    case Rouse(w) => MovedWaits(s, w, AFRESH);
    case Cancel(w) => MovedWaits(s, w, WaitPhase.Cancelled);
    case _ => OtherWaits(s, a);
  }

  lemma OtherWaits(s: State, a: Action)
    requires Enabled(s, a)
    requires !a.Capture? && !a.Glance? && !a.Settle? && !a.Wake? && !a.Rouse? && !a.Cancel?
    ensures SameWaits(s.waits, Next(s, a).waits)
  {
    hide Closes;
  }

  lemma WaitsLast(trace: seq<State>, actions: seq<Action>, m: nat, n: nat)
    requires IsRun(trace, actions) && m <= n < |trace|
    ensures SameWaits(trace[m].waits, trace[n].waits)
  {
    var i := m;
    hide Next, Enabled, Init;
    while i < n
      invariant m <= i <= n && SameWaits(trace[m].waits, trace[i].waits)
    {
      assert StepAt(trace, actions, i);
      StepWaits(trace[i], actions[i]);
      i := i + 1;
    }
  }

  /** A wait goes on asking for what it started with. */
  lemma StartsAsking(trace: seq<State>, actions: seq<Action>, m: nat, n: nat)
    requires IsRun(trace, actions) && m < n < |trace| && actions[m].StartWait?
    ensures var a := actions[m];
            a.w in trace[n].waits && trace[n].waits[a.w].after == a.after && trace[n].waits[a.w].observed == a.observed
  {
    assert StepAt(trace, actions, m);
    WaitsLast(trace, actions, m + 1, n);
  }

  ghost predicate RaisesAtMost(raises: map<nat, Raise>, l: nat, bound: int) {
    forall r :: r in raises && raises[r].level == l ==> raises[r].value <= bound
  }

  lemma StepRaises(s: State, a: Action, l: nat, bound: int)
    requires Enabled(s, a) && RaisesAtMost(s.raises, l, bound)
    requires a.StartRaise? && a.level == l ==> a.value <= bound
    ensures RaisesAtMost(Next(s, a).raises, l, bound)
  {
    hide Values, Settled, CanWake, Closes, Captured;
  }

  /** A level never passes a rising bound that every raise meets as it starts. */
  lemma LevelBounded(trace: seq<State>, actions: seq<Action>, n: nat, l: nat, bound: nat -> int)
    requires IsRun(trace, actions) && n < |trace| && l in trace[n].current
    requires forall i, j :: i <= j ==> bound(i) <= bound(j)
    requires forall i :: 0 <= i < |actions| && actions[i].StartRaise? && actions[i].level == l ==> actions[i].value <= bound(i)
    ensures Latest(trace[n], l) <= Max(0, bound(n))
  {
    LevelIsTheMaximum(trace, actions, n, l);
    hide Next, Enabled, Latest;
    var i := 0;
    while i < n
      invariant i <= n && RaisesAtMost(trace[i].raises, l, bound(i))
    {
      assert StepAt(trace, actions, i);
      StepRaises(trace[i], actions[i], l, bound(i));
      assert bound(i) <= bound(i + 1);
      i := i + 1;
    }
  }
}
