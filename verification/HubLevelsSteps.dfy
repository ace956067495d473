/** The hub's levels one step at a time: what raises have loaded, and what waits
    have captured in this round.
    HubLevelsExact states what comes of it. */
module HubLevelsSteps {
  import opened Common
  import opened HubLevels
  import opened HubLevelsRuns

  // ----- raises -----

  /** A superseded value is less than its level's current one. */
  ghost predicate Superseded(cells: map<nat, Cell>, current: map<nat, nat>) {
    forall ch :: ch in cells && !Live(ch, cells[ch].level, current) ==> Below(cells[ch], cells, current)
  }

  ghost predicate Below(cell: Cell, cells: map<nat, Cell>, current: map<nat, nat>) {
    cell.level in current && current[cell.level] in cells && cell.latest < cells[current[cell.level]].latest
  }

  lemma PublishedBelow(s: State, r: nat, ch: nat)
    requires Inv(s) && Superseded(s.cells, s.current) && Enabled(s, Swap(r, ch))
    ensures Superseded(AfterSwap(s, r, ch).cells, AfterSwap(s, r, ch).current)
  {
    hide WaitsInv, ChannelInv, OriginInv;
    assert RaiseOk(r, s.raises[r], s.cells, s.current, s.closer);
  }

  lemma StepBelow(s: State, a: Action)
    requires Inv(s) && Superseded(s.cells, s.current) && Enabled(s, a)
    ensures Superseded(Next(s, a).cells, Next(s, a).current)
  {
    hide WaitsInv, ChannelInv, OriginInv, RaisesInv, CanWake, Values, Settled, AfterSwap, Captured;
    if a.Swap? {
      PublishedBelow(s, a.r, a.cell);
    }
  }

  /** Cells stay as they were published. */
  lemma CellsStay(s: State, a: Action)
    requires Enabled(s, a)
    ensures forall ch :: ch in s.cells ==> ch in Next(s, a).cells && Next(s, a).cells[ch] == s.cells[ch]
  {
    hide CanWake, Values, Settled, Captured;
  }

  /** The raise loaded its level at some step, and found this cell. */
  ghost predicate LoadedAt(trace: seq<State>, actions: seq<Action>, n: nat, r: nat, l: nat, ch: nat)
    requires n <= |actions| < |trace|
  {
    exists i :: 0 <= i < n && actions[i] == Load(r) && l in trace[i].current && trace[i].current[l] == ch
  }

  ghost predicate RaiseLoaded(trace: seq<State>, actions: seq<Action>, n: nat, r: nat, raise: Raise)
    requires n <= |actions| < |trace|
  {
    raise.phase.Swapping? ==> LoadedAt(trace, actions, n, r, raise.level, raise.phase.loaded)
  }

  lemma RaiseStep(s: State, a: Action, r: nat)
    requires Enabled(s, a) && r in Next(s, a).raises && Next(s, a).raises[r].phase.Swapping?
    ensures var raise := Next(s, a).raises[r];
            || (r in s.raises && s.raises[r] == raise)
            || (a == Load(r) && raise.level in s.current && s.current[raise.level] == raise.phase.loaded)
  {
    hide CanWake, Values, Settled, Captured, Closes;
  }

  lemma {:induction false} RaisesLoaded(trace: seq<State>, actions: seq<Action>, n: nat, r: nat)
    requires IsRun(trace, actions) && n < |trace| && r in trace[n].raises
    ensures RaiseLoaded(trace, actions, n, r, trace[n].raises[r])
  {
    hide Next, Enabled;
    if trace[n].raises[r].phase.Swapping? && n > 0 {
      ghost var m: nat := n - 1;
      assert StepAt(trace, actions, m);
      RaiseStep(trace[m], actions[m], r);
      if r in trace[m].raises && trace[m].raises[r] == trace[n].raises[r] {
        RaisesLoaded(trace, actions, m, r);
      }
    }
  }

  lemma RunBelow(trace: seq<State>, actions: seq<Action>, n: nat)
    requires IsRun(trace, actions) && n < |trace|
    ensures Superseded(trace[n].cells, trace[n].current)
  {
    hide Next, Enabled, Inv;
    var i := 0;
    while i < n
      invariant i <= n && Superseded(trace[i].cells, trace[i].current)
    {
      RunInv(trace, actions, i);
      assert StepAt(trace, actions, i);
      StepBelow(trace[i], actions[i]);
      i := i + 1;
    }
  }

  lemma CellsLast(trace: seq<State>, actions: seq<Action>, m: nat, n: nat, ch: nat)
    requires IsRun(trace, actions) && m <= n < |trace| && ch in trace[m].cells
    ensures ch in trace[n].cells && trace[n].cells[ch] == trace[m].cells[ch]
  {
    hide Next, Enabled, Inv;
    var i := m;
    while i < n
      invariant m <= i <= n && ch in trace[i].cells && trace[i].cells[ch] == trace[m].cells[ch]
    {
      assert StepAt(trace, actions, i);
      CellsStay(trace[i], actions[i]);
      i := i + 1;
    }
  }

  lemma SwapOutcome(s: State, r: nat, cell: nat)
    requires Inv(s) && Superseded(s.cells, s.current) && Enabled(s, Swap(r, cell))
    ensures var u, raise := AfterSwap(s, r, cell), s.raises[r];
            && raise.level in s.current && raise.phase.loaded in s.cells
            && if s.current[raise.level] == raise.phase.loaded
               then u.raises[r].phase.Closing? && Latest(u, raise.level) == raise.value > Latest(s, raise.level)
               else u.raises[r].phase.Loading? && u.current == s.current && u.cells == s.cells
                    && s.cells[raise.phase.loaded].latest < Latest(s, raise.level)
  {
    hide WaitsInv, ChannelInv, OriginInv;
    assert RaiseOk(r, s.raises[r], s.cells, s.current, s.closer);
  }

  lemma LoadedThen(trace: seq<State>, actions: seq<Action>, i: nat, n: nat, l: nat)
    requires IsRun(trace, actions) && i <= n < |trace| && l in trace[i].current
    ensures var ch := trace[i].current[l]; ch in trace[n].cells && Latest(trace[i], l) == trace[n].cells[ch].latest
  {
    RunInv(trace, actions, i);
    hide IsRun, WaitsInv, ChannelInv, OriginInv, RaisesInv;
    CellsLast(trace, actions, i, n, trace[i].current[l]);
  }

  // ----- waits -----

  /** The wait begins afresh at this step. */
  predicate Restarts(a: Action, w: nat) {
    (a.StartWait? && a.w == w) || a == Wake(w) || a == Rouse(w)
  }

  ghost predicate SameRound(actions: seq<Action>, i: nat, n: nat, w: nat)
    requires n <= |actions|
  {
    forall k :: i < k < n ==> !Restarts(actions[k], w)
  }

  /** At some step of this round the wait loaded the level, and found this cell. */
  ghost predicate CapturedAt(trace: seq<State>, actions: seq<Action>, n: nat, w: nat, l: nat, ch: nat)
    requires n <= |actions| < |trace|
  {
    exists i :: 0 <= i < n && actions[i] == Capture(w, l) && l in trace[i].current && trace[i].current[l] == ch && SameRound(actions, i, n, w)
  }

  ghost predicate ReportedAt(trace: seq<State>, actions: seq<Action>, n: nat, w: nat, l: nat, value: int)
    requires n <= |actions| < |trace|
  {
    exists i :: 0 <= i < n && actions[i] == Capture(w, l) && Latest(trace[i], l) == value && SameRound(actions, i, n, w)
  }

  ghost predicate GlancedAt(actions: seq<Action>, n: nat, w: nat, g: nat)
    requires n <= |actions|
  {
    exists i :: 0 <= i < n && actions[i] == Glance(w, g) && SameRound(actions, i, n, w)
  }

  /** Everything the wait holds or reports it took in this round. */
  ghost predicate Fresh(trace: seq<State>, actions: seq<Action>, n: nat, w: nat, phase: WaitPhase)
    requires n <= |actions| < |trace|
  {
    match phase
    case Capturing(captured, glimpse) => HeldFresh(trace, actions, n, w, captured, glimpse)
    case Blocked(captured, glimpse) => HeldFresh(trace, actions, n, w, captured, glimpse)
    case Returned(levels, glimpse) =>
      && (forall l :: l in levels ==> ReportedAt(trace, actions, n, w, l, levels[l]))
      && (glimpse.Some? ==> GlancedAt(actions, n, w, glimpse.value))
    case Cancelled => exists i :: 0 <= i < n && actions[i] == Cancel(w)
  }

  ghost predicate HeldFresh(trace: seq<State>, actions: seq<Action>, n: nat, w: nat, captured: map<nat, nat>, glimpse: Option<nat>)
    requires n <= |actions| < |trace|
  {
    && (forall l :: l in captured ==> CapturedAt(trace, actions, n, w, l, captured[l]))
    && (glimpse.Some? ==> GlancedAt(actions, n, w, glimpse.value))
  }

  lemma CapturedLater(trace: seq<State>, actions: seq<Action>, n: nat, w: nat, l: nat, ch: nat)
    requires n < |actions| < |trace| && !Restarts(actions[n], w) && CapturedAt(trace, actions, n, w, l, ch)
    ensures CapturedAt(trace, actions, n + 1, w, l, ch)
  {
    var i :| 0 <= i < n && actions[i] == Capture(w, l) && l in trace[i].current && trace[i].current[l] == ch && SameRound(actions, i, n, w);
    assert SameRound(actions, i, n + 1, w);
  }

  lemma ReportedLater(trace: seq<State>, actions: seq<Action>, n: nat, w: nat, l: nat, value: int)
    requires n < |actions| < |trace| && !Restarts(actions[n], w) && ReportedAt(trace, actions, n, w, l, value)
    ensures ReportedAt(trace, actions, n + 1, w, l, value)
  {
    hide Latest;
    var i :| 0 <= i < n && actions[i] == Capture(w, l) && Latest(trace[i], l) == value && SameRound(actions, i, n, w);
    assert SameRound(actions, i, n + 1, w);
  }

  lemma GlancedLater(actions: seq<Action>, n: nat, w: nat, g: nat)
    requires n < |actions| && !Restarts(actions[n], w) && GlancedAt(actions, n, w, g)
    ensures GlancedAt(actions, n + 1, w, g)
  {
    var i :| 0 <= i < n && actions[i] == Glance(w, g) && SameRound(actions, i, n, w);
    assert SameRound(actions, i, n + 1, w);
  }

  /** A wait that does not begin afresh keeps what it took. */
  lemma FreshLater(trace: seq<State>, actions: seq<Action>, n: nat, w: nat, phase: WaitPhase)
    requires n < |actions| < |trace| && !Restarts(actions[n], w) && Fresh(trace, actions, n, w, phase)
    ensures Fresh(trace, actions, n + 1, w, phase)
  {
    hide CapturedAt, ReportedAt, GlancedAt;
    if !phase.Cancelled? && phase.glimpse.Some? {
      GlancedLater(actions, n, w, phase.glimpse.value);
    }
    if phase.Capturing? || phase.Blocked? {
      forall l | l in phase.captured ensures CapturedAt(trace, actions, n + 1, w, l, phase.captured[l]) {
        CapturedLater(trace, actions, n, w, l, phase.captured[l]);
      }
    } else if phase.Returned? {
      forall l | l in phase.levels ensures ReportedAt(trace, actions, n + 1, w, l, phase.levels[l]) {
        ReportedLater(trace, actions, n, w, l, phase.levels[l]);
      }
    }
  }

  lemma AfreshIsFresh(trace: seq<State>, actions: seq<Action>, n: nat, w: nat)
    requires n <= |actions| < |trace|
    ensures Fresh(trace, actions, n, w, AFRESH)
  {
  }

  lemma CaptureFresh(trace: seq<State>, actions: seq<Action>, n: nat, w: nat, l: nat)
    requires n < |actions| < |trace| && actions[n] == Capture(w, l) && Enabled(trace[n], actions[n])
    requires Fresh(trace, actions, n, w, trace[n].waits[w].phase)
    ensures var phase := trace[n].waits[w].phase;
            Fresh(trace, actions, n + 1, w, Capturing(phase.captured[l := trace[n].current[l]], phase.glimpse))
  {
    FreshLater(trace, actions, n, w, trace[n].waits[w].phase);
    assert SameRound(actions, n, n + 1, w);
    assert CapturedAt(trace, actions, n + 1, w, l, trace[n].current[l]);
    hide CapturedAt, GlancedAt;
  }

  lemma GlanceFresh(trace: seq<State>, actions: seq<Action>, n: nat, w: nat, g: nat)
    requires n < |actions| < |trace| && actions[n] == Glance(w, g) && Enabled(trace[n], actions[n])
    requires Fresh(trace, actions, n, w, trace[n].waits[w].phase)
    ensures Fresh(trace, actions, n + 1, w, Capturing(trace[n].waits[w].phase.captured, Some(g)))
  {
    FreshLater(trace, actions, n, w, trace[n].waits[w].phase);
    assert SameRound(actions, n, n + 1, w);
    assert GlancedAt(actions, n + 1, w, g);
    hide CapturedAt, GlancedAt;
  }

  /** What the wait loaded is what the level was when it loaded it. */
  lemma ReportedNow(trace: seq<State>, actions: seq<Action>, n: nat, w: nat, l: nat, ch: nat)
    requires IsRun(trace, actions) && n < |actions| && CapturedAt(trace, actions, n + 1, w, l, ch) && actions[n] == Settle(w)
    ensures ch in trace[n].cells && ReportedAt(trace, actions, n + 1, w, l, trace[n].cells[ch].latest)
  {
    hide StepAt, Latest;
    var i :| 0 <= i < n + 1 && actions[i] == Capture(w, l) && l in trace[i].current && trace[i].current[l] == ch && SameRound(actions, i, n + 1, w);
    LoadedThen(trace, actions, i, n, l);
  }

  lemma SettleFresh(trace: seq<State>, actions: seq<Action>, n: nat, w: nat)
    requires IsRun(trace, actions) && n < |actions| && actions[n] == Settle(w) && Enabled(trace[n], actions[n])
    requires Fresh(trace, actions, n, w, trace[n].waits[w].phase)
    ensures Fresh(trace, actions, n + 1, w, Settled(trace[n].waits[w], Values(trace[n].cells, trace[n].waits[w].phase.captured)))
  {
    hide StepAt, GlancedAt, CapturedAt, ReportedAt, Above, Newer, SameRound;
    var s, phase := trace[n], trace[n].waits[w].phase;
    FreshLater(trace, actions, n, w, phase);
    forall l | l in phase.captured ensures ReportedAt(trace, actions, n + 1, w, l, s.cells[phase.captured[l]].latest) {
      ReportedNow(trace, actions, n, w, l, phase.captured[l]);
    }
  }

  lemma RunStep(trace: seq<State>, actions: seq<Action>, n: nat)
    requires IsRun(trace, actions) && n < |actions|
    ensures |trace| == |actions| + 1 && Enabled(trace[n], actions[n]) && trace[n + 1] == Next(trace[n], actions[n])
  {
    hide Enabled, Next;
    assert StepAt(trace, actions, n);
  }

  /** What a step makes of a wait's phase. */
  ghost function Moved(s: State, a: Action, w: nat): WaitPhase
    requires Enabled(s, a) && w in s.waits
  {
    if Restarts(a, w) then AFRESH
    else if a.Capture? && a.w == w then Capturing(s.waits[w].phase.captured[a.level := s.current[a.level]], s.waits[w].phase.glimpse)
    else if a.Glance? && a.w == w then Capturing(s.waits[w].phase.captured, Some(a.generation))
    else if a == Settle(w) then Settled(s.waits[w], Values(s.cells, s.waits[w].phase.captured))
    else if a == Cancel(w) then WaitPhase.Cancelled
    else s.waits[w].phase
  }

  lemma MovesAWait(s: State, a: Action, w: nat)
    requires Enabled(s, a)
    ensures w in s.waits ==> w in Next(s, a).waits && Next(s, a).waits[w].phase == Moved(s, a, w)
    ensures w in Next(s, a).waits && w !in s.waits ==> Next(s, a).waits[w].phase == AFRESH
  {
    hide Values, Settled, CanWake, Captured, Closes;
  }

  lemma WaitStep(trace: seq<State>, actions: seq<Action>, n: nat, w: nat)
    requires IsRun(trace, actions) && n < |actions| && w in trace[n + 1].waits
    requires w in trace[n].waits ==> Fresh(trace, actions, n, w, trace[n].waits[w].phase)
    ensures Fresh(trace, actions, n + 1, w, trace[n + 1].waits[w].phase)
  {
    hide IsRun, Fresh, Inv, Next, Enabled, Values, Settled;
    RunStep(trace, actions, n);
    var s, a := trace[n], actions[n];
    MovesAWait(s, a, w);
    AfreshIsFresh(trace, actions, n + 1, w);
    if w in s.waits && !Restarts(a, w) {
      FreshLater(trace, actions, n, w, s.waits[w].phase);
      if a.Capture? && a.w == w {
        CaptureFresh(trace, actions, n, w, a.level);
      } else if a.Glance? && a.w == w {
        GlanceFresh(trace, actions, n, w, a.generation);
      } else if a == Settle(w) {
        SettleFresh(trace, actions, n, w);
      } else if a == Cancel(w) {
        CancelFresh(trace, actions, n, w);
      }
    }
  }

  lemma CancelFresh(trace: seq<State>, actions: seq<Action>, n: nat, w: nat)
    requires n < |actions| < |trace| && actions[n] == Cancel(w)
    ensures Fresh(trace, actions, n + 1, w, WaitPhase.Cancelled)
  {
  }

  lemma {:induction false} RunFresh(trace: seq<State>, actions: seq<Action>, n: nat, w: nat)
    requires IsRun(trace, actions) && n < |trace| && w in trace[n].waits
    ensures Fresh(trace, actions, n, w, trace[n].waits[w].phase)
  {
    hide Fresh, Next, Enabled;
    if n > 0 {
      ghost var m: nat := n - 1;
      if w in trace[m].waits {
        RunFresh(trace, actions, m, w);
      }
      WaitStep(trace, actions, m, w);
    }
  }
}
