/** The hub's levels (internal/realtime/hub.go, hub_generations.go): numbers
    that only rise, each published by compare-and-swap together with the
    channel that the next raise closes, and the combined wait over several of
    them. One step per atomic operation; raises and waits interleave freely.

    A cell is named by its channel, so comparing pointers is comparing names. */
module HubLevels {
  import opened Common

  /** A published value. `origin` is the raise that published it, if any. */
  datatype Cell = Cell(level: nat, latest: int, origin: Option<nat>)

  datatype RaisePhase =
    | Loading
    | Swapping(loaded: nat)      // loaded this cell, about to compare and swap
    | Closing(superseded: nat) // published, the superseded channel not closed yet
    | Raised
  {
    predicate TookEffect() {
      Closing? || Raised?
    }
  }

  datatype Raise = Raise(level: nat, value: int, phase: RaisePhase)

  /** `captured` names the cell loaded for each level so far, `glimpse` the
      generation of the read-change watch snapshotted with them. */
  datatype WaitPhase =
    | Capturing(captured: map<nat, nat>, glimpse: Option<nat>)
    | Blocked(captured: map<nat, nat>, glimpse: Option<nat>)
    | Returned(levels: map<nat, int>, glimpse: Option<nat>)
    | Cancelled

  /** A combined wait: it wants a level above the one it gives in `after`, or,
      with a watch, a generation above `observed`. */
  datatype Wait = Wait(after: map<nat, int>, observed: Option<nat>, phase: WaitPhase)

  const AFRESH := Capturing(map[], None)

  /** `closes` counts how often each channel was closed; `closer` names the
      raise that superseded each cell that is no longer current. */
  datatype State = State(
    cells: map<nat, Cell>, current: map<nat, nat>, closes: map<nat, nat>, closer: map<nat, nat>,
    raises: map<nat, Raise>, waits: map<nat, Wait>)

  datatype Action =
    | Create(level: nat, cell: nat)
    | StartRaise(r: nat, level: nat, value: int)
    | Load(r: nat)
    | Swap(r: nat, cell: nat)
    | Close(r: nat)
    | StartWait(w: nat, after: map<nat, int>, observed: Option<nat>)
    | Capture(w: nat, level: nat)
    | Glance(w: nat, generation: nat)     // the watch's snapshot
    | Settle(w: nat)
    | Wake(w: nat)
    | Rouse(w: nat)                       // the watch's channel was closed
    | Cancel(w: nat)
    | Tick                                // something elsewhere

  function Init(): State {
    State(map[], map[], map[], map[], map[], map[])
  }

  // ----- steps -----

  function Closes(closes: map<nat, nat>, ch: nat): nat {
    if ch in closes then closes[ch] else 0
  }

  function MoveRaise(s: State, r: nat, phase: RaisePhase): State
    requires r in s.raises
  {
    s.(raises := s.raises[r := s.raises[r].(phase := phase)])
  }

  function MoveWait(s: State, w: nat, phase: WaitPhase): State
    requires w in s.waits
  {
    s.(waits := s.waits[w := s.waits[w].(phase := phase)])
  }

  /** raise: publishes only if the pointer is still the one it loaded. */
  function AfterSwap(s: State, r: nat, cell: nat): State
    requires r in s.raises && s.raises[r].phase.Swapping?
  {
    var raise := s.raises[r];
    var old_ := raise.phase.loaded;
    if raise.level in s.current && s.current[raise.level] == old_ then
      MoveRaise(s, r, Closing(old_)).(cells := s.cells[cell := Cell(raise.level, raise.value, Some(r))],
                                      current := s.current[raise.level := cell], closer := s.closer[old_ := r])
    else
      MoveRaise(s, r, Loading)
  }

  predicate Captured(s: State, w: Wait) {
    (w.phase.Capturing? || w.phase.Blocked?) && forall l :: l in w.phase.captured ==> w.phase.captured[l] in s.cells
  }

  /** The captured levels' values. */
  function Values(cells: map<nat, Cell>, captured: map<nat, nat>): map<nat, int>
    requires forall l :: l in captured ==> captured[l] in cells
  {
    map l | l in captured :: cells[captured[l]].latest
  }

  predicate Above(values: map<nat, int>, after: map<nat, int>) {
    exists l :: l in values && l in after && values[l] > after[l]
  }

  predicate Newer(glimpse: Option<nat>, observed: Option<nat>) {
    glimpse.Some? && observed.Some? && glimpse.value > observed.value
  }

  predicate Enabled(s: State, a: Action) {
    match a
    case Create(l, cell) => l !in s.current && cell !in s.cells
    case StartRaise(r, l, _) => r !in s.raises && l in s.current
    case Load(r) =>
      && r in s.raises && s.raises[r].phase.Loading?
      && s.raises[r].level in s.current && s.current[s.raises[r].level] in s.cells
    case Swap(r, cell) => r in s.raises && s.raises[r].phase.Swapping? && cell !in s.cells
    case Close(r) => r in s.raises && s.raises[r].phase.Closing?
    case StartWait(w, after, _) => w !in s.waits && forall l :: l in after ==> l in s.current
    case Capture(w, l) =>
      w in s.waits && s.waits[w].phase.Capturing? && l in s.waits[w].after && l !in s.waits[w].phase.captured && l in s.current
    case Glance(w, _) =>
      && w in s.waits && s.waits[w].phase.Capturing? && s.waits[w].observed.Some? && s.waits[w].phase.glimpse.None?
      && s.waits[w].phase.captured.Keys == s.waits[w].after.Keys
    case Settle(w) =>
      && w in s.waits && s.waits[w].phase.Capturing? && Captured(s, s.waits[w])
      && s.waits[w].phase.captured.Keys == s.waits[w].after.Keys
      && s.waits[w].phase.glimpse.Some? == s.waits[w].observed.Some?
    case Wake(w) => w in s.waits && s.waits[w].phase.Blocked? && CanWake(s, w)
    case Rouse(w) => w in s.waits && s.waits[w].phase.Blocked? && s.waits[w].phase.glimpse.Some?
    case Cancel(w) => w in s.waits && (s.waits[w].phase.Capturing? || s.waits[w].phase.Blocked?)
    case Tick => true
  }

  /** Some channel the wait holds has been closed. */
  predicate CanWake(s: State, w: nat)
    requires w in s.waits && s.waits[w].phase.Blocked?
  {
    exists l :: l in s.waits[w].phase.captured && Closes(s.closes, s.waits[w].phase.captured[l]) > 0
  }

  /** Returns if anything captured is news, and blocks otherwise. */
  function Settled(wait: Wait, values: map<nat, int>): WaitPhase
    requires wait.phase.Capturing?
  {
    if Above(values, wait.after) || Newer(wait.phase.glimpse, wait.observed) then Returned(values, wait.phase.glimpse)
    else Blocked(wait.phase.captured, wait.phase.glimpse)
  }

  function Next(s: State, a: Action): State
    requires Enabled(s, a)
  {
    match a
    case Create(l, cell) => s.(cells := s.cells[cell := Cell(l, 0, None)], current := s.current[l := cell])
    case StartRaise(r, l, value) => s.(raises := s.raises[r := Raise(l, value, Loading)])
    case Load(r) =>
      var old_ := s.current[s.raises[r].level];
      MoveRaise(s, r, if s.raises[r].value <= s.cells[old_].latest then Raised else Swapping(old_))
    case Swap(r, cell) => AfterSwap(s, r, cell)
    case Close(r) =>
      var ch := s.raises[r].phase.superseded;
      MoveRaise(s, r, Raised).(closes := s.closes[ch := Closes(s.closes, ch) + 1])
    case StartWait(w, after, observed) => s.(waits := s.waits[w := Wait(after, observed, AFRESH)])
    case Capture(w, l) =>
      MoveWait(s, w, Capturing(s.waits[w].phase.captured[l := s.current[l]], s.waits[w].phase.glimpse))
    case Glance(w, generation) => MoveWait(s, w, Capturing(s.waits[w].phase.captured, Some(generation)))
    case Settle(w) => MoveWait(s, w, Settled(s.waits[w], Values(s.cells, s.waits[w].phase.captured)))
    case Wake(w) => MoveWait(s, w, AFRESH)
    case Rouse(w) => MoveWait(s, w, AFRESH)
    case Cancel(w) => MoveWait(s, w, WaitPhase.Cancelled)
    case Tick => s
  }

  // ----- what every step keeps -----

  /** A level's value. */
  function Latest(s: State, l: nat): int {
    if l in s.current && s.current[l] in s.cells then s.cells[s.current[l]].latest else 0
  }

  /** Every level has a current cell, which holds the level's greatest value. */
  ghost predicate OrderInv(cells: map<nat, Cell>, current: map<nat, nat>) {
    && (forall l :: l in current ==> current[l] in cells && cells[current[l]].level == l)
    && (forall ch :: ch in cells ==> cells[ch].level in current && AtMost(cells[ch].latest, cells, current[cells[ch].level]))
  }

  ghost predicate AtMost(value: int, cells: map<nat, Cell>, ch: nat) {
    ch in cells && value <= cells[ch].latest
  }

  /** A cell is current, with its channel open, or one raise has superseded
      it, and that raise closes its channel once: it has, or it is about to. */
  ghost predicate ChannelOk(ch: nat, live: bool, closes: nat, closer: map<nat, nat>, raises: map<nat, Raise>) {
    && (live <==> ch !in closer)
    && (live ==> closes == 0)
    && (!live ==> closer[ch] in raises && closes == (if raises[closer[ch]].phase == Closing(ch) then 0 else 1))
  }

  ghost predicate ChannelInv(cells: map<nat, Cell>, current: map<nat, nat>, closes: map<nat, nat>,
                             closer: map<nat, nat>, raises: map<nat, Raise>)
  {
    && closer.Keys <= cells.Keys && closes.Keys <= cells.Keys
    && forall ch :: ch in cells ==> ChannelOk(ch, Live(ch, cells[ch].level, current), Closes(closes, ch), closer, raises)
  }

  predicate Live(ch: nat, l: nat, current: map<nat, nat>) {
    l in current && current[l] == ch
  }

  /** A cell's value is zero or that of a raise that has taken effect. */
  ghost predicate OriginOk(cell: Cell, raises: map<nat, Raise>) {
    if cell.origin.None? then cell.latest == 0
    else
      && cell.origin.value in raises && raises[cell.origin.value].phase.TookEffect()
      && raises[cell.origin.value].level == cell.level && raises[cell.origin.value].value == cell.latest
  }

  ghost predicate OriginInv(cells: map<nat, Cell>, raises: map<nat, Raise>) {
    forall ch :: ch in cells ==> OriginOk(cells[ch], raises)
  }

  ghost predicate RaiseOk(r: nat, raise: Raise, cells: map<nat, Cell>, current: map<nat, nat>, closer: map<nat, nat>) {
    && raise.level in current
    && (raise.phase.Swapping? ==>
          raise.phase.loaded in cells && cells[raise.phase.loaded].level == raise.level
          && cells[raise.phase.loaded].latest < raise.value)
    && (raise.phase.Closing? ==>
          raise.phase.superseded in cells && raise.phase.superseded in closer && closer[raise.phase.superseded] == r)
    && (raise.phase.TookEffect() ==> AtMost(raise.value, cells, current[raise.level]))
  }

  ghost predicate RaisesInv(raises: map<nat, Raise>, cells: map<nat, Cell>, current: map<nat, nat>, closer: map<nat, nat>) {
    forall r :: r in raises ==> RaiseOk(r, raises[r], cells, current, closer)
  }

  ghost predicate HoldsCells(captured: map<nat, nat>, after: map<nat, int>, cells: map<nat, Cell>) {
    forall l :: l in captured ==> l in after && captured[l] in cells && cells[captured[l]].level == l
  }

  ghost predicate WaitOk(wait: Wait, cells: map<nat, Cell>, current: map<nat, nat>) {
    && (forall l :: l in wait.after ==> l in current)
    && (wait.phase.Capturing? || wait.phase.Blocked? ==> HoldsCells(wait.phase.captured, wait.after, cells))
    && (wait.phase.Blocked? ==>
          && wait.phase.glimpse.Some? == wait.observed.Some? && !Newer(wait.phase.glimpse, wait.observed)
          && forall l :: l in wait.after ==>
            l in wait.phase.captured && cells[wait.phase.captured[l]].latest <= wait.after[l])
    && (wait.phase.Returned? ==>
          && wait.phase.levels.Keys == wait.after.Keys
          && (Above(wait.phase.levels, wait.after) || Newer(wait.phase.glimpse, wait.observed))
          && forall l :: l in wait.after ==> AtMost(wait.phase.levels[l], cells, current[l]))
  }

  ghost predicate WaitsInv(waits: map<nat, Wait>, cells: map<nat, Cell>, current: map<nat, nat>) {
    forall w :: w in waits ==> WaitOk(waits[w], cells, current)
  }

  ghost predicate Inv(s: State) {
    && OrderInv(s.cells, s.current)
    && ChannelInv(s.cells, s.current, s.closes, s.closer, s.raises)
    && OriginInv(s.cells, s.raises)
    && RaisesInv(s.raises, s.cells, s.current, s.closer)
    && WaitsInv(s.waits, s.cells, s.current)
  }

  // ----- levels never fall and cells never change -----

  ghost predicate Rises(cells: map<nat, Cell>, current: map<nat, nat>, cells': map<nat, Cell>, current': map<nat, nat>) {
    && (forall ch :: ch in cells ==> ch in cells' && cells'[ch] == cells[ch])
    && (forall l :: l in current ==> current[l] in cells && l in current' && AtMost(cells[current[l]].latest, cells', current'[l]))
  }

  lemma WaitRises(wait: Wait, cells: map<nat, Cell>, current: map<nat, nat>, cells': map<nat, Cell>, current': map<nat, nat>)
    requires WaitOk(wait, cells, current) && Rises(cells, current, cells', current')
    ensures WaitOk(wait, cells', current')
  {
  }

  lemma WaitsRise(waits: map<nat, Wait>, cells: map<nat, Cell>, current: map<nat, nat>,
                  cells': map<nat, Cell>, current': map<nat, nat>)
    requires WaitsInv(waits, cells, current) && Rises(cells, current, cells', current')
    ensures WaitsInv(waits, cells', current')
  {
    hide WaitOk, Rises;
    forall w | w in waits ensures WaitOk(waits[w], cells', current') {
      WaitRises(waits[w], cells, current, cells', current');
    }
  }

  lemma RaisesRise(raises: map<nat, Raise>, cells: map<nat, Cell>, current: map<nat, nat>, closer: map<nat, nat>,
                   cells': map<nat, Cell>, current': map<nat, nat>, closer': map<nat, nat>)
    requires RaisesInv(raises, cells, current, closer) && Rises(cells, current, cells', current')
    requires forall ch :: ch in closer ==> ch in closer' && closer'[ch] == closer[ch]
    ensures RaisesInv(raises, cells', current', closer')
  {
    forall r | r in raises ensures RaiseOk(r, raises[r], cells', current', closer') {
      assert RaiseOk(r, raises[r], cells, current, closer);
    }
  }

  // ----- raising -----

  lemma OriginsStay(cells: map<nat, Cell>, raises: map<nat, Raise>, r: nat, raise: Raise)
    requires OriginInv(cells, raises)
    requires r in raises ==>
               raise.level == raises[r].level && raise.value == raises[r].value
               && (raises[r].phase.TookEffect() ==> raise.phase.TookEffect())
    ensures OriginInv(cells, raises[r := raise])
  {
    forall ch | ch in cells ensures OriginOk(cells[ch], raises[r := raise]) {
      assert OriginOk(cells[ch], raises);
    }
  }

  /** A raise that neither starts nor ends a close leaves the channels alone. */
  lemma ChannelsStay(cells: map<nat, Cell>, current: map<nat, nat>, closes: map<nat, nat>, closer: map<nat, nat>,
                     raises: map<nat, Raise>, r: nat, raise: Raise)
    requires ChannelInv(cells, current, closes, closer, raises) && !raise.phase.Closing?
    requires r in raises ==> !raises[r].phase.Closing?
    ensures ChannelInv(cells, current, closes, closer, raises[r := raise])
  {
    hide Live, Closes;
    forall ch | ch in cells
      ensures ChannelOk(ch, Live(ch, cells[ch].level, current), Closes(closes, ch), closer, raises[r := raise])
    {
      assert ChannelOk(ch, Live(ch, cells[ch].level, current), Closes(closes, ch), closer, raises);
    }
  }

  lemma RaiseMoved(s: State, r: nat, raise: Raise)
    requires Inv(s) && RaiseOk(r, raise, s.cells, s.current, s.closer) && !raise.phase.Closing?
    requires r in s.raises ==>
               raise.level == s.raises[r].level && raise.value == s.raises[r].value && !s.raises[r].phase.TookEffect()
    ensures Inv(s.(raises := s.raises[r := raise]))
  {
    hide OrderInv, ChannelInv, OriginInv, WaitsInv, RaiseOk;
    OriginsStay(s.cells, s.raises, r, raise);
    ChannelsStay(s.cells, s.current, s.closes, s.closer, s.raises, r, raise);
  }

  lemma LoadKept(s: State, r: nat)
    requires Inv(s) && Enabled(s, Load(r))
    ensures Inv(Next(s, Load(r)))
  {
    assert RaiseOk(r, s.raises[r], s.cells, s.current, s.closer);
    var loaded := s.current[s.raises[r].level];
    var phase := if s.raises[r].value <= s.cells[loaded].latest then Raised else Swapping(loaded);
    assert RaiseOk(r, s.raises[r].(phase := phase), s.cells, s.current, s.closer);
    hide OrderInv, ChannelInv, OriginInv, RaisesInv, WaitsInv, RaiseOk;
    RaiseMoved(s, r, s.raises[r].(phase := phase));
  }

  lemma PublishedRises(cells: map<nat, Cell>, current: map<nat, nat>, l: nat, ch: nat, cell: Cell)
    requires OrderInv(cells, current) && l in current && ch !in cells
    requires cell.level == l && cells[current[l]].latest < cell.latest
    ensures OrderInv(cells[ch := cell], current[l := ch])
    ensures Rises(cells, current, cells[ch := cell], current[l := ch])
  {
  }

  lemma PublishedChannels(cells: map<nat, Cell>, current: map<nat, nat>, closes: map<nat, nat>, closer: map<nat, nat>,
                          raises: map<nat, Raise>, r: nat, raise: Raise, ch: nat, cell: Cell)
    requires OrderInv(cells, current) && ChannelInv(cells, current, closes, closer, raises)
    requires ch !in cells && cell.level in current && raise.phase == Closing(current[cell.level])
    requires r in raises && !raises[r].phase.Closing?
    ensures current[cell.level] !in closer
    ensures ChannelInv(cells[ch := cell], current[cell.level := ch], closes, closer[current[cell.level] := r], raises[r := raise])
  {
    var old_ := current[cell.level];
    var cells', current', closer', raises' := cells[ch := cell], current[cell.level := ch], closer[old_ := r], raises[r := raise];
    assert ChannelOk(old_, Live(old_, cells[old_].level, current), Closes(closes, old_), closer, raises);
    forall d | d in cells' ensures ChannelOk(d, Live(d, cells'[d].level, current'), Closes(closes, d), closer', raises') {
      if d != ch {
        assert ChannelOk(d, Live(d, cells[d].level, current), Closes(closes, d), closer, raises);
      }
    }
  }

  lemma PublishedOrigins(cells: map<nat, Cell>, raises: map<nat, Raise>, r: nat, raise: Raise, ch: nat)
    requires OriginInv(cells, raises) && raise.phase.TookEffect()
    requires r in raises && raise.level == raises[r].level && raise.value == raises[r].value
    ensures OriginInv(cells[ch := Cell(raise.level, raise.value, Some(r))], raises[r := raise])
  {
    OriginsStay(cells, raises, r, raise);
    assert OriginOk(Cell(raise.level, raise.value, Some(r)), raises[r := raise]);
  }

  lemma LoadedLess(raises: map<nat, Raise>, cells: map<nat, Cell>, current: map<nat, nat>, closer: map<nat, nat>, r: nat)
    requires RaisesInv(raises, cells, current, closer) && r in raises && raises[r].phase.Swapping?
    ensures raises[r].phase.loaded in cells && cells[raises[r].phase.loaded].latest < raises[r].value
  {
    assert RaiseOk(r, raises[r], cells, current, closer);
  }

  /** The swap succeeds: the cell is published and its predecessor superseded. */
  lemma PublishedKept(s: State, r: nat, ch: nat)
    requires Inv(s) && r in s.raises && s.raises[r].phase.Swapping? && ch !in s.cells
    requires s.raises[r].level in s.current && s.current[s.raises[r].level] == s.raises[r].phase.loaded
    ensures Inv(AfterSwap(s, r, ch))
  {
    hide OrderInv, ChannelInv, OriginInv, RaisesInv, WaitsInv, RaiseOk, Rises;
    var raise := s.raises[r];
    var l, loaded, moved := raise.level, raise.phase.loaded, raise.(phase := Closing(raise.phase.loaded));
    var cell := Cell(l, raise.value, Some(r));
    LoadedLess(s.raises, s.cells, s.current, s.closer, r);
    PublishedRises(s.cells, s.current, l, ch, cell);
    PublishedChannels(s.cells, s.current, s.closes, s.closer, s.raises, r, moved, ch, cell);
    PublishedOrigins(s.cells, s.raises, r, moved, ch);
    WaitsRise(s.waits, s.cells, s.current, s.cells[ch := cell], s.current[l := ch]);
    RaisesRise(s.raises, s.cells, s.current, s.closer, s.cells[ch := cell], s.current[l := ch], s.closer[loaded := r]);
    PublisherOk(s.raises, s.cells[ch := cell], s.current[l := ch], s.closer[loaded := r], r, loaded, ch);
  }

  lemma PublisherOk(raises: map<nat, Raise>, cells: map<nat, Cell>, current: map<nat, nat>, closer: map<nat, nat>,
                    r: nat, loaded: nat, ch: nat)
    requires RaisesInv(raises, cells, current, closer) && r in raises
    requires loaded in cells && loaded in closer && closer[loaded] == r
    requires ch in cells && cells[ch].latest == raises[r].value
    requires raises[r].level in current && current[raises[r].level] == ch
    ensures RaisesInv(raises[r := raises[r].(phase := Closing(loaded))], cells, current, closer)
  {
  }

  lemma SwapKept(s: State, r: nat, ch: nat)
    requires Inv(s) && Enabled(s, Swap(r, ch))
    ensures Inv(AfterSwap(s, r, ch))
  {
    assert RaiseOk(r, s.raises[r], s.cells, s.current, s.closer);
    if s.raises[r].level in s.current && s.current[s.raises[r].level] == s.raises[r].phase.loaded {
      hide *;
      PublishedKept(s, r, ch);
    } else {
      assert RaiseOk(r, s.raises[r].(phase := Loading), s.cells, s.current, s.closer);
      hide OrderInv, ChannelInv, OriginInv, RaisesInv, WaitsInv, RaiseOk;
      RaiseMoved(s, r, s.raises[r].(phase := Loading));
    }
  }

  lemma ClosedChannels(cells: map<nat, Cell>, current: map<nat, nat>, closes: map<nat, nat>, closer: map<nat, nat>,
                       raises: map<nat, Raise>, r: nat, ch: nat)
    requires ChannelInv(cells, current, closes, closer, raises)
    requires r in raises && raises[r].phase == Closing(ch) && ch in closer && closer[ch] == r
    ensures ChannelInv(cells, current, closes[ch := Closes(closes, ch) + 1], closer, raises[r := raises[r].(phase := Raised)])
  {
    var closes', raises' := closes[ch := Closes(closes, ch) + 1], raises[r := raises[r].(phase := Raised)];
    hide Live;
    forall d | d in cells ensures ChannelOk(d, Live(d, cells[d].level, current), Closes(closes', d), closer, raises') {
      assert ChannelOk(d, Live(d, cells[d].level, current), Closes(closes, d), closer, raises);
    }
  }

  lemma ClosedRaises(raises: map<nat, Raise>, cells: map<nat, Cell>, current: map<nat, nat>, closer: map<nat, nat>, r: nat)
    requires RaisesInv(raises, cells, current, closer) && r in raises && raises[r].phase.Closing?
    ensures raises[r].phase.superseded in closer && closer[raises[r].phase.superseded] == r
    ensures RaisesInv(raises[r := raises[r].(phase := Raised)], cells, current, closer)
  {
    assert RaiseOk(r, raises[r], cells, current, closer);
  }

  lemma CloseKept(s: State, r: nat)
    requires Inv(s) && Enabled(s, Close(r))
    ensures Inv(Next(s, Close(r)))
  {
    hide OrderInv, ChannelInv, OriginInv, RaisesInv, WaitsInv, Closes;
    ClosedRaises(s.raises, s.cells, s.current, s.closer, r);
    ClosedChannels(s.cells, s.current, s.closes, s.closer, s.raises, r, s.raises[r].phase.superseded);
    OriginsStay(s.cells, s.raises, r, s.raises[r].(phase := Raised));
  }

  lemma CreatedChannels(cells: map<nat, Cell>, current: map<nat, nat>, closes: map<nat, nat>, closer: map<nat, nat>,
                        raises: map<nat, Raise>, l: nat, ch: nat)
    requires ChannelInv(cells, current, closes, closer, raises) && OrderInv(cells, current) && l !in current && ch !in cells
    ensures ChannelInv(cells[ch := Cell(l, 0, None)], current[l := ch], closes, closer, raises)
  {
    var cells', current' := cells[ch := Cell(l, 0, None)], current[l := ch];
    forall d | d in cells ensures ChannelOk(d, Live(d, cells[d].level, current'), Closes(closes, d), closer, raises) {
      assert ChannelOk(d, Live(d, cells[d].level, current), Closes(closes, d), closer, raises);
    }
  }

  lemma CreatedOrder(cells: map<nat, Cell>, current: map<nat, nat>, l: nat, ch: nat)
    requires OrderInv(cells, current) && l !in current && ch !in cells
    ensures OrderInv(cells[ch := Cell(l, 0, None)], current[l := ch])
    ensures Rises(cells, current, cells[ch := Cell(l, 0, None)], current[l := ch])
  {
  }

  lemma CreateKept(s: State, l: nat, ch: nat)
    requires Inv(s) && Enabled(s, Create(l, ch))
    ensures Inv(Next(s, Create(l, ch)))
  {
    var cells, current := s.cells[ch := Cell(l, 0, None)], s.current[l := ch];
    hide OrderInv, ChannelInv, RaisesInv, WaitsInv, Rises;
    CreatedOrder(s.cells, s.current, l, ch);
    CreatedChannels(s.cells, s.current, s.closes, s.closer, s.raises, l, ch);
    WaitsRise(s.waits, s.cells, s.current, cells, current);
    RaisesRise(s.raises, s.cells, s.current, s.closer, cells, current, s.closer);
  }

  // ----- waiting -----

  lemma WaitMoved(s: State, w: nat, wait: Wait)
    requires Inv(s) && WaitOk(wait, s.cells, s.current)
    ensures Inv(s.(waits := s.waits[w := wait]))
  {
    hide OrderInv, ChannelInv, OriginInv, RaisesInv, WaitOk;
  }

  lemma SettleOk(wait: Wait, cells: map<nat, Cell>, current: map<nat, nat>)
    requires OrderInv(cells, current) && WaitOk(wait, cells, current)
    requires wait.phase.Capturing? && wait.phase.captured.Keys == wait.after.Keys
    requires wait.phase.glimpse.Some? == wait.observed.Some?
    ensures forall l :: l in wait.phase.captured ==> wait.phase.captured[l] in cells
    ensures WaitOk(wait.(phase := Settled(wait, Values(cells, wait.phase.captured))), cells, current)
  {
    var values := Values(cells, wait.phase.captured);
    if !Above(values, wait.after) {
      forall l | l in wait.after ensures values[l] <= wait.after[l] {
      }
    }
  }

  lemma CaptureOk(wait: Wait, cells: map<nat, Cell>, current: map<nat, nat>, l: nat)
    requires OrderInv(cells, current) && WaitOk(wait, cells, current) && wait.phase.Capturing? && l in wait.after
    ensures WaitOk(wait.(phase := Capturing(wait.phase.captured[l := current[l]], wait.phase.glimpse)), cells, current)
  {
  }

  lemma CaptureKept(s: State, w: nat, l: nat)
    requires Inv(s) && Enabled(s, Capture(w, l))
    ensures Inv(Next(s, Capture(w, l)))
  {
    assert WaitOk(s.waits[w], s.cells, s.current);
    hide OrderInv, ChannelInv, OriginInv, RaisesInv, WaitsInv, WaitOk, Inv;
    assert OrderInv(s.cells, s.current) by { InvOrder(s); }
    CaptureOk(s.waits[w], s.cells, s.current, l);
    WaitMoved(s, w, s.waits[w].(phase := Capturing(s.waits[w].phase.captured[l := s.current[l]], s.waits[w].phase.glimpse)));
  }

  lemma GlanceKept(s: State, w: nat, generation: nat)
    requires Inv(s) && Enabled(s, Glance(w, generation))
    ensures Inv(Next(s, Glance(w, generation)))
  {
    assert WaitOk(s.waits[w], s.cells, s.current);
    hide OrderInv, ChannelInv, OriginInv, RaisesInv, WaitsInv, Inv;
    WaitMoved(s, w, s.waits[w].(phase := Capturing(s.waits[w].phase.captured, Some(generation))));
  }

  lemma InvOrder(s: State)
    requires Inv(s)
    ensures OrderInv(s.cells, s.current)
  {
  }

  lemma SettleKept(s: State, w: nat)
    requires Inv(s) && Enabled(s, Settle(w))
    ensures Inv(Next(s, Settle(w)))
  {
    assert WaitOk(s.waits[w], s.cells, s.current);
    hide OrderInv, ChannelInv, OriginInv, RaisesInv, WaitsInv, WaitOk, Inv;
    InvOrder(s);
    SettleOk(s.waits[w], s.cells, s.current);
    WaitMoved(s, w, Next(s, Settle(w)).waits[w]);
  }

  lemma WaitRestarted(s: State, w: nat, phase: WaitPhase)
    requires Inv(s) && w in s.waits && (phase == AFRESH || phase.Cancelled?)
    ensures Inv(MoveWait(s, w, phase))
  {
    assert WaitOk(s.waits[w], s.cells, s.current);
    hide OrderInv, ChannelInv, OriginInv, RaisesInv;
    WaitMoved(s, w, s.waits[w].(phase := phase));
  }

  lemma StartWaitKept(s: State, w: nat, after: map<nat, int>, observed: Option<nat>)
    requires Inv(s) && forall l :: l in after ==> l in s.current
    ensures Inv(s.(waits := s.waits[w := Wait(after, observed, AFRESH)]))
  {
    hide OrderInv, ChannelInv, OriginInv, RaisesInv;
    WaitMoved(s, w, Wait(after, observed, AFRESH));
  }

  lemma InvKept(s: State, a: Action)
    requires Inv(s) && Enabled(s, a)
    ensures Inv(Next(s, a))
  {
    hide AfterSwap, OrderInv, ChannelInv, OriginInv, WaitsInv;
    match a
    case Create(l, ch) => CreateKept(s, l, ch);
    case StartRaise(r, l, value) =>
      assert RaiseOk(r, Raise(l, value, Loading), s.cells, s.current, s.closer);
      hide RaisesInv, Inv;
      RaiseMoved(s, r, Raise(l, value, Loading));
    case Load(r) => LoadKept(s, r);
    case Swap(r, ch) => SwapKept(s, r, ch);
    case Close(r) => CloseKept(s, r);
    case StartWait(w, after, observed) => StartWaitKept(s, w, after, observed);
    case Capture(w, l) => CaptureKept(s, w, l);
    case Glance(w, generation) => GlanceKept(s, w, generation);
    case Settle(w) => SettleKept(s, w);
    case Wake(w) => WaitRestarted(s, w, AFRESH);
    case Rouse(w) => WaitRestarted(s, w, AFRESH);
    case Cancel(w) => WaitRestarted(s, w, WaitPhase.Cancelled);
    case Tick =>
  }

  lemma Unpublished(s: State, a: Action)
    requires Enabled(s, a) && !a.Swap? && !a.Create?
    ensures Next(s, a).cells == s.cells && Next(s, a).current == s.current
  {
    hide Values, Settled, Closes, CanWake;
  }

  lemma StepRises(s: State, a: Action)
    requires Inv(s) && Enabled(s, a)
    ensures Rises(s.cells, s.current, Next(s, a).cells, Next(s, a).current)
  {
    InvOrder(s);
    hide Inv, AfterSwap;
    if a.Swap? {
      SwapRises(s, a.r, a.cell);
    } else if a.Create? {
      CreatedOrder(s.cells, s.current, a.level, a.cell);
    } else {
      hide Enabled, Next;
      Unpublished(s, a);
    }
  }

  lemma SwapRises(s: State, r: nat, ch: nat)
    requires Inv(s) && Enabled(s, Swap(r, ch))
    ensures Rises(s.cells, s.current, AfterSwap(s, r, ch).cells, AfterSwap(s, r, ch).current)
  {
    hide ChannelInv, OriginInv, WaitsInv;
    var raise := s.raises[r];
    assert RaiseOk(r, raise, s.cells, s.current, s.closer);
    if raise.level in s.current && s.current[raise.level] == raise.phase.loaded {
      PublishedRises(s.cells, s.current, raise.level, ch, Cell(raise.level, raise.value, Some(r)));
    }
  }
}
