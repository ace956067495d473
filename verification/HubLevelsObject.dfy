/** The hub's atomic cells as one object: a method for each atomic operation
    of a raise or a wait, each making exactly one step of HubLevels. */
module HubLevelsObject {
  import opened Common
  import opened HubLevels

  class Levels {
    var cells: map<nat, Cell>
    var current: map<nat, nat>
    var closes: map<nat, nat>
    var closer: map<nat, nat>
    var raises: map<nat, Raise>
    var waits: map<nat, Wait>

    ghost function View(): State
      reads this
    {
      State(cells, current, closes, closer, raises, waits)
    }

    constructor ()
      ensures View() == Init()
    {
      cells, current, closes, closer, raises, waits := map[], map[], map[], map[], map[], map[];
    }

    /** raise loads the pointer and gives up at once if the value is not news. */
    method Load(r: nat)
      requires Enabled(View(), Action.Load(r))
      modifies this`raises
      ensures View() == Next(old(View()), Action.Load(r))
    {
      var raise := raises[r];
      var loaded := current[raise.level];
      if raise.value <= cells[loaded].latest {
        raises := raises[r := raise.(phase := Raised)];
      } else {
        raises := raises[r := raise.(phase := Swapping(loaded))];
      }
    }

    /** CompareAndSwap: publishes the value with a new channel, or goes round again. */
    method Swap(r: nat, ch: nat)
      requires Enabled(View(), Action.Swap(r, ch))
      modifies this`raises, this`cells, this`current, this`closer
      ensures View() == Next(old(View()), Action.Swap(r, ch))
    {
      var raise := raises[r];
      var loaded := raise.phase.loaded;
      if raise.level in current && current[raise.level] == loaded {
        cells := cells[ch := Cell(raise.level, raise.value, Some(r))];
        current := current[raise.level := ch];
        closer := closer[loaded := r];
        raises := raises[r := raise.(phase := Closing(loaded))];
      } else {
        raises := raises[r := raise.(phase := Loading)];
      }
    }

    /** Only the successful publisher closes the superseded channel. */
    method Close(r: nat)
      requires Enabled(View(), Action.Close(r))
      modifies this`raises, this`closes
      ensures View() == Next(old(View()), Action.Close(r))
    {
      var ch := raises[r].phase.superseded;
      closes := closes[ch := Closes(closes, ch) + 1];
      raises := raises[r := raises[r].(phase := Raised)];
    }

    /** waitFor loads one more level's value and channel together. */
    method Capture(w: nat, l: nat)
      requires Enabled(View(), Action.Capture(w, l))
      modifies this`waits
      ensures View() == Next(old(View()), Action.Capture(w, l))
    {
      var captured := waits[w].phase.captured;
      captured := captured[l := current[l]];
      waits := waits[w := waits[w].(phase := Capturing(captured, waits[w].phase.glimpse))];
    }

    /** waitFor snapshots the watch after the levels. */
    method Glance(w: nat, generation: nat)
      requires Enabled(View(), Action.Glance(w, generation))
      modifies this`waits
      ensures View() == Next(old(View()), Action.Glance(w, generation))
    {
      waits := waits[w := waits[w].(phase := Capturing(waits[w].phase.captured, Some(generation)))];
    }

    /** With every level and the watch captured: returns if one is above what
        the caller knows, and blocks on the captured channels otherwise. */
    method Settle(w: nat)
      requires Enabled(View(), Action.Settle(w))
      modifies this`waits
      ensures View() == Next(old(View()), Action.Settle(w))
    {
      var wait := waits[w];
      var captured := wait.phase.captured;
      var values := map l | l in captured :: cells[captured[l]].latest;
      var glimpse := wait.phase.glimpse;
      if (exists l :: l in values && l in wait.after && values[l] > wait.after[l]) || Newer(glimpse, wait.observed) {
        waits := waits[w := wait.(phase := Returned(values, glimpse))];
      } else {
        waits := waits[w := wait.(phase := Blocked(captured, glimpse))];
      }
    }
  }
}
