/** One organisation's presence state as the object its streams share: the
    fields its mutex guards and a method for each critical section. */
module PresenceObject {
  import opened Common
  import opened Presence

  class Organization {
    const process: nat
    var generation: nat
    var boundary: nat
    var changes: seq<nat>
    var members: map<nat, nat>
    var records: map<nat, Record>
    var timers: map<nat, Timer>
    var opens: map<nat, Opened>
    ghost var log: seq<Presence.Change>

    ghost function View(): State
      reads this
    {
      State(generation, boundary, changes, members, records, timers, opens, log)
    }

    constructor (process: nat)
      ensures View() == Init() && this.process == process
    {
      this.process := process;
      generation, boundary, changes, members := 0, 0, [], map[];
      records, timers, opens, log := map[], map[], map[], [];
    }

    /** change: unlists the record, gives it the next generation, lists it last. */
    method Change(r: nat, online: bool)
      requires r in records
      modifies this`generation, this`changes, this`records, this`log
      ensures View() == Changed(old(View()), r, online)
    {
      changes := Without(changes, r);
      generation := generation + 1;
      log := log + [Presence.Change(records[r].member, online)];
      records := records[r := records[r].(online := online, generation := generation)];
      changes := changes + [r];
    }

    /** Open: an accepted stream of the member. */
    method Open(member: nat, stream: nat, r: nat)
      requires Enabled(View(), Action.Open(member, stream, r))
      modifies this
      ensures View() == Next(old(View()), Action.Open(member, stream, r))
    {
      var m := r;
      if member in members {
        m := members[member];
      } else {
        records := records[m := Record(member, 0, None, false, 0)];
        members := members[member := m];
      }
      assert View() == WithMember(old(View()), member, r);
      if !records[m].online {
        Change(m, true);
      }
      records := records[m := records[m].(timer := None, streams := records[m].streams + 1)];
      opens := opens[stream := Opened(m, false)];
    }

    /** The cleanup: the last one starts the grace timer. Again it does nothing. */
    method Close(stream: nat, t: nat)
      requires Enabled(View(), Action.Close(stream, t))
      modifies this`records, this`timers, this`opens
      ensures View() == Next(old(View()), Action.Close(stream, t))
    {
      if opens[stream].closed {
        return;
      }
      var r := opens[stream].record;
      opens := opens[stream := Opened(r, true)];
      var record := records[r].(streams := records[r].streams - 1);
      if record.streams == 0 {
        record := record.(timer := Some(t));
        timers := timers[t := Timer(r, Grace, false)];
      }
      records := records[r := record];
    }

    /** A timer's callback: nothing unless the timer is still the member's. */
    method Fire(t: nat, next: nat)
      requires Enabled(View(), Action.Fire(t, next))
      modifies this
      ensures View() == Next(old(View()), Action.Fire(t, next))
    {
      var timer := timers[t];
      timers := timers[t := timer.(fired := true)];
      var r := timer.record;
      if records[r].timer != Some(t) {
        return;
      }
      if timer.kind.Discard? {
        boundary := Max(boundary, records[r].generation);
        changes := Without(changes, r);
        members := members - {records[r].member};
      } else {
        Change(r, false);
        records := records[r := records[r].(timer := Some(next))];
        timers := timers[next := Timer(r, Discard, false)];
      }
    }

    /** After: walks the list from its end and stops at the first change the
        reader knows, or at one too many. */
    method After(start: Token) returns (result: Changes)
      requires OrderInv(changes, records, generation)
      ensures result == Presence.After(View(), process, start)
    {
      var token := Token(process, generation);
      if start.process != process || start.generation < boundary {
        return Changes([], boundary, token, true);
      }
      var i, entries := |changes|, [];
      assert changes[..i] == changes;
      while i > 0 && records[changes[i - 1]].generation > start.generation
        invariant 0 <= i <= |changes| && |entries| == |changes| - i <= MAX_CHANGES
        invariant Since(changes, records, start.generation)
               == Since(changes[..i], records, start.generation) + Reversed(entries)
        decreases i
      {
        var record := records[changes[i - 1]];
        var entry := Presence.Change(record.member, record.online);
        assert changes[..i][..i - 1] == changes[..i - 1];
        if |entries| == MAX_CHANGES {
          return Changes([], boundary, token, true);
        }
        ReversedMore(entries, entry);
        entries := entries + [entry];
        i := i - 1;
      }
      NothingSince(changes[..i], records, start.generation);
      entries := Reverse(entries);
      return Changes(entries, boundary, token, false);
    }

    lemma NothingSince(earlier: seq<nat>, records: map<nat, Record>, start: nat)
      requires earlier <= changes && OrderInv(changes, records, generation)
      requires earlier != [] ==> records[earlier[|earlier| - 1]].generation <= start
      ensures Since(earlier, records, start) == []
    {
      NothingListed(earlier, records, start);
    }
  }

  lemma {:induction false} NothingListed(changes: seq<nat>, records: map<nat, Record>, start: nat)
    requires forall i :: 0 <= i < |changes| ==> changes[i] in records && records[changes[i]].generation <= start
    ensures Since(changes, records, start) == []
  {
    if changes != [] {
      NothingListed(changes[..|changes| - 1], records, start);
    }
  }

  function Reversed(entries: seq<Change>): seq<Change> {
    seq(|entries|, i requires 0 <= i < |entries| => entries[|entries| - 1 - i])
  }

  lemma ReversedMore(entries: seq<Change>, entry: Change)
    ensures Reversed(entries + [entry]) == [entry] + Reversed(entries)
  {
  }

  method Reverse(entries: seq<Change>) returns (r: seq<Change>)
    ensures r == Reversed(entries)
  {
    r := [];
    var i := |entries|;
    while i > 0
      invariant 0 <= i <= |entries| && r == Reversed(entries)[..|entries| - i]
    {
      i := i - 1;
      r := r + [entries[i]];
    }
  }
}
