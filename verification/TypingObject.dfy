/** The typing state as objects: a place's summary, and the organisation's state
    with a method for each critical section. */
module TypingObject {
  import opened Common
  import opened TypingSummary
  import opened Typing

  /** summary.go: updated in place by start and stop. */
  class PlaceSummary {
    var generation: nat
    var members: map<nat, Activity>
    var starts: seq<nat>
    var latest: seq<Typist>

    ghost function View(): Summary
      reads this
    {
      Summary(generation, members, starts, latest)
    }

    constructor ()
      ensures View() == EMPTY
    {
      generation, members, starts, latest := 0, map[], [], [];
    }

    method Start(typist: Typist, generation: nat)
      requires SummaryOk(View())
      modifies this
      ensures View() == Started(old(View()), typist, generation)
    {
      if typist.member in members {
        var activity := members[typist.member];
        members := members[typist.member := activity.(count := activity.count + 1)];
        return;
      }
      starts := [typist.member] + starts;
      members := members[typist.member := Activity(typist, 1, generation)];
      Changed(generation);
    }

    method Stop(id: nat, generation: nat)
      requires SummaryOk(View()) && id in members
      modifies this
      ensures View() == Stopped(old(View()), id, generation)
    {
      var activity := members[id].(count := members[id].count - 1);
      if activity.count != 0 {
        members := members[id := activity];
        return;
      }
      WithoutElements(starts, id);
      starts := Without(starts, id);
      members := members - {id};
      Changed(generation);
    }

    /** changed: walks the order from its front until there are four candidates. */
    method Changed(generation: nat)
      requires forall m :: m in starts ==> m in members
      modifies this`generation, this`latest
      ensures View() == Refreshed(old(View()), generation)
    {
      this.generation, latest := generation, [];
      var k := 0;
      while k < |starts| && |latest| < CANDIDATES
        invariant 0 <= k <= |starts| && |latest| == k <= CANDIDATES
        invariant this.generation == generation && latest == Names(members, starts[..k])
      {
        NamesJoin(members, starts[..k], [starts[k]]);
        assert starts[..k] + [starts[k]] == starts[..k + 1];
        latest := latest + [members[starts[k]].typist];
        k := k + 1;
      }
    }

    /** Read's loop over the candidates. */
    method Shown(viewer: nat) returns (typists: seq<Typist>, remaining: int)
      ensures typists == FirstThree(NotViewer(latest, viewer))
      ensures remaining == |members| - (if viewer in members then 1 else 0) - |typists|
    {
      remaining := |members|;
      if viewer in members {
        remaining := remaining - 1;
      }
      typists := [];
      var k := 0;
      while k < |latest|
        invariant 0 <= k <= |latest| && typists == FirstThree(NotViewer(latest[..k], viewer))
        invariant remaining == |members| - (if viewer in members then 1 else 0) - |typists|
      {
        NotViewerJoin(latest[..k], [latest[k]], viewer);
        assert latest[..k] + [latest[k]] == latest[..k + 1];
        assert NotViewer([latest[k]], viewer) == if latest[k].member == viewer then [] else [latest[k]];
        if latest[k].member != viewer && |typists| < 3 {
          typists := typists + [latest[k]];
          remaining := remaining - 1;
        }
        k := k + 1;
      }
      assert latest[..k] == latest;
    }
  }

  class Organization {
    var generation: nat
    var places: map<Place, Summary>
    var streams: map<Key, nat>
    var lives: map<nat, Streams>
    var timers: map<nat, Timer>
    var opens: map<nat, Opened>

    ghost function View(): State
      reads this
    {
      State(generation, places, streams, lives, timers, opens)
    }

    constructor ()
      ensures View() == Init()
    {
      generation, places, streams, lives, timers, opens := 0, map[], map[], map[], map[], map[];
    }

    /** refresh: a new timer for the topic. The one before may still fire. */
    method Refresh(x: nat, topic: nat, t: nat)
      requires x in lives && t !in timers
      modifies this`lives, this`timers
      ensures timers == old(timers)[t := Timer(x, topic, false)]
      ensures lives == WithTopics(old(lives), x, old(lives[x].topics)[topic := t])
    {
      timers := timers[t := Timer(x, topic, false)];
      lives := lives[x := lives[x].(topics := lives[x].topics[topic := t])];
    }

    method Start(p: Place, typist: Typist, t: nat)
      requires Inv(View()) && t !in timers
      modifies this
      ensures View() == AfterStart(old(View()), p, typist, t)
    {
      hide Core, CountsInv, Started;
      var key := Key(typist.member, p.channel);
      if p.topic == 0 || key !in streams {
        return;
      }
      assert streams[key] in lives by { InvKeys(View(), key); }
      Refresh(streams[key], p.topic, t);
      if typist.member in At(places, p).members {
        return;
      }
      generation := generation + 1;
      places := places[p := Started(At(places, p), typist, generation)];
      places := places[Feed(p.channel) := Started(At(places, Feed(p.channel)), typist, generation)];
    }

    method Stop(p: Place, m: nat)
      requires Core(View())
      modifies this`generation, this`places, this`lives
      ensures View() == AfterStop(old(View()), p, m)
    {
      hide PlacesInv, FeedInv, ActiveInv, TimersInv, KeysInv, Stopped;
      if p.topic == 0 || m !in At(places, p).members {
        return;
      }
      FeedActive(places, p, m, generation);
      KeyOf(streams, lives, Key(m, p.channel));
      var key := Key(m, p.channel);
      if key in streams {
        var x := streams[key];
        lives := lives[x := lives[x].(topics := lives[x].topics - {p.topic})];
      }
      generation := generation + 1;
      var feed := places[Feed(p.channel)];
      places := places[p := Stopped(places[p], m, generation)];
      places := places[Feed(p.channel) := Stopped(feed, m, generation)];
    }

    method Open(key: Key, stream: nat, x: nat)
      requires Inv(View()) && Enabled(View(), Action.Open(key, stream, x))
      modifies this`streams, this`lives, this`opens
      ensures View() == Next(old(View()), Action.Open(key, stream, x))
    {
      hide Inv, TopicsOf;
      if key.channel == 0 {
        return;
      }
      if key !in streams {
        lives := lives[x := Streams(key, 0, map[])];
        streams := streams[key := x];
      }
      var y := streams[key];
      lives := lives[y := lives[y].(count := lives[y].count + 1)];
      opens := opens[stream := Opened(y, false)];
      assert streams == old(streams)[key := y];
    }

    /** The cleanup; again it does nothing. */
    method Close(stream: nat, order: seq<nat>)
      requires Inv(View()) && Enabled(View(), Action.Close(stream, order))
      modifies this
      ensures View() == Next(old(View()), Action.Close(stream, order))
    {
      hide Core, CountsInv, AfterStop;
      if opens[stream].closed {
        return;
      }
      LeftKept(View(), stream);
      ghost var topics := lives[opens[stream].streams].topics;
      assert 0 in order ==> 0 in Elements(order);
      var x := opens[stream].streams;
      var live := lives[x].(count := lives[x].count - 1);
      lives, opens := lives[x := live], opens[stream := Opened(x, true)];
      if live.count != 0 {
        return;
      }
      var k := 0;
      ghost var left := View();
      while k < |order|
        invariant 0 <= k <= |order| && Core(View()) && StopAll(View(), live.key, order[k..]) == StopAll(left, live.key, order)
      {
        var p := Place(live.key.channel, order[k]);
        StopKept(View(), p, live.key.member);
        assert order[k..][0] == order[k] && order[k..][1..] == order[k + 1..];
        Stop(p, live.key.member);
        k := k + 1;
      }
      assert order[k..] == [];
      streams := streams - {live.key};
    }

    /** The expiry callback: nothing unless the timer is still the topic's. */
    method Fire(t: nat)
      requires Inv(View()) && Enabled(View(), Action.Fire(t))
      modifies this
      ensures View() == Next(old(View()), Action.Fire(t))
    {
      hide PlacesInv, FeedInv, ActiveInv, TimersInv, KeysInv, CountsInv, AfterStop, Inv;
      var timer := timers[t];
      var live := lives[timer.streams];
      if timer.topic in live.topics && live.topics[timer.topic] == t {
        FireShape(View(), t);
        assert Core(View()) by { InvCore(View()); }
        Stop(Place(live.key.channel, timer.topic), live.key.member);
      }
      timers := timers[t := timer.(fired := true)];
    }
  }

  lemma InvKeys(s: State, key: Key)
    requires Inv(s)
    ensures key in s.streams ==> s.streams[key] in s.lives
  {
    hide PlacesInv, FeedInv, ActiveInv, TimersInv, CountsInv;
  }

  lemma InvCore(s: State)
    requires Inv(s)
    ensures Core(s)
  {
    hide Core, CountsInv;
  }
}
