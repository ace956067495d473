module TypingExact {
  /** Typing told by the callers' actions alone: a member is active in a topic
      exactly from a start under an accepted stream until a stop, the last
      cleanup, or the firing of the latest start's timer; and places list their
      members by when they started. */

  import opened Common
  import opened TypingSummary
  import opened Typing
  import opened TypingRuns
  import opened TypingSteps

  /** A member is active in a topic exactly if a start counted, under a stream
      accepted by then, and nothing has ended it: no stop, no last cleanup, and
      no firing of the latest start's own timer. */
  lemma ActiveExactly(trace: seq<State>, actions: seq<Action>, n: nat, p: Place, m: nat)
    requires IsRun(trace, actions) && n < |trace| && p.topic != 0
    ensures Active(trace[n].places, p, m) <==> exists t :: Types(actions, n, p, m, t)
    ensures forall t :: Types(actions, n, p, m, t) <==> Expires(trace[n], t, p, m)
  {
    RunInv(trace, actions, n);
    TimersKnown(trace, actions, n, p, m);
    hide IsRun, PlacesInv, FeedInv, KeysInv, TimersInv, CountsInv, Active, Types;
    var s := trace[n];
    assert ActiveOk(s.places, s.streams, s.lives, p, m);
    hide Inv, TopicsOf;
    if Active(s.places, p, m) {
      assert TimerIs(s, p, m, TopicsOf(s.streams, s.lives, Key(m, p.channel))[p.topic]);
    }
  }

  /** A place, topic or feed, lists its members by their first starts, the
      newest first, each as that start named them; starting again while active
      changes nothing in this. */
  lemma ListedByStart(trace: seq<State>, actions: seq<Action>, n: nat, p: Place, i: nat, k: nat)
    requires IsRun(trace, actions) && n < |trace|
    requires i < |At(trace[n].places, p).starts| && Since(trace, actions, n, p, At(trace[n].places, p).starts[i], k)
    ensures var summary := At(trace[n].places, p);
            && summary.starts[i] in summary.members && summary.members[summary.starts[i]].typist == actions[k].typist
            && forall j: nat, l: nat :: i < j < |summary.starts| && Since(trace, actions, n, p, summary.starts[j], l) ==> l < k
  {
    hide Inv, Next, Enabled, Init, BeginsAt;
    var summary := At(trace[n].places, p);
    ListedFacts(trace, actions, n, p);
    SinceFacts(trace, actions, n, p, summary.starts[i], k);
    forall j: nat, l: nat | i < j < |summary.starts| && Since(trace, actions, n, p, summary.starts[j], l) ensures l < k {
      SinceFacts(trace, actions, n, p, summary.starts[j], l);
      if k <= l {
        assert k + 1 <= l + 1 < |trace| by { SinceBefore(trace, actions, n, p, summary.starts[j], l); }
        GenerationsRise(trace, actions, k + 1, l + 1);
      }
    }
  }
}
