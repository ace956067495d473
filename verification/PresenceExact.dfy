module PresenceExact {
  /** Presence told by the callers' actions alone: when a member is online, when
      a member is discarded, which changes are announced, and exactly when and
      with what After answers. */

  import opened Common
  import opened Presence
  import opened PresenceRuns
  import opened PresenceSteps

  /** A member is online exactly if some stream of theirs was accepted after
      which no grace period ran out: one that the last close began, and that no
      accepted stream cut short. */
  lemma {:induction false} OnlineExactly(trace: seq<State>, actions: seq<Action>, n: nat, member: nat)
    requires IsRun(trace, actions) && n < |trace|
    ensures Online(trace[n], member) <==> ShownOnline(actions, n, member)
  {
    hide Inv, Next, Enabled, Init, IsOpen, GraceRuns, RetentionRuns, Has, Runs, Online, Disturbs, ShownOnline;
    if n == 0 {
      AtFirst(actions, member, 0);
      assert !ShownOnline(actions, 0, member) by { NotShown(actions, member); }
    } else {
      OnlineExactly(trace, actions, n - 1, member);
      GraceKnown(trace, actions, n - 1, member);
      RunInv(trace, actions, n - 1);
      assert StepAt(trace, actions, n - 1);
      MemberStep(trace[n - 1], actions[n - 1], member);
      ShownNext(actions, n - 1, member);
    }
  }

  /** Every visible change takes one generation, and nothing else takes any. */
  lemma EveryChangeIsAnnounced(trace: seq<State>, actions: seq<Action>, n: nat)
    requires IsRun(trace, actions) && n < |actions|
    ensures forall member :: Online(trace[n], member) != Online(trace[n + 1], member) ==>
              trace[n + 1].log == trace[n].log + [Change(member, Online(trace[n + 1], member))]
    ensures (forall member :: Online(trace[n], member) == Online(trace[n + 1], member)) ==> trace[n + 1].log == trace[n].log
    ensures |trace[n].log| == trace[n].generation
  {
    hide Inv, Next, Enabled, Init, Online;
    RunInv(trace, actions, n);
    LogLength(trace[n]);
    assert StepAt(trace, actions, n);
    forall member | Online(trace[n], member) != Online(trace[n + 1], member)
      ensures trace[n + 1].log == trace[n].log + [Change(member, Online(trace[n + 1], member))]
    {
      LogStep(trace[n], actions[n], member);
    }
    if forall member :: Online(trace[n], member) == Online(trace[n + 1], member) {
      QuietStep(trace[n], actions[n]);
    }
  }

  /** The boundary is the last change of the members discarded so far, and the
      highest of them. */
  lemma {:induction false} BoundaryKnown(trace: seq<State>, actions: seq<Action>, n: nat, g: nat)
    requires IsRun(trace, actions) && n < |trace|
    ensures trace[n].boundary > g <==> DiscardedAbove(trace, actions, n, g)
  {
    hide Inv, Next, Enabled, Init, RetentionRuns, Runs, LastChange, DiscardedAbove;
    if n == 0 {
      assert trace[0].boundary == 0 && !DiscardedAbove(trace, actions, 0, g) by { NoBoundary(trace, actions, g); }
    } else {
      BoundaryKnown(trace, actions, n - 1, g);
      RunInv(trace, actions, n - 1);
      assert StepAt(trace, actions, n - 1);
      ghost var m: nat := n - 1;
      var s, a := trace[m], actions[m];
      if member :| Discards(actions, m, member) {
        RetentionKnown(trace, actions, m, member);
        BoundaryStep(s, a, member);
        OneDiscard(trace, actions, m, member);
        AboveNext(trace, actions, m, g, member);
      } else {
        AboveSame(trace, actions, m, g);
        if a.Fire? {
          forall member ensures !Runs(s, member, a.timer, Discard) {
            RetentionKnown(trace, actions, m, member);
            assert !Discards(actions, m, member);
          }
          NoDiscardStep(s, a);
        } else {
          BoundaryStep(s, a, 0);
        }
      }
    }
  }

  /** After resets exactly when the token is another process's, when a member
      was discarded whose last change the token does not know of, or when more
      than 100 members have changed since. */
  lemma ResetsExactly(trace: seq<State>, actions: seq<Action>, n: nat, process: nat, start: Token)
    requires IsRun(trace, actions) && n < |trace|
    ensures After(trace[n], process, start).reset <==>
              || start.process != process
              || DiscardedAbove(trace, actions, n, start.generation)
              || |ChangedSince(trace[n].log, start.generation)| > MAX_CHANGES
  {
    hide Inv, Next, Enabled, Init, Since, ChangedSince, DiscardedAbove;
    RunInv(trace, actions, n);
    BoundaryKnown(trace, actions, n, start.generation);
    if trace[n].boundary <= start.generation {
      NobodyMissing(trace[n], start.generation);
    }
  }

  /** Any other answer lists exactly the members who have changed since, each
      once, as they are shown now, in the order of their last changes; and every
      answer names the current generation. */
  lemma AnswersExactly(trace: seq<State>, actions: seq<Action>, n: nat, process: nat, start: Token)
    requires IsRun(trace, actions) && n < |trace|
    ensures var s, answer := trace[n], After(trace[n], process, start);
            && answer.token == Token(process, |s.log|)
            && if answer.reset then answer.entries == []
               else
                 && InOrder(answer.entries, s.log) && |answer.entries| == |ChangedSince(s.log, start.generation)|
                 && forall e :: e in answer.entries <==> e.member in ChangedSince(s.log, start.generation) && e.online == Online(s, e.member)
  {
    hide Inv, Next, Enabled, Init, Since, ChangedSince, DiscardedAbove, LastChange, InOrder, Online;
    var s := trace[n];
    RunInv(trace, actions, n);
    LogLength(s);
    if !After(s, process, start).reset {
      SuffixIsTheChanges(s, start.generation);
      NobodyMissing(s, start.generation);
      forall k | LastChange(s.log, k) > start.generation ensures k in ChangedSince(s.log, start.generation) {
        ChangedIsLast(s.log, start.generation, k);
      }
    }
  }
}
