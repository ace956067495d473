module StreamAuthorizerAnswers {
  /** Over whole runs: which answer a check gives. A check fails, is denied or
      is allowed exactly as its own reads say. */

  import opened Common
  import opened StreamAuthorizer
  import opened StreamAuthorizerRuns

  predicate Of(c: nat, a: Action) {
    !a.Tick? && a.check == c
  }

  /** One of the check's reads failed, or a context had ended by then. */
  predicate Fails(c: nat, a: Action) {
    || (a.Epoch? && a.check == c && (a.read.None? || a.ended))
    || (a.Finish? && a.check == c && (a.ended || a.fetched.Failure?))
  }

  /** The check read this epoch. */
  predicate Reads(c: nat, epoch: nat, a: Action) {
    a == Epoch(c, Some(epoch), false)
  }

  /** The store said so, with no context ended. */
  predicate Says(c: nat, fetched: Answer, a: Action) {
    a.Finish? && a.check == c && a.fetched == fetched && !a.ended
  }

  ghost predicate Blamed(c: nat, n: nat, actions: seq<Action>) {
    exists i :: 0 <= i < n && i < |actions| && Fails(c, actions[i])
  }

  /** The organisation is missing, the store knows no such member, or the one
      it knows is older than the epoch read. */
  ghost predicate Refused(c: nat, n: nat, actions: seq<Action>) {
    || (exists i :: 0 <= i < n && i < |actions| && Reads(c, 0, actions[i]))
    || (exists i :: 0 <= i < n && i < |actions| && Says(c, NotFound, actions[i]))
    || (exists i, j, epoch, m: Membership :: 0 <= i < n && i < |actions| && 0 <= j < n && j < |actions|
          && Reads(c, epoch, actions[i]) && Says(c, Allowed(m), actions[j]) && m.epoch < epoch)
  }

  /** What the check holds of an action of its own. */
  predicate Holds(c: nat, check: Check, i: nat, a: Action) {
    && (Fails(c, a) ==> check.phase.Answered() == Some(Failure))
    && (a.Epoch? && a.check == c && a.read.Some? && !a.ended ==> check.reading == Some(Reading(a.read.value, i)))
    && (a.Finish? && a.check == c ==> check.fetched == Some(a.fetched) && check.phase.Answered().Some?)
  }

  /** What the check holds is what its actions said. */
  ghost predicate Faithful(c: nat, check: Check, n: nat, actions: seq<Action>) {
    && (forall i :: 0 <= i < n && i < |actions| ==> Holds(c, check, i, actions[i]))
    && (check.phase.Answered() == Some(Failure) ==> Blamed(c, n, actions))
    && (check.fetched.Some? ==> exists i :: 0 <= i < n && i < |actions| && actions[i].Finish? && actions[i].check == c)
    && (check.phase.Asking? ==> check.reading.None?)
    && (check.phase.Answered().None? ==> check.fetched.None?)
  }

  ghost predicate AllFaithful(checks: map<nat, Check>, n: nat, actions: seq<Action>) {
    && (forall c :: c in checks ==> Faithful(c, checks[c], n, actions))
    && (forall i :: 0 <= i < n && i < |actions| && !actions[i].Tick? ==> actions[i].check in checks)
  }

  /** A step of one check leaves the others alone. */
  lemma OthersSame(capacity: nat, s: State, a: Action, c: nat)
    requires Enabled(s, a) && c in s.checks && !Of(c, a)
    ensures c in Next(capacity, s, a).checks && Next(capacity, s, a).checks[c] == s.checks[c]
  {
    hide Stores, Stored, Judged, Without, Read;
  }

  /** Nobody joins but a check that registers. */
  lemma ChecksOnly(capacity: nat, s: State, a: Action)
    requires Enabled(s, a)
    ensures Next(capacity, s, a).checks.Keys == s.checks.Keys + if a.Tick? then {} else {a.check}
    ensures a.Register? || a.Tick? || a.check in s.checks
  {
    hide Stores, Stored, Judged, Without, Read;
  }

  lemma FaithfulLater(c: nat, check: Check, n: nat, actions: seq<Action>)
    requires Faithful(c, check, n, actions) && n < |actions| && !Of(c, actions[n])
    ensures Faithful(c, check, n + 1, actions)
  {
    if check.phase.Answered() == Some(Failure) {
      var i :| 0 <= i < n && i < |actions| && Fails(c, actions[i]);
      assert 0 <= i < n + 1 && Fails(c, actions[i]);
    }
  }

  lemma NewFaithful(c: nat, check: Check, n: nat, actions: seq<Action>)
    requires n < |actions| && actions[n].Register? && check.phase.Asking? && check.reading.None? && check.fetched.None?
    requires forall i :: 0 <= i < n ==> !Of(c, actions[i])
    ensures Faithful(c, check, n + 1, actions)
  {
  }

  lemma EpochFaithful(c: nat, check: Check, elems: map<nat, Entry>, n: nat, actions: seq<Action>)
    requires Faithful(c, check, n, actions) && check.phase.Asking? && n < |actions| && actions[n].Epoch? && actions[n].check == c
    requires check.snapshot.Some? ==> check.snapshot.value in elems
    ensures Faithful(c, Read(check, elems, actions[n].read, actions[n].ended, n), n + 1, actions)
  {
    hide Settles;
    assert Fails(c, actions[n]) ==> Blamed(c, n + 1, actions);
    forall i | 0 <= i <= n
      ensures Holds(c, Read(check, elems, actions[n].read, actions[n].ended, n), i, actions[i])
    {
      assert i < n ==> Holds(c, check, i, actions[i]);
    }
  }

  /** The check moves on with neither a read nor an answer of its own. */
  lemma MovesFaithful(c: nat, check: Check, phase: Phase, n: nat, actions: seq<Action>)
    requires Faithful(c, check, n, actions) && n < |actions| && (actions[n].Lookup? || actions[n].Cleanup?)
    requires !phase.Asking? && (phase.Looking? || phase.Fetching? ==> check.fetched.None?)
    requires check.phase.Answered().Some? ==> phase.Answered() == check.phase.Answered()
    requires check.phase.Answered().None? ==> phase.Answered() != Some(Failure)
    ensures Faithful(c, check.(phase := phase), n + 1, actions)
  {
    var now := check.(phase := phase);
    forall i | 0 <= i <= n
      ensures Holds(c, now, i, actions[i])
    {
      assert i < n ==> Holds(c, check, i, actions[i]);
    }
    if now.phase.Answered() == Some(Failure) {
      var i :| 0 <= i < n && i < |actions| && Fails(c, actions[i]);
      assert 0 <= i < n + 1 && Fails(c, actions[i]);
    }
  }

  lemma FinishFaithful(c: nat, check: Check, answer: Answer, n: nat, actions: seq<Action>)
    requires Faithful(c, check, n, actions) && check.phase.Fetching? && n < |actions|
    requires actions[n].Finish? && actions[n].check == c && (answer == Failure <==> Fails(c, actions[n]))
    ensures Faithful(c, check.(fetched := Some(actions[n].fetched), phase := Cleaning(answer, false)), n + 1, actions)
  {
    var now := check.(fetched := Some(actions[n].fetched), phase := Cleaning(answer, false));
    forall i | 0 <= i <= n
      ensures Holds(c, now, i, actions[i])
    {
      assert i < n ==> Holds(c, check, i, actions[i]);
    }
  }

  lemma ActorFaithful(capacity: nat, s: State, n: nat, actions: seq<Action>)
    requires Inv(capacity, s, actions) && s.clock == n < |actions| && Enabled(s, actions[n]) && !actions[n].Tick?
    requires AllFaithful(s.checks, n, actions)
    ensures var c := actions[n].check;
            c in Next(capacity, s, actions[n]).checks && Faithful(c, Next(capacity, s, actions[n]).checks[c], n + 1, actions)
  {
    hide Inv, Faithful, Stores, Stored, Without, ToFront, Read;
    var a := actions[n];
    match a
    case Register(c, key, organization) =>
      NewFaithful(c, Check(key, organization, s.clock, Resident(s.entries, key), None, None, Asking), n, actions);
    case Epoch(c, _, _) => EpochFaithful(c, s.checks[c], s.elems, n, actions);
    case Lookup(c) => MovesFaithful(c, s.checks[c], Next(capacity, s, a).checks[c].phase, n, actions) by { LookupPhase(capacity, s, n, actions, c); }
    case Finish(c, fetched, ended, e) =>
      FinishFaithful(c, s.checks[c], if ended then Failure else Judged(fetched, s.checks[c].reading.value.epoch), n, actions);
    case Cleanup(c) => MovesFaithful(c, s.checks[c], Done(s.checks[c].phase.answer), n, actions);
  }

  lemma LookupPhase(capacity: nat, s: State, n: nat, actions: seq<Action>, c: nat)
    requires Enabled(s, Lookup(c)) && Faithful(c, s.checks[c], n, actions)
    ensures var phase := Next(capacity, s, Lookup(c)).checks[c].phase;
            && (phase.Fetching? || (phase.Cleaning? && phase.answer.Allowed?)) && s.checks[c].fetched.None?
  {
    hide Settles, Without, ToFront;
  }

  lemma StepFaithful(capacity: nat, s: State, n: nat, actions: seq<Action>)
    requires Inv(capacity, s, actions) && s.clock == n < |actions| && Enabled(s, actions[n])
    requires AllFaithful(s.checks, n, actions)
    ensures AllFaithful(Next(capacity, s, actions[n]).checks, n + 1, actions)
  {
    hide Inv, Next, Enabled, Faithful;
    var a, t := actions[n], Next(capacity, s, actions[n]);
    ChecksOnly(capacity, s, a);
    if !a.Tick? {
      ActorFaithful(capacity, s, n, actions);
    }
    forall c | c in t.checks ensures Faithful(c, t.checks[c], n + 1, actions) {
      if !Of(c, a) {
        OthersSame(capacity, s, a, c);
        FaithfulLater(c, s.checks[c], n, actions);
      }
    }
  }

  lemma RunFaithful(capacity: nat, trace: seq<State>, actions: seq<Action>, n: nat)
    requires IsRun(capacity, trace, actions) && n < |trace|
    ensures AllFaithful(trace[n].checks, n, actions)
  {
    hide Inv, Next, Enabled, Faithful;
    var i := 0;
    while i < n
      invariant i <= n && AllFaithful(trace[i].checks, i, actions)
    {
      assert StepAt(capacity, trace, actions, i);
      RunInv(capacity, trace, actions, i);
      StepFaithful(capacity, trace[i], i, actions);
      i := i + 1;
    }
  }

  /** Which answer a check gives, on whichever path: it fails exactly if one of
      its own reads failed or a context had ended; it is denied exactly if,
      with none failed, the organisation was missing, the store knew no such
      member, or only one older than the epoch read; and else it is allowed. */
  lemma AnswersAreExact(capacity: nat, trace: seq<State>, actions: seq<Action>, n: nat, c: nat)
    requires IsRun(capacity, trace, actions) && n < |trace| && c in trace[n].checks && trace[n].checks[c].phase.Done?
    ensures var answer := trace[n].checks[c].phase.answer;
            && (answer.Failure? <==> Blamed(c, n, actions))
            && (answer.NotFound? <==> !Blamed(c, n, actions) && Refused(c, n, actions))
  {
    RunFaithful(capacity, trace, actions, n);
    RunInv(capacity, trace, actions, n);
    hide IsRun, StoreInv, LatestInv;
    var check := trace[n].checks[c];
    assert Faithful(c, check, n, actions) && CheckOk(c, check, trace[n].elems, n, actions);
    FailsExactly(c, check, n, actions);
    if check.phase.answer.NotFound? {
      RefusedIf(c, check, trace[n].elems, n, actions);
    }
    if Refused(c, n, actions) && !check.phase.answer.Failure? {
      RefusedOnly(c, check, trace[n].elems, n, actions);
    }
  }

  lemma FailsExactly(c: nat, check: Check, n: nat, actions: seq<Action>)
    requires Faithful(c, check, n, actions) && check.phase.Done?
    ensures check.phase.answer.Failure? <==> Blamed(c, n, actions)
  {
    if Blamed(c, n, actions) {
      var i :| 0 <= i < n && i < |actions| && Fails(c, actions[i]);
      assert Holds(c, check, i, actions[i]);
    }
  }

  lemma RefusedIf(c: nat, check: Check, elems: map<nat, Entry>, n: nat, actions: seq<Action>)
    requires Faithful(c, check, n, actions) && CheckOk(c, check, elems, n, actions)
    requires check.phase.Done? && check.phase.answer.NotFound?
    ensures Refused(c, n, actions)
  {
    var at, epoch := check.reading.value.at, check.reading.value.epoch;
    assert Reads(c, epoch, actions[at]);
    if epoch != 0 {
      var j :| 0 <= j < n && j < |actions| && actions[j].Finish? && actions[j].check == c;
      assert Holds(c, check, j, actions[j]) && Says(c, actions[j].fetched, actions[j]);
    }
  }

  lemma RefusedOnly(c: nat, check: Check, elems: map<nat, Entry>, n: nat, actions: seq<Action>)
    requires Faithful(c, check, n, actions) && CheckOk(c, check, elems, n, actions) && Refused(c, n, actions)
    requires check.phase.Done? && !check.phase.answer.Failure?
    ensures check.phase.answer.NotFound?
  {
    if i :| 0 <= i < n && i < |actions| && Reads(c, 0, actions[i]) {
      assert Holds(c, check, i, actions[i]);
    } else if i :| 0 <= i < n && i < |actions| && Says(c, NotFound, actions[i]) {
      assert Holds(c, check, i, actions[i]);
    } else {
      var i, j, epoch, m: Membership :| 0 <= i < n && i < |actions| && 0 <= j < n && j < |actions|
          && Reads(c, epoch, actions[i]) && Says(c, Allowed(m), actions[j]) && m.epoch < epoch;
      assert Holds(c, check, i, actions[i]) && Holds(c, check, j, actions[j]);
    }
  }

  /** So a member whose store row is as new as the epoch read is allowed when
      nothing fails. */
  lemma CurrentMembersAreAllowed(capacity: nat, trace: seq<State>, actions: seq<Action>, n: nat, c: nat, epoch: nat)
    requires IsRun(capacity, trace, actions) && n < |trace| && c in trace[n].checks && trace[n].checks[c].phase.Done?
    requires !Blamed(c, n, actions) && epoch > 0
    requires forall i :: 0 <= i < n && actions[i].Epoch? && actions[i].check == c ==> actions[i].read == Some(epoch)
    requires forall i :: 0 <= i < n && actions[i].Finish? && actions[i].check == c ==>
               actions[i].fetched.Allowed? && actions[i].fetched.membership.epoch >= epoch
    ensures trace[n].checks[c].phase.answer.Allowed?
  {
    AnswersAreExact(capacity, trace, actions, n, c);
  }
}
