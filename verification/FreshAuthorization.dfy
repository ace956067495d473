module FreshAuthorization {
  /** The authorizer on top of the shared epoch reads: what a stream check
      proves about the moment it began, and what MayReceive makes of it
      (internal/org/authorizer.go). */

  import opened Common
  import RC = RealtimeCache
  import RCR = RealtimeCacheRuns
  import SA = StreamAuthorizer
  import SAR = StreamAuthorizerRuns
  import SAA = StreamAuthorizerAnswers

  /** The access epoch of an organisation over time, 0 when it is missing. The
      installation-wide sequence only hands out greater epochs. */
  ghost predicate Ordered(epochAt: (nat, nat) -> nat) {
    forall o, t, u :: t <= u && epochAt(o, t) != 0 && epochAt(o, u) != 0 ==> epochAt(o, t) <= epochAt(o, u)
  }

  /** The cache of epoch reads keeps nothing. */
  function EpochReads(): (cfg: RC.Config<nat, nat>)
    ensures cfg.Valid()
  {
    RC.Config(1, 16, false, (organization: nat, epoch: nat) => false)
  }

  /** A read of the epoch cache by check c, as it is delivered at step i. */
  ghost predicate Delivered(check: SA.Check, c: nat, value: nat, gets: map<nat, RC.Getter<nat, nat>>) {
    && c in gets && gets[c].key == check.organization && gets[c].start > check.start
    && gets[c].phase.Returned? && gets[c].phase.result.Value?
    && gets[c].phase.result.loaded.value == value
  }

  /** The authorizer and its epoch cache running side by side, one clock for
      both: a step moves one of them while the other ticks. */
  datatype Joint = Joint(
    cache: seq<RC.State<nat, nat>>, cacheActions: seq<RC.Action<nat, nat>>,
    checks: seq<SA.State>, checkActions: seq<SA.Action>)
  {
    ghost predicate IsRun(capacity: nat, epochAt: (nat, nat) -> nat) {
      && RCR.IsRun(EpochReads(), cache, cacheActions)
      && SAR.IsRun(capacity, checks, checkActions)
      && |cacheActions| == |checkActions|
      && (forall i :: 0 <= i < |checkActions| ==> Linked(i))
      && (forall j :: 0 <= j < |cacheActions| ==> ReadsEpoch(epochAt, j))
    }

    /** An epoch a check gets is what its own Get, begun after it registered, returned. */
    ghost predicate Linked(i: nat)
      requires i < |checkActions| < |checks| && i < |cache|
    {
      checkActions[i].Epoch? && checkActions[i].read.Some? ==>
        && checkActions[i].check in checks[i].checks
        && Delivered(checks[i].checks[checkActions[i].check], checkActions[i].check, checkActions[i].read.value, cache[i].gets)
    }

    /** A loader run reads the organisation's epoch at some moment while it runs. */
    ghost predicate ReadsEpoch(epochAt: (nat, nat) -> nat, j: nat)
      requires j < |cacheActions| < |cache|
    {
      cacheActions[j].LoaderReturns? && cacheActions[j].output.Some? && cacheActions[j].run in cache[j].runs ==>
        var run := cache[j].runs[cacheActions[j].run];
        exists t :: run.began <= t <= j && epochAt(run.key, t) == cacheActions[j].output.value
    }
  }

  /** The epoch a Get of the epoch cache returns was the organisation's epoch
      at a moment after that Get began. */
  lemma EpochReadIsFresh(j: Joint, capacity: nat, epochAt: (nat, nat) -> nat, n: nat, g: nat) returns (t: nat)
    requires j.IsRun(capacity, epochAt) && n < |j.cache|
    requires g in j.cache[n].gets && j.cache[n].gets[g].phase.Returned? && j.cache[n].gets[g].phase.result.Value?
    ensures var get := j.cache[n].gets[g];
            get.start < t && epochAt(get.key, t) == get.phase.result.loaded.value
  {
    RCR.Freshness(EpochReads(), j.cache, j.cacheActions, n, g);
    RCR.LoadedRun(EpochReads(), j.cache, j.cacheActions, n, g);
    var l := j.cache[n].gets[g].phase.result.loaded;
    hide RCR.IsRun, SAR.IsRun;
    assert j.ReadsEpoch(epochAt, l.ended);
    t :| j.cache[l.ended].runs[l.run].began <= t <= l.ended
         && epochAt(j.cache[l.ended].runs[l.run].key, t) == l.value;
  }

  /** A check keeps its key, organisation and start. */
  lemma CheckLasts(capacity: nat, trace: seq<SA.State>, actions: seq<SA.Action>, m: nat, n: nat, c: nat)
    requires SAR.IsRun(capacity, trace, actions) && m <= n < |trace| && c in trace[m].checks
    ensures c in trace[n].checks
    ensures trace[n].checks[c].key == trace[m].checks[c].key
    ensures trace[n].checks[c].organization == trace[m].checks[c].organization
    ensures trace[n].checks[c].start == trace[m].checks[c].start
  {
    hide SA.Next, SA.Enabled;
    var i := m;
    while i < n
      invariant m <= i <= n && c in trace[i].checks
      invariant trace[i].checks[c].key == trace[m].checks[c].key
      invariant trace[i].checks[c].organization == trace[m].checks[c].organization
      invariant trace[i].checks[c].start == trace[m].checks[c].start
    {
      assert SAR.StepAt(capacity, trace, actions, i);
      SAR.ChecksLast(capacity, trace[i], actions[i]);
      i := i + 1;
    }
  }

  /** Every membership a stream check yields, on whichever path, was given by
      the store for that check's account and slug, and is at least as new as
      the organisation's epoch was when the check began. */
  lemma ChecksAreFresh(j: Joint, capacity: nat, epochAt: (nat, nat) -> nat, n: nat, c: nat)
    requires j.IsRun(capacity, epochAt) && Ordered(epochAt) && n < |j.checks|
    requires c in j.checks[n].checks && j.checks[n].checks[c].phase.Done?
    requires j.checks[n].checks[c].phase.answer.Allowed?
    ensures var check := j.checks[n].checks[c];
            && check.phase.answer.membership.epoch >= epochAt(check.organization, check.start)
            && SAR.FetchedFor(check.key, check.phase.answer.membership, n, j.checks, j.checkActions)
  {
    SAR.AnswersAreFetched(capacity, j.checks, j.checkActions, n, c);
    SAR.AnswersFollowTheirRead(capacity, j.checks, j.checkActions, n, c);
    var check := j.checks[n].checks[c];
    var i := check.reading.value.at;
    hide RCR.IsRun, SAR.IsRun;
    assert j.Linked(i);
    CheckLasts(capacity, j.checks, j.checkActions, i, n, c);
    var t := EpochReadIsFresh(j, capacity, epochAt, i, c);
  }

  datatype Verdict = Receive | Deny | Stop

  /** MayReceive: a lost membership, another organisation or another
      member's audience is a deny; a failed lookup stops the stream. */
  function MayReceive(answer: SA.Answer, organization: nat, audience: Option<nat>): Verdict {
    match answer
    case NotFound => Deny
    case Failure => Stop
    case Allowed(m) =>
      if m.organization != organization then Deny
      else if audience.Some? && audience.value != m.member then Deny
      else Receive
  }

  /** An event is sent only to a member of its own organisation, found by the
      store under the stream's account and slug, whose membership is at least
      as new as the organisation's epoch at the moment the check for that
      event began, and only if it is meant for them. */
  lemma OnlyCurrentMembersReceive(j: Joint, capacity: nat, epochAt: (nat, nat) -> nat, n: nat, c: nat, audience: Option<nat>)
    requires j.IsRun(capacity, epochAt) && Ordered(epochAt) && n < |j.checks|
    requires c in j.checks[n].checks && j.checks[n].checks[c].phase.Done?
    requires MayReceive(j.checks[n].checks[c].phase.answer, j.checks[n].checks[c].organization, audience).Receive?
    ensures var check := j.checks[n].checks[c];
            && check.phase.answer.Allowed?
            && var m := check.phase.answer.membership;
               && SAR.FetchedFor(check.key, m, n, j.checks, j.checkActions)
               && m.organization == check.organization && m.epoch >= epochAt(check.organization, check.start)
               && (audience.Some? ==> audience.value == m.member)
  {
    ChecksAreFresh(j, capacity, epochAt, n, c);
  }

  /** What a stream is told of an event: to stop exactly if a read failed or a
      context had ended, never for a lost membership; and to send it exactly if
      nothing failed, the check was not refused, and the membership it found is
      the event's organisation's and of whom the event is meant for. */
  lemma VerdictsAreExact(capacity: nat, trace: seq<SA.State>, actions: seq<SA.Action>, n: nat, c: nat, organization: nat, audience: Option<nat>)
    requires SAR.IsRun(capacity, trace, actions) && n < |trace| && c in trace[n].checks && trace[n].checks[c].phase.Done?
    ensures var answer := trace[n].checks[c].phase.answer;
            var verdict := MayReceive(answer, organization, audience);
            && (verdict.Stop? <==> SAA.Blamed(c, n, actions))
            && (verdict.Receive? <==>
                  && !SAA.Blamed(c, n, actions) && !SAA.Refused(c, n, actions) && answer.Allowed?
                  && answer.membership.organization == organization && audience in {None, Some(answer.membership.member)})
  {
    hide SAR.IsRun, SAA.Blamed, SAA.Refused;
    SAA.AnswersAreExact(capacity, trace, actions, n, c);
  }
}
