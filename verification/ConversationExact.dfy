module ConversationExact {
  /** What a conversation's database holds, told by the operations that changed
      it: who pinned a message last, which resolution a topic's conclusion is,
      which branch or post put a message where it is, what every change
      announced, and that every refusal has its cause. */

  import opened Common
  import opened ConversationStore
  import opened Conversation
  import opened ConversationHistory
  import ChatText
  import T = ConversationText
  import opened ConversationSteps

  /** In every history a message is pinned exactly if the last change of its pin
      pinned it, and by who did; and a confirmed request leaves it as asked. */
  lemma {:induction false} PinnedExactly(env: Env, trace: seq<World>, ops: seq<Op>, answers: seq<Answer>, n: nat, id: nat)
    requires IsRun(env, trace, ops, answers) && n < |trace|
    ensures id in trace[n].db.pins <==> exists i: nat :: LastPins(trace, ops, n, id, i) && ops[i].pin
    ensures forall i: nat :: LastPins(trace, ops, n, id, i) && ops[i].pin ==> id in trace[n].db.pins && trace[n].db.pins[id] == ops[i].member
  {
    hide Step, Enabled, Timely, Changes, LastPins;
    if n == 0 {
      forall i: nat ensures !LastPins(trace, ops, 0, id, i) {
        NoPins(trace, ops, id, i);
      }
    } else {
      ghost var m: nat := n - 1;
      PinnedExactly(env, trace, ops, answers, m, id);
      assert StepAt(env, trace, ops, answers, m);
      PinsStep(env, trace[m], ops[m], answers[m], trace[n]);
      assert Changes(trace, m) <==> trace[n].db != trace[m].db by { ChangesIs(trace, m); }
      forall i: nat ensures LastPins(trace, ops, n, id, i) <==>
        if PinsOf(ops[m], id) && Changes(trace, m) then i == m else LastPins(trace, ops, m, id, i)
      {
        PinsNext(trace, ops, m, id, i);
      }
      PinsAt(trace, ops, m, id);
    }
  }

  /** A topic's conclusion is the message of the last resolution that changed it,
      unless a branch has moved that message away since; a confirmed request
      leaves it as asked. */
  lemma {:induction false} ConcludedExactly(env: Env, trace: seq<World>, ops: seq<Op>, answers: seq<Answer>, n: nat, t: nat, c: nat)
    requires IsRun(env, trace, ops, answers) && n < |trace| && t in trace[n].db.topics && c != 0
    ensures trace[n].db.topics[t].conclusion == c <==> exists i: nat :: LastConcludes(trace, ops, n, t, c, i)
  {
    hide Inv, Step, Enabled, Timely, Changes, LastConcludes, Reconcludes, Concluded, Takes;
    if n > 0 {
      ghost var m: nat := n - 1;
      RunInv(env, trace, ops, answers, m);
      assert StepAt(env, trace, ops, answers, m);
      ConclusionStep(env, trace[m], ops[m], answers[m], trace[n], t);
      forall i: nat ensures LastConcludes(trace, ops, n, t, c, i) <==>
        || (i == m && ResolvesOf(ops[m], t) && Asked(ops[m].conclusion) == c && Changes(trace, m))
        || (LastConcludes(trace, ops, m, t, c, i) && !Reconcludes(trace, ops, m, t, c))
      {
        ConcludesNext(trace, ops, m, t, c, i);
      }
      if t in trace[m].db.topics {
        ConcludedExactly(env, trace, ops, answers, m, t, c);
        ConclusionNow(trace, ops, m, t, c);
        ghost var last := LastConcludes(trace, ops, n, t, c, m);
        if trace[m].db.topics[t].conclusion == c {
          var i: nat :| LastConcludes(trace, ops, m, t, c, i);
          assert LastConcludes(trace, ops, n, t, c, i) <==> !Reconcludes(trace, ops, m, t, c) || (i == m && last);
        }
      } else {
        NewTopic(env, trace, ops, answers, n, t, c);
      }
    } else {
      NoConclusions(trace, ops, t, c);
    }
  }

  /** A message is there exactly once it was posted, and it is in the topic where
      the last step about it put it: its post, or the last branch that moved it. */
  lemma {:induction false} PlacedExactly(env: Env, trace: seq<World>, ops: seq<Op>, answers: seq<Answer>, n: nat, id: nat)
    requires IsRun(env, trace, ops, answers) && n < |trace|
    ensures id in trace[n].db.messages <==> exists i: nat :: LastPuts(trace, ops, n, id, i)
    ensures forall i: nat :: LastPuts(trace, ops, n, id, i) ==>
              i < n && id in trace[n].db.messages && Puts(trace[i].db, ops[i], id, trace[n].db.messages[id].topic)
  {
    hide Inv, Step, Enabled, Timely, Changes, LastPuts, About, Puts;
    if n == 0 {
      forall i: nat ensures !LastPuts(trace, ops, 0, id, i) {
        NoPuts(trace, ops, id, i);
      }
    } else {
      ghost var m: nat := n - 1;
      PlacedExactly(env, trace, ops, answers, m, id);
      RunInv(env, trace, ops, answers, m);
      assert StepAt(env, trace, ops, answers, m);
      PlaceStep(env, trace[m], ops[m], answers[m], trace[n], id);
      assert Changes(trace, m) <==> trace[n].db != trace[m].db by { ChangesIs(trace, m); }
      forall i: nat ensures LastPuts(trace, ops, n, id, i) <==>
        if About(ops[m], id) && Changes(trace, m) then i == m else LastPuts(trace, ops, m, id, i)
      {
        PutsNext(trace, ops, m, id, i);
      }
      if id in trace[m].db.messages {
        var i: nat :| LastPuts(trace, ops, m, id, i);
        assert LastPuts(trace, ops, n, id, if About(ops[m], id) && Changes(trace, m) then m else i);
      } else if About(ops[m], id) && Changes(trace, m) {
        assert LastPuts(trace, ops, n, id, m);
      }
    }
  }

  /** Every change announces what it did and nothing else, at the next sequences. */
  lemma AnnouncedExactly(env: Env, trace: seq<World>, ops: seq<Op>, answers: seq<Answer>, i: nat)
    requires IsRun(env, trace, ops, answers) && i < |ops|
    ensures if Changes(trace, i) then Follows(trace[i].db.log, trace[i + 1].db.log, |trace[i].db.log|, Events(trace[i].db, trace[i + 1].db, ops[i]))
            else trace[i + 1].db.log == trace[i].db.log
  {
    hide Inv, Enabled, Timely, OutcomeOf, HandleTakenBy, Follows, Events;
    RunInv(env, trace, ops, answers, i);
    LogIs(trace[i].db, env.lower);
    assert StepAt(env, trace, ops, answers, i);
    if Changes(trace, i) {
      OutcomeEvents(env, trace[i].db, ops[i]);
    }
  }

  /** A post that changed the database stored what was sent. */
  lemma PostsAreStored(env: Env, trace: seq<World>, ops: seq<Op>, answers: seq<Answer>, i: nat,
                       channel: nat, member: nat, r: Request, draft: Draft, id: nat)
    requires IsRun(env, trace, ops, answers) && i < |ops| && ops[i] == Insert(channel, member, r, draft, id) && Changes(trace, i)
    ensures Stored(env, trace[i].db, trace[i + 1].db, channel, member, r, draft, id)
  {
    hide Inv, Timely, InsertOutcome, HandleTakenBy, Stored;
    RunInv(env, trace, ops, answers, i);
    LogIs(trace[i].db, env.lower);
    assert StepAt(env, trace, ops, answers, i);
    InsertStores(env, trace[i].db, channel, member, r, draft, id);
  }

  /** A refusal has the cause it names, changes nothing, and comes whenever there
      is a cause: a confirmed request had none. */
  lemma RefusedForACause(env: Env, trace: seq<World>, ops: seq<Op>, answers: seq<Answer>, i: nat)
    requires IsRun(env, trace, ops, answers) && i < |ops| && !ops[i].SetHandle? && !ops[i].Repeat?
    ensures answers[i].Refused? ==> Because(env, trace[i].db, ops[i], answers[i].error) && trace[i + 1] == trace[i]
    ensures answers[i].Done? || Changes(trace, i) ==> forall e :: !Because(env, trace[i].db, ops[i], e)
    ensures answers[i].KeyTaken? ==>
              ops[i].Insert? && ops[i].request.key.Some? && (ops[i].member, ops[i].request.key.value) in trace[i].db.keys && trace[i + 1] == trace[i]
  {
    hide Inv, Enabled, Timely, OutcomeOf, HandleTakenBy, Because;
    RunInv(env, trace, ops, answers, i);
    assert StepAt(env, trace, ops, answers, i);
    OutcomeRefusals(env, trace[i].db, ops[i]);
    if answers[i].KeyTaken? {
      KeyTakenOnlyBy(env, trace[i].db, ops[i]);
    }
  }
}
