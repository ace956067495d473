module DeliveryDuties {
  /** What an orderly log says a delivery run owes and does: the frames of the
      ephemeral owners, and whatever falls due. */

  import opened Common
  import opened DeliveryLog

  // ----- the owners' answers -----

  ghost predicate IsNews(start: int, log: seq<Entry>, k: nat)
    requires k < |log| && log[k].Told?
  {
    News(Digested(start, log[..k]), log[k].kind, log[k].generation, log[k].named)
  }

  /** Between k and i nothing counts as seen, and no owner answers. */
  ghost predicate Open(log: seq<Entry>, k: nat, i: nat) {
    i <= |log| && forall j :: k < j < i ==> !log[j].Owned? && !log[j].Told?
  }

  /** The frame of the k-th entry's answer is written at f. */
  ghost predicate FrameOf(log: seq<Entry>, k: nat, f: nat)
    requires k < |log| && log[k].Told?
  {
    k < f < |log| && log[f] == Frame(log[k].resets) && Open(log, k, f) && forall j :: k < j < f ==> !log[j].Frame?
  }

  ghost predicate Framed(log: seq<Entry>, k: nat)
    requires k < |log| && log[k].Told?
  {
    exists f :: FrameOf(log, k, f)
  }

  /** The owner's answer at k, as the log has it at the end. */
  ghost function TellingOf(start: int, log: seq<Entry>, k: nat): Telling
    requires k < |log| && log[k].Told?
  {
    Telling(log[k].kind, log[k].generation, IsNews(start, log, k), log[k].resets, Framed(log, k))
  }

  lemma TellStep(d: Digest, e: Entry)
    requires Allowed(d, e)
    ensures var t, u := d.owners.told, Step(d, e).owners.told;
            && (e.Told? ==> t.None? && u == Some(Telling(e.kind, e.generation, News(d, e.kind, e.generation, e.named), e.resets, false)))
            && (e.Frame? ==> t.Some? && t.value.news && !t.value.shown && e.closes == t.value.resets
                             && u == Some(Telling(t.value.kind, t.value.generation, true, e.closes, true)))
            && (e.Owned? ==> t.Some? && e.kind == t.value.kind && e.generation == t.value.generation
                             && (t.value.news ==> t.value.shown) && u.None?)
            && (!e.Told? && !e.Frame? && !e.Owned? ==> u == t)
            && (e.Waiting? ==> t.None?)
  {
  }

  lemma FramedLater(log: seq<Entry>, e: Entry, k: nat)
    requires k < |log| && log[k].Told?
    ensures Framed(log, k) ==> Framed(log + [e], k)
    ensures Open(log, k, |log|) && !Framed(log, k) && e == Frame(log[k].resets) && NoFrame(log, k) ==> Framed(log + [e], k)
    ensures !e.Frame? && Framed(log + [e], k) ==> Framed(log, k)
  {
    var more := log + [e];
    assert forall j :: 0 <= j < |log| ==> more[j] == log[j];
    if f :| FrameOf(log, k, f) {
      assert FrameOf(more, k, f);
    }
    if Open(log, k, |log|) && e == Frame(log[k].resets) && NoFrame(log, k) {
      assert FrameOf(more, k, |log|);
    }
    if !e.Frame? && Framed(more, k) {
      var f :| FrameOf(more, k, f);
      assert FrameOf(log, k, f);
    }
  }

  /** No frame was written since the k-th entry. */
  ghost predicate NoFrame(log: seq<Entry>, k: nat) {
    forall j :: k < j < |log| ==> !log[j].Frame?
  }

  lemma CutLast(log: seq<Entry>, k: nat)
    requires k + 1 < |log|
    ensures var before := log[..|log| - 1];
            log == before + [log[|log| - 1]] && before[k] == log[k] && before[..k] == log[..k]
  {
  }

  /** Until it counts as seen, an answer is what the log is at; after that its
      frame, if it was news, has been written. */
  lemma {:induction false} AnswerKept(start: int, log: seq<Entry>, k: nat)
    requires Orderly(start, log) && k < |log| && log[k].Told?
    ensures if Open(log, k, |log|)
            then Digested(start, log).owners.told == Some(TellingOf(start, log, k)) && (!Framed(log, k) ==> NoFrame(log, k))
            else IsNews(start, log, k) ==> Framed(log, k)
  {
    hide Allowed, Step, Framed, News;
    var before, e := log[..|log| - 1], log[|log| - 1];
    TellStep(Digested(start, before), e);
    if k == |log| - 1 {
      NotFramedYet(log, k);
    } else {
      CutLast(log, k);
      AnswerKept(start, before, k);
      FramedLater(before, e, k);
      assert Open(log, k, |log|) <==> Open(before, k, |before|) && !e.Owned? && !e.Told?;
    }
  }

  lemma NotFramedYet(log: seq<Entry>, k: nat)
    requires k + 1 == |log| && log[k].Told?
    ensures !Framed(log, k) && NoFrame(log, k) && Open(log, k, |log|)
  {
  }

  /** No news is lost: wherever a stream waits, the frame of every owner's
      answer that was news to it has been written, before the generation of
      that answer counted as seen. */
  lemma NoNewsIsLost(start: int, log: seq<Entry>, k: nat)
    requires Orderly(start, log) && k < |log| && log[k].Told? && log[|log| - 1].Waiting? && IsNews(start, log, k)
    ensures Framed(log, k)
  {
    hide Allowed, Step, Framed, News;
    AnswerKept(start, log, k);
    TellStep(Digested(start, log[..|log| - 1]), log[|log| - 1]);
  }

  /** The same where a generation comes to count as seen. */
  lemma SeenAfterItsFrame(start: int, log: seq<Entry>, k: nat)
    requires Orderly(start, log) && k < |log| && log[k].Told? && log[|log| - 1].Owned? && Open(log, k, |log| - 1) && IsNews(start, log, k)
    ensures log[|log| - 1] == Owned(log[k].kind, log[k].generation) && Framed(log, k)
  {
    hide Allowed, Step, Framed, News;
    var before, e := log[..|log| - 1], log[|log| - 1];
    CutLast(log, k);
    assert Open(before, k, |before|) && (IsNews(start, before, k) <==> IsNews(start, log, k));
    AnswerKept(start, before, k);
    TellStep(Digested(start, before), e);
    FramedLater(before, e, k);
  }

  /** And no frame is written without news: each is that of one answer, and no
      answer has two. */
  lemma {:induction false} FramesAreNews(start: int, log: seq<Entry>, f: nat) returns (k: nat)
    requires Orderly(start, log) && f < |log| && log[f].Frame?
    ensures k < f && log[k].Told? && IsNews(start, log, k) && FrameOf(log, k, f)
  {
    hide Allowed, Step, News;
    var prefix := log[..f];
    PrefixOrderly(start, log, f + 1);
    assert log[..f + 1][..f] == prefix;
    TellStep(Digested(start, prefix), log[f]);
    k := LastAnswer(start, prefix);
    AnswerKept(start, prefix, k);
    assert prefix[..k] == log[..k];
    assert forall j :: k < j < f ==> prefix[j] == log[j];
  }

  /** The answer that the log is at. */
  lemma {:induction false} LastAnswer(start: int, log: seq<Entry>) returns (k: nat)
    requires Orderly(start, log) && Digested(start, log).owners.told.Some?
    ensures k < |log| && log[k].Told? && Open(log, k, |log|)
  {
    hide Allowed, Step;
    assert log != [] by { StartsUntold(start); }
    var before, e := log[..|log| - 1], log[|log| - 1];
    TellStep(Digested(start, before), e);
    if e.Told? {
      k := |log| - 1;
    } else {
      k := LastAnswer(start, before);
    }
  }

  lemma StartsUntold(start: int)
    ensures Digested(start, []).owners.told.None?
  {
  }

  // ----- on connecting -----

  lemma OwnerStep(d: Digest, e: Entry)
    ensures var o, u := d.owners, Step(d, e).owners;
            && (if e.Wants? then u.wanted == o.wanted + {e.kind} else u.wanted == o.wanted)
            && (if e.Told? then u.asked == o.asked + {e.kind} else u.asked == o.asked)
  {
  }

  ghost predicate Asked(log: seq<Entry>, kind: Kind) {
    exists t :: 0 <= t < |log| && log[t].Told? && log[t].kind == kind
  }

  lemma OwnerEntries(log: seq<Entry>, e: Entry, kind: Kind)
    ensures Wants(kind) in log + [e] <==> Wants(kind) in log || e == Wants(kind)
    ensures Asked(log + [e], kind) <==> Asked(log, kind) || (e.Told? && e.kind == kind)
  {
    var more := log + [e];
    assert more[|log|] == e;
    if t :| 0 <= t < |log| && log[t].Told? && log[t].kind == kind {
      assert more[t] == log[t];
    }
    if Asked(more, kind) && !Asked(log, kind) {
      var t :| 0 <= t < |more| && more[t].Told? && more[t].kind == kind;
      assert t < |log| ==> log[t] == more[t];
    }
  }

  lemma {:induction false} AskedInLog(start: int, log: seq<Entry>, kind: Kind)
    requires Orderly(start, log)
    ensures kind in Digested(start, log).owners.wanted <==> Wants(kind) in log
    ensures kind in Digested(start, log).owners.asked <==> Asked(log, kind)
  {
    hide Step, Allowed, Asked;
    if log == [] {
      NobodyAsked(start, kind);
    } else {
      var before, e := log[..|log| - 1], log[|log| - 1];
      AskedInLog(start, before, kind);
      OwnerStep(Digested(start, before), e);
      OwnerEntries(before, e, kind);
      assert log == before + [e];
    }
  }

  lemma NobodyAsked(start: int, kind: Kind)
    ensures !Asked([], kind) && Start(start).owners.asked == {} == Start(start).owners.wanted
  {
  }

  /** What a stream wants on connecting is read from its owner before it first
      waits, and that first answer is news if it has a frame meant for here. */
  lemma StateOnConnecting(start: int, log: seq<Entry>, kind: Kind) returns (t: nat)
    requires Orderly(start, log) && log != [] && log[|log| - 1].Waiting? && Wants(kind) in log
    ensures t < |log| && log[t].Told? && log[t].kind == kind
    ensures log[t].named ==> IsNews(start, log, t) && Framed(log, t)
  {
    var d := Digested(start, log[..|log| - 1]);
    assert d.owners.wanted <= d.owners.asked;
    OwnerStep(d, log[|log| - 1]);
    AskedInLog(start, log, kind);
    hide Allowed, Step, Orderly, Framed;
    t := FirstAnswer(start, log, kind);
    if log[t].named {
      NoNewsIsLost(start, log, t);
    }
  }

  lemma {:induction false} FirstAnswer(start: int, log: seq<Entry>, kind: Kind) returns (t: nat)
    requires Orderly(start, log) && Asked(log, kind)
    ensures t < |log| && log[t].Told? && log[t].kind == kind && kind !in Digested(start, log[..t]).owners.asked
  {
    var before := log[..|log| - 1];
    AskedInLog(start, before, kind);
    if kind in Digested(start, before).owners.asked {
      t := FirstAnswer(start, before, kind);
      assert before[..t] == log[..t];
    } else {
      t := |log| - 1;
      assert forall i :: 0 <= i < |before| ==> before[i] == log[i];
    }
  }

  // ----- what falls due -----

  /** The entry does what was due, or finds there is no room for it. */
  predicate Discharges(duty: Duty, e: Entry) {
    match duty
    case Beat => e.Comment? || e.Checkpoint?
    case Recount => e.Recounted? || e.Deferred?
    case Refresh => e.Renewed?
  }

  ghost predicate DoneSince(duty: Duty, log: seq<Entry>, k: nat) {
    exists b :: k < b < |log| && Discharges(duty, log[b])
  }

  lemma DutyStep(d: Digest, e: Entry, duty: Duty)
    requires Allowed(d, e)
    ensures var u := Step(d, e).duties;
            && (e.Due? && e.duty == duty ==> duty in u.due)
            && (duty in d.duties.due && duty !in u.due ==> Discharges(duty, e))
            && (e.Waiting? || e.Read? ==> u.due == {})
  {
  }

  lemma {:induction false} DutyKept(start: int, log: seq<Entry>, k: nat)
    requires Orderly(start, log) && k < |log| && log[k].Due?
    ensures log[k].duty in Digested(start, log).duties.due || DoneSince(log[k].duty, log, k)
  {
    hide Allowed, Step, Discharges;
    var before, e := log[..|log| - 1], log[|log| - 1];
    DutyStep(Digested(start, before), e, log[k].duty);
    if k < |before| {
      assert log == before + [e] && before[k] == log[k];
      DutyKept(start, before, k);
      if b :| k < b < |before| && Discharges(log[k].duty, before[b]) {
        assert Discharges(log[k].duty, log[b]);
      }
    }
  }

  /** What falls due is done before the stream waits again or reads on: a
      heartbeat or checkpoint is written, the counts, the channel's state. Only
      a recount may be deferred instead, for want of room. */
  lemma DutiesAreDone(start: int, log: seq<Entry>, k: nat)
    requires Orderly(start, log) && k < |log| && log[k].Due? && (log[|log| - 1].Waiting? || log[|log| - 1].Read?)
    ensures DoneSince(log[k].duty, log, k)
  {
    hide Allowed, Step, DoneSince;
    DutyKept(start, log, k);
    DutyStep(Digested(start, log[..|log| - 1]), log[|log| - 1], log[k].duty);
  }

  /** It was too early, or there was no room. */
  predicate PutsOff(duty: Duty, e: Entry) {
    (e.Early? && e.duty == duty) || (e.Deferred? && duty == Recount)
  }

  /** Since the stream last read, or came back from a wait. */
  ghost predicate PutOff(duty: Duty, log: seq<Entry>) {
    exists k :: 0 <= k < |log| && PutsOff(duty, log[k]) && forall j :: k < j < |log| ==> !log[j].Read? && !log[j].Woke? && !log[j].Expired?
  }

  lemma EarlyStep(d: Digest, e: Entry, duty: Duty)
    ensures duty in Step(d, e).duties.early ==>
              PutsOff(duty, e) || (duty in d.duties.early && !e.Read? && !e.Woke? && !e.Expired?)
  {
  }

  lemma PutOffLater(duty: Duty, log: seq<Entry>, e: Entry)
    ensures PutsOff(duty, e) ==> PutOff(duty, log + [e])
    ensures PutOff(duty, log) && !e.Read? && !e.Woke? && !e.Expired? ==> PutOff(duty, log + [e])
  {
    hide PutsOff;
    var more := log + [e];
    assert more[|log|] == e;
    if PutOff(duty, log) && !e.Read? && !e.Woke? && !e.Expired? {
      var k :| 0 <= k < |log| && PutsOff(duty, log[k]) && forall j :: k < j < |log| ==> !log[j].Read? && !log[j].Woke? && !log[j].Expired?;
      assert PutsOff(duty, more[k]);
    }
  }

  lemma {:induction false} EarlyInLog(start: int, log: seq<Entry>, duty: Duty)
    requires Orderly(start, log) && duty in Digested(start, log).duties.early
    ensures PutOff(duty, log)
  {
    if log != [] {
      hide Allowed, Step, PutsOff, PutOff;
      var before, e := log[..|log| - 1], log[|log| - 1];
      assert log == before + [e];
      EarlyStep(Digested(start, before), e, duty);
      PutOffLater(duty, before, e);
      if !PutsOff(duty, e) {
        EarlyInLog(start, before, duty);
      }
    }
  }

  /** And nothing is put off but what has just turned out too early, or found
      no room: a wait that leaves a recount or a refresh for later was told so
      since the stream last read or came back. */
  lemma OnlyEarlyIsPutOff(start: int, log: seq<Entry>)
    requires Orderly(start, log) && log != [] && log[|log| - 1].Waiting?
    ensures log[|log| - 1].recountDue ==> PutOff(Recount, log)
    ensures log[|log| - 1].refreshDue ==> PutOff(Refresh, log)
  {
    var before := log[..|log| - 1];
    assert Digested(start, log).duties.early == Digested(start, before).duties.early;
    if log[|log| - 1].recountDue {
      EarlyInLog(start, log, Recount);
    }
    if log[|log| - 1].refreshDue {
      EarlyInLog(start, log, Refresh);
    }
  }
}
