/** Presence one step at a time, seen from a member and from the actions: whose
    streams and timers there are, what is announced and what is listed.
    PresenceExact states what comes of it. */
module PresenceSteps {
  import opened Common
  import opened Presence
  import opened PresenceRuns

  // ----- what the actions say -----

  predicate OpensOf(a: Action, member: nat) {
    a.Open? && a.member == member
  }

  /** The stream was accepted for the member and its cleanup has not run by n. */
  ghost predicate IsOpen(actions: seq<Action>, n: nat, member: nat, stream: nat)
    requires n <= |actions|
  {
    exists i :: 0 <= i < n && OpensOf(actions[i], member) && actions[i].stream == stream && NoClose(actions, i, n, stream)
  }

  ghost predicate NoClose(actions: seq<Action>, i: nat, n: nat, stream: nat)
    requires n <= |actions|
  {
    forall k :: i < k < n ==> !(actions[k].Close? && actions[k].stream == stream)
  }

  ghost predicate NoneOpen(actions: seq<Action>, n: nat, member: nat)
    requires n <= |actions|
  {
    forall stream :: !IsOpen(actions, n, member, stream)
  }

  /** The member's last open stream closes, which starts the timer. */
  ghost predicate LastClose(actions: seq<Action>, j: nat, member: nat, t: nat)
    requires j < |actions|
  {
    && actions[j].Close? && actions[j].timer == t && IsOpen(actions, j, member, actions[j].stream)
    && NoneOpen(actions, j + 1, member)
  }

  /** Since step j the member has opened nothing and the timer has not fired. */
  ghost predicate Undisturbed(actions: seq<Action>, j: nat, n: nat, member: nat, t: nat)
    requires n <= |actions|
  {
    forall k :: j < k < n ==> !OpensOf(actions[k], member) && !(actions[k].Fire? && actions[k].timer == t)
  }

  /** The grace timer runs: the last close was not followed by an open. */
  ghost predicate GraceRuns(actions: seq<Action>, n: nat, member: nat, t: nat)
    requires n <= |actions|
  {
    exists j :: 0 <= j < n && LastClose(actions, j, member, t) && Undisturbed(actions, j, n, member, t)
  }

  /** The grace period runs out. */
  ghost predicate GoesOffline(actions: seq<Action>, k: nat, member: nat)
    requires k < |actions|
  {
    actions[k].Fire? && GraceRuns(actions, k, member, actions[k].timer)
  }

  /** The retention runs: the member went offline and has opened nothing since. */
  ghost predicate RetentionRuns(actions: seq<Action>, n: nat, member: nat, t: nat)
    requires n <= |actions|
  {
    exists j :: 0 <= j < n && GoesOffline(actions, j, member) && actions[j].next == t && Undisturbed(actions, j, n, member, t)
  }

  /** The offline change is no longer retained. */
  ghost predicate Discards(actions: seq<Action>, k: nat, member: nat)
    requires k < |actions|
  {
    actions[k].Fire? && RetentionRuns(actions, k, member, actions[k].timer)
  }

  // ----- what the state says -----

  ghost predicate Has(s: State, member: nat, o: nat) {
    o in s.opens && !s.opens[o].closed && s.opens[o].record in s.records && s.records[s.opens[o].record].member == member
  }

  ghost predicate Runs(s: State, member: nat, t: nat, kind: Kind) {
    && member in s.members && s.members[member] in s.records && s.records[s.members[member]].timer == Some(t)
    && t in s.timers && !s.timers[t].fired && s.timers[t].kind == kind
  }

  // ----- facts of one state -----

  /** An open stream's record is its member's. */
  lemma LiveRecord(s: State, member: nat, o: nat)
    requires Inv(s) && Has(s, member, o)
    ensures member in s.members && s.members[member] == s.opens[o].record && s.records[s.opens[o].record].timer.None?
  {
    hide OrderInv, LogInv;
    var r := s.opens[o].record;
    assert o in OpenOn(s.opens, r);
    assert RecordOk(r, s.records[r], s.timers, s.members);
  }

  /** The record of a running timer is its member's, without a stream. */
  lemma TimersRecord(s: State, member: nat, t: nat, kind: Kind)
    requires Inv(s) && Runs(s, member, t, kind)
    ensures var r := s.members[member];
            s.timers[t].record == r && s.records[r].member == member && s.records[r].streams == 0
            && (s.records[r].online <==> kind.Grace?)
    ensures forall o :: !Has(s, member, o)
  {
    hide OrderInv, LogInv;
    var r := s.members[member];
    assert RecordOk(r, s.records[r], s.timers, s.members);
    forall o ensures !Has(s, member, o) {
      if Has(s, member, o) {
        LiveRecord(s, member, o);
      }
    }
  }

  /** A timer that is its record's current one runs for the record's member. */
  lemma CurrentRuns(s: State, t: nat)
    requires Inv(s) && t in s.timers && !s.timers[t].fired && s.timers[t].record in s.records
    requires s.records[s.timers[t].record].timer == Some(t)
    ensures Runs(s, s.records[s.timers[t].record].member, t, s.timers[t].kind)
    ensures s.members[s.records[s.timers[t].record].member] == s.timers[t].record
  {
    hide OrderInv, LogInv;
    var r := s.timers[t].record;
    assert RecordOk(r, s.records[r], s.timers, s.members);
  }

  lemma KnownRecord(s: State, member: nat)
    requires Inv(s) && member in s.members
    ensures var r := s.members[member];
            && r in s.records && s.records[r].member == member && RecordOk(r, s.records[r], s.timers, s.members)
            && s.records[r].generation == LastChange(s.log, member) > 0
    ensures forall k :: k in s.members && s.members[k] == s.members[member] ==> k == member
  {
    hide OrderInv, RefsInv;
    assert Remembered(member, s.log, s.boundary, s.members, s.records);
  }

  // ----- one step, seen from a member -----

  lemma OpenStep(s: State, a: Action, member: nat)
    requires Inv(s) && Enabled(s, a) && a.Open?
    ensures forall o :: Has(Next(s, a), member, o) <==> Has(s, member, o) || (a.member == member && a.stream == o)
    ensures forall t, kind :: Runs(Next(s, a), member, t, kind) <==> Runs(s, member, t, kind) && a.member != member
    ensures Online(Next(s, a), member) <==> Online(s, member) || a.member == member
  {
    hide OrderInv, LogInv, RecordsInv, RefsInv, AfterOpen, RecordOk;
    if a.member in s.members {
      KnownRecord(s, a.member);
    }
    OpenShape(s, a.member, a.stream, a.record);
    OpensAreRecorded(s);
    var r := Member(s, a.member, a.record);
    assert a.member != member && member in s.members ==> s.members[member] != r;
  }

  lemma OpensAreRecorded(s: State)
    requires RefsInv(s.records, s.timers, s.opens)
    ensures forall o :: o in s.opens ==> s.opens[o].record in s.records
    ensures forall t :: t in s.timers ==> s.timers[t].record in s.records
  {
    hide OpenOn;
  }

  lemma SizeOne(on: set<nat>, x: nat)
    requires x in on
    ensures |on| == 1 <==> forall o :: o in on ==> o == x
  {
    assert on == {x} + (on - {x});
    assert |on| == 1 + |on - {x}|;
    if |on| == 1 {
      assert on - {x} == {};
    }
    if o :| o in on - {x} {
      assert on - {x} != {};
    } else {
      assert on - {x} == {};
    }
  }

  /** The streams left on a record are those of its member. */
  lemma StreamsLeft(s: State, member: nat, stream: nat)
    requires Inv(s) && Has(s, member, stream)
    ensures s.records[s.opens[stream].record].streams > 0
    ensures s.records[s.opens[stream].record].streams == 1 <==> forall o :: Has(s, member, o) ==> o == stream
  {
    hide Inv;
    var r := s.opens[stream].record;
    forall o ensures Has(s, member, o) <==> o in OpenOn(s.opens, r) {
      if Has(s, member, o) {
        LiveRecord(s, member, o);
        LiveRecord(s, member, stream);
      }
    }
    StreamCount(s, r);
    SizeOne(OpenOn(s.opens, r), stream);
  }

  lemma StreamCount(s: State, r: nat)
    requires Inv(s) && r in s.records
    ensures s.records[r].streams == |OpenOn(s.opens, r)|
  {
    hide OrderInv, LogInv, MembersInv, RecordsInv, OpenOn;
  }

  /** What a close does: nothing twice; else one stream less, and the timer
      when it was the last. */
  lemma CloseShape(s: State, stream: nat, t: nat)
    requires Enabled(s, Close(stream, t))
    ensures var u, r := AfterClose(s, stream, t), s.opens[stream].record;
            && u.members == s.members && u.boundary == s.boundary && u.log == s.log && u.generation == s.generation
            && if s.opens[stream].closed then u == s
               else
                 && u.opens == s.opens[stream := Opened(r, true)] && u.records.Keys == s.records.Keys
                 && (forall x :: x in s.records && x != r ==> u.records[x] == s.records[x])
                 && u.records[r].member == s.records[r].member && u.records[r].online == s.records[r].online
                 && if s.records[r].streams == 1 then u.records[r].timer == Some(t) && u.timers == s.timers[t := Timer(r, Grace, false)]
                    else u.records[r].timer == s.records[r].timer && u.timers == s.timers
  {
  }

  lemma CloseStep(s: State, a: Action, member: nat)
    requires Inv(s) && Enabled(s, a) && a.Close?
    ensures forall o :: Has(Next(s, a), member, o) <==> Has(s, member, o) && o != a.stream
    ensures forall t, kind :: Runs(Next(s, a), member, t, kind) <==>
              Runs(s, member, t, kind)
              || (kind.Grace? && t == a.timer && Has(s, member, a.stream) && forall o :: Has(s, member, o) ==> o == a.stream)
    ensures Online(Next(s, a), member) <==> Online(s, member)
  {
    hide Inv, AfterClose;
    CloseShape(s, a.stream, a.timer);
    OpensAreRecorded(s) by { InvRefs(s); }
    if !s.opens[a.stream].closed {
      var r := s.opens[a.stream].record;
      var k := s.records[r].member;
      LiveRecord(s, k, a.stream);
      StreamsLeft(s, k, a.stream);
      OthersRecord(s, member, k);
    }
  }

  lemma InvRefs(s: State)
    requires Inv(s)
    ensures RefsInv(s.records, s.timers, s.opens)
  {
    hide OrderInv, LogInv, MembersInv, RecordsInv, RefsInv;
  }

  /** Two members' records are two, each with its own timer. */
  lemma OthersRecord(s: State, member: nat, k: nat)
    requires Inv(s) && k in s.members
    ensures member in s.members && member != k ==> s.members[member] in s.records && s.members[member] != s.members[k]
    ensures member in s.members && s.members[member] in s.records && s.records[s.members[member]].timer.Some? ==>
              var t := s.records[s.members[member]].timer.value; t in s.timers && s.timers[t].record == s.members[member]
  {
    hide OrderInv, LogInv, RefsInv;
    if member in s.members {
      assert RecordOk(s.members[member], s.records[s.members[member]], s.timers, s.members);
    }
  }

  // ----- a callback -----

  /** A callback is stale, or it is the running timer of one member. */
  lemma FireFacts(s: State, t: nat, k: nat)
    requires Inv(s) && t in s.timers && !s.timers[t].fired && s.timers[t].record in s.records
    requires k == s.records[s.timers[t].record].member
    ensures forall member, kind :: Runs(s, member, t, kind) ==>
              member == k && kind == s.timers[t].kind && s.records[s.timers[t].record].timer == Some(t)
    ensures s.records[s.timers[t].record].timer == Some(t) ==>
              && Runs(s, k, t, s.timers[t].kind) && s.members[k] == s.timers[t].record
              && (s.records[s.members[k]].online <==> s.timers[t].kind.Grace?)
              && s.records[s.members[k]].generation == LastChange(s.log, k)
  {
    hide Inv, LastChange;
    forall member, kind | Runs(s, member, t, kind)
      ensures member == k && s.records[s.timers[t].record].timer == Some(t)
    {
      TimersRecord(s, member, t, kind);
    }
    if s.records[s.timers[t].record].timer == Some(t) {
      CurrentRuns(s, t);
      TimersRecord(s, k, t, s.timers[t].kind);
      KnownRecord(s, k);
    }
  }

  lemma StaleShape(s: State, t: nat, next: nat)
    requires Enabled(s, Fire(t, next)) && s.records[s.timers[t].record].timer != Some(t)
    ensures var u := AfterFire(s, t, next);
            && u.records == s.records && u.members == s.members && u.opens == s.opens && u.boundary == s.boundary && u.log == s.log
            && u.timers == s.timers[t := s.timers[t].(fired := true)] && u.generation == s.generation
  {
  }

  lemma DiscardShape(s: State, t: nat, next: nat)
    requires Enabled(s, Fire(t, next)) && s.records[s.timers[t].record].timer == Some(t) && s.timers[t].kind.Discard?
    ensures var u, r := AfterFire(s, t, next), s.timers[t].record;
            && u.records == s.records && u.members == s.members - {s.records[r].member} && u.opens == s.opens && u.log == s.log
            && u.boundary == Max(s.boundary, s.records[r].generation) && u.generation == s.generation
            && u.timers == s.timers[t := s.timers[t].(fired := true)]
  {
    hide Without;
  }

  lemma StaleStep(s: State, a: Action, member: nat)
    requires Inv(s) && Enabled(s, a) && a.Fire? && s.records[s.timers[a.timer].record].timer != Some(a.timer)
    ensures forall o :: Has(Next(s, a), member, o) <==> Has(s, member, o)
    ensures forall t, kind :: Runs(Next(s, a), member, t, kind) <==> Runs(s, member, t, kind)
    ensures forall k, kind :: !Runs(s, k, a.timer, kind)
    ensures Online(Next(s, a), member) <==> Online(s, member)
    ensures Next(s, a).members == s.members && Next(s, a).boundary == s.boundary && Next(s, a).log == s.log
  {
    hide Inv, AfterFire;
    StaleShape(s, a.timer, a.next);
    FireFacts(s, a.timer, s.records[s.timers[a.timer].record].member);
  }

  lemma GraceStep(s: State, a: Action, member: nat)
    requires Inv(s) && Enabled(s, a) && a.Fire? && s.records[s.timers[a.timer].record].timer == Some(a.timer)
    requires s.timers[a.timer].kind.Grace?
    ensures var k := s.records[s.timers[a.timer].record].member;
            && (forall o :: Has(Next(s, a), member, o) <==> Has(s, member, o))
            && (forall x, kind :: Runs(s, x, a.timer, kind) <==> x == k && kind.Grace?)
            && (forall t, kind :: Runs(Next(s, a), member, t, kind) <==>
                  if member == k then t == a.next && kind.Discard? else Runs(s, member, t, kind))
            && (Online(Next(s, a), member) <==> Online(s, member) && member != k)
            && (member == k ==> Online(s, member))
            && Next(s, a).members == s.members && Next(s, a).boundary == s.boundary && Next(s, a).log == s.log + [Change(k, false)]
  {
    hide Inv, AfterFire;
    var k := s.records[s.timers[a.timer].record].member;
    GraceShape(s, a.timer, a.next);
    FireFacts(s, a.timer, k);
    OthersRecord(s, member, k);
    OpensAreRecorded(s) by { InvRefs(s); }
  }

  lemma DiscardStep(s: State, a: Action, member: nat)
    requires Inv(s) && Enabled(s, a) && a.Fire? && s.records[s.timers[a.timer].record].timer == Some(a.timer)
    requires s.timers[a.timer].kind.Discard?
    ensures var k := s.records[s.timers[a.timer].record].member;
            && (forall o :: Has(Next(s, a), member, o) <==> Has(s, member, o))
            && (forall x, kind :: Runs(s, x, a.timer, kind) <==> x == k && kind.Discard?)
            && (forall t, kind :: Runs(Next(s, a), member, t, kind) <==> member != k && Runs(s, member, t, kind))
            && (Online(Next(s, a), member) <==> Online(s, member)) && (member == k ==> !Online(s, member))
            && Next(s, a).members == s.members - {k} && k in s.members && Next(s, a).log == s.log
            && Next(s, a).boundary == Max(s.boundary, LastChange(s.log, k))
  {
    hide Inv, AfterFire, LastChange;
    var k := s.records[s.timers[a.timer].record].member;
    DiscardShape(s, a.timer, a.next);
    FireFacts(s, a.timer, k);
    OthersRecord(s, member, k);
  }

  lemma FireStep(s: State, a: Action, member: nat)
    requires Inv(s) && Enabled(s, a) && a.Fire?
    ensures forall o :: Has(Next(s, a), member, o) <==> Has(s, member, o)
    ensures forall t, kind :: Runs(Next(s, a), member, t, kind) <==>
              || (Runs(s, member, t, kind) && t != a.timer)
              || (kind.Discard? && t == a.next && Runs(s, member, a.timer, Grace))
    ensures Online(Next(s, a), member) <==> Online(s, member) && !Runs(s, member, a.timer, Grace)
    ensures member in Next(s, a).members <==> member in s.members && !Runs(s, member, a.timer, Discard)
  {
    hide Inv, AfterFire, Online;
    if s.records[s.timers[a.timer].record].timer != Some(a.timer) {
      StaleStep(s, a, member);
    } else if s.timers[a.timer].kind.Grace? {
      GraceStep(s, a, member);
      assert Runs(s, s.records[s.timers[a.timer].record].member, a.timer, Grace);
    } else {
      DiscardStep(s, a, member);
      assert Runs(s, s.records[s.timers[a.timer].record].member, a.timer, Discard);
    }
  }

  // ----- one step, seen from the actions -----

  lemma OpenNext(actions: seq<Action>, n: nat, member: nat, o: nat)
    requires n < |actions|
    ensures IsOpen(actions, n + 1, member, o) <==>
              || (OpensOf(actions[n], member) && actions[n].stream == o)
              || (IsOpen(actions, n, member, o) && !(actions[n].Close? && actions[n].stream == o))
  {
    if IsOpen(actions, n, member, o) && !(actions[n].Close? && actions[n].stream == o) {
      var i :| 0 <= i < n && OpensOf(actions[i], member) && actions[i].stream == o && NoClose(actions, i, n, o);
      assert NoClose(actions, i, n + 1, o);
    }
    if OpensOf(actions[n], member) && actions[n].stream == o {
      assert NoClose(actions, n, n + 1, o);
    }
    if IsOpen(actions, n + 1, member, o) {
      var i :| 0 <= i < n + 1 && OpensOf(actions[i], member) && actions[i].stream == o && NoClose(actions, i, n + 1, o);
      assert i < n ==> NoClose(actions, i, n, o);
    }
  }

  /** What disturbs a timer at step n: an open of its member, or its firing. */
  ghost predicate Disturbs(a: Action, member: nat, t: nat) {
    OpensOf(a, member) || (a.Fire? && a.timer == t)
  }

  lemma GraceNext(actions: seq<Action>, n: nat, member: nat, t: nat)
    requires n < |actions|
    ensures GraceRuns(actions, n + 1, member, t) <==>
              LastClose(actions, n, member, t) || (GraceRuns(actions, n, member, t) && !Disturbs(actions[n], member, t))
  {
    hide LastClose;
    if LastClose(actions, n, member, t) {
      assert Undisturbed(actions, n, n + 1, member, t);
    }
    if GraceRuns(actions, n, member, t) && !Disturbs(actions[n], member, t) {
      var j :| 0 <= j < n && LastClose(actions, j, member, t) && Undisturbed(actions, j, n, member, t);
      assert Undisturbed(actions, j, n + 1, member, t);
    }
    if GraceRuns(actions, n + 1, member, t) {
      var j :| 0 <= j < n + 1 && LastClose(actions, j, member, t) && Undisturbed(actions, j, n + 1, member, t);
      assert j < n ==> Undisturbed(actions, j, n, member, t);
    }
  }

  lemma RetentionNext(actions: seq<Action>, n: nat, member: nat, t: nat)
    requires n < |actions|
    ensures RetentionRuns(actions, n + 1, member, t) <==>
              || (GoesOffline(actions, n, member) && actions[n].next == t)
              || (RetentionRuns(actions, n, member, t) && !Disturbs(actions[n], member, t))
  {
    hide GraceRuns;
    if GoesOffline(actions, n, member) && actions[n].next == t {
      assert Undisturbed(actions, n, n + 1, member, t);
    }
    if RetentionRuns(actions, n, member, t) && !Disturbs(actions[n], member, t) {
      var j :| 0 <= j < n && GoesOffline(actions, j, member) && actions[j].next == t && Undisturbed(actions, j, n, member, t);
      assert Undisturbed(actions, j, n + 1, member, t);
    }
    if RetentionRuns(actions, n + 1, member, t) {
      var j :| 0 <= j < n + 1 && GoesOffline(actions, j, member) && actions[j].next == t && Undisturbed(actions, j, n + 1, member, t);
      assert j < n ==> Undisturbed(actions, j, n, member, t);
    }
  }

  // ----- the state is what the actions say -----

  ghost predicate HasNone(s: State, member: nat) {
    forall o :: !Has(s, member, o)
  }

  lemma MemberStep(s: State, a: Action, member: nat)
    requires Inv(s) && Enabled(s, a)
    ensures forall o :: Has(Next(s, a), member, o) <==>
              (OpensOf(a, member) && a.stream == o) || (Has(s, member, o) && !(a.Close? && a.stream == o))
    ensures forall t :: Runs(Next(s, a), member, t, Grace) <==>
              || (a.Close? && t == a.timer && Has(s, member, a.stream) && HasNone(Next(s, a), member))
              || (Runs(s, member, t, Grace) && !Disturbs(a, member, t))
    ensures forall t :: Runs(Next(s, a), member, t, Discard) <==>
              || (a.Fire? && t == a.next && Runs(s, member, a.timer, Grace))
              || (Runs(s, member, t, Discard) && !Disturbs(a, member, t))
    ensures Online(Next(s, a), member) <==> OpensOf(a, member) || (Online(s, member) && !(a.Fire? && Runs(s, member, a.timer, Grace)))
  {
    hide Inv, Next, Enabled, Has, Runs, Online;
    match a
    case Open(_, _, _) => OpenStep(s, a, member);
    case Close(_, _) => CloseStep(s, a, member);
    case Fire(_, _) => FireStep(s, a, member);
  }

  lemma AtFirst(actions: seq<Action>, member: nat, n: nat)
    ensures !Has(Init(), member, n) && !Runs(Init(), member, n, Grace) && !Runs(Init(), member, n, Discard) && !Online(Init(), member)
    ensures !IsOpen(actions, 0, member, n) && !GraceRuns(actions, 0, member, n) && !RetentionRuns(actions, 0, member, n)
  {
  }

  /** The streams that count are those accepted and not yet cleaned up. */
  lemma {:induction false} OpensKnown(trace: seq<State>, actions: seq<Action>, n: nat, member: nat)
    requires IsRun(trace, actions) && n < |trace|
    ensures forall o :: IsOpen(actions, n, member, o) <==> Has(trace[n], member, o)
  {
    hide Inv, Next, Enabled, Init, IsOpen, GraceRuns, RetentionRuns, Has, Runs, Online;
    if n > 0 {
      OpensKnown(trace, actions, n - 1, member);
      RunInv(trace, actions, n - 1);
      assert StepAt(trace, actions, n - 1);
      MemberStep(trace[n - 1], actions[n - 1], member);
    }
    forall o ensures IsOpen(actions, n, member, o) <==> Has(trace[n], member, o) {
      if n > 0 {
        OpenNext(actions, n - 1, member, o);
      } else {
        AtFirst(actions, member, o);
      }
    }
  }

  /** The grace timer runs in the state exactly when the actions say so. */
  lemma {:induction false} GraceKnown(trace: seq<State>, actions: seq<Action>, n: nat, member: nat)
    requires IsRun(trace, actions) && n < |trace|
    ensures forall t :: GraceRuns(actions, n, member, t) <==> Runs(trace[n], member, t, Grace)
  {
    hide Inv, Next, Enabled, Init, IsOpen, GraceRuns, RetentionRuns, Has, Runs, Online, Disturbs;
    if n > 0 {
      GraceKnown(trace, actions, n - 1, member);
      OpensKnown(trace, actions, n - 1, member);
      OpensKnown(trace, actions, n, member);
      RunInv(trace, actions, n - 1);
      assert StepAt(trace, actions, n - 1);
      MemberStep(trace[n - 1], actions[n - 1], member);
      assert NoneOpen(actions, n, member) <==> HasNone(trace[n], member);
    }
    forall t ensures GraceRuns(actions, n, member, t) <==> Runs(trace[n], member, t, Grace) {
      if n > 0 {
        GraceNext(actions, n - 1, member, t);
      } else {
        AtFirst(actions, member, t);
      }
    }
  }

  /** So does the timer that discards an offline member. */
  lemma {:induction false} RetentionKnown(trace: seq<State>, actions: seq<Action>, n: nat, member: nat)
    requires IsRun(trace, actions) && n < |trace|
    ensures forall t :: RetentionRuns(actions, n, member, t) <==> Runs(trace[n], member, t, Discard)
  {
    hide Inv, Next, Enabled, Init, IsOpen, GraceRuns, RetentionRuns, Has, Runs, Online, Disturbs;
    if n > 0 {
      RetentionKnown(trace, actions, n - 1, member);
      GraceKnown(trace, actions, n - 1, member);
      RunInv(trace, actions, n - 1);
      assert StepAt(trace, actions, n - 1);
      MemberStep(trace[n - 1], actions[n - 1], member);
    }
    forall t ensures RetentionRuns(actions, n, member, t) <==> Runs(trace[n], member, t, Discard) {
      if n > 0 {
        RetentionNext(actions, n - 1, member, t);
      } else {
        AtFirst(actions, member, t);
      }
    }
  }

  // ----- who is online -----

  ghost predicate NeverOffline(actions: seq<Action>, i: nat, n: nat, member: nat)
    requires n <= |actions|
  {
    forall k :: i < k < n ==> !GoesOffline(actions, k, member)
  }

  ghost predicate ShownOnline(actions: seq<Action>, n: nat, member: nat)
    requires n <= |actions|
  {
    exists i :: 0 <= i < n && OpensOf(actions[i], member) && NeverOffline(actions, i, n, member)
  }

  lemma ShownNext(actions: seq<Action>, n: nat, member: nat)
    requires n < |actions|
    ensures ShownOnline(actions, n + 1, member) <==>
              OpensOf(actions[n], member) || (ShownOnline(actions, n, member) && !GoesOffline(actions, n, member))
  {
    hide GoesOffline;
    if OpensOf(actions[n], member) {
      assert NeverOffline(actions, n, n + 1, member);
    }
    if ShownOnline(actions, n, member) && !GoesOffline(actions, n, member) {
      var i :| 0 <= i < n && OpensOf(actions[i], member) && NeverOffline(actions, i, n, member);
      assert NeverOffline(actions, i, n + 1, member);
    }
    if ShownOnline(actions, n + 1, member) {
      var i :| 0 <= i < n + 1 && OpensOf(actions[i], member) && NeverOffline(actions, i, n + 1, member);
      assert i < n ==> NeverOffline(actions, i, n, member);
    }
  }

  lemma NotShown(actions: seq<Action>, member: nat)
    ensures !ShownOnline(actions, 0, member)
  {
  }

  // ----- what is announced -----

  lemma LogStep(s: State, a: Action, member: nat)
    requires Inv(s) && Enabled(s, a) && Online(s, member) != Online(Next(s, a), member)
    ensures Next(s, a).log == s.log + [Change(member, Online(Next(s, a), member))]
  {
    hide Inv, AfterOpen, AfterClose, AfterFire, Online, Has, Runs;
    match a {
      case Open(_, _, _) =>
        OpenStep(s, a, member);
        OpenLog(s, a);
      case Close(_, _) => CloseStep(s, a, member);
      case Fire(t, _) =>
        if s.records[s.timers[t].record].timer != Some(t) {
          StaleStep(s, a, member);
        } else if s.timers[t].kind.Grace? {
          GraceStep(s, a, member);
        } else {
          DiscardStep(s, a, member);
        }
    }
  }

  lemma OpenLog(s: State, a: Action)
    requires Inv(s) && Enabled(s, a) && a.Open?
    ensures Next(s, a).log == if Online(s, a.member) then s.log else s.log + [Change(a.member, true)]
    ensures Next(s, a).boundary == s.boundary
    ensures Next(s, a).members.Keys == s.members.Keys + {a.member}
  {
    hide Inv, AfterOpen;
    if a.member in s.members {
      KnownRecord(s, a.member);
    }
    OpenShape(s, a.member, a.stream, a.record);
  }

  /** A step that changes nobody's state announces nothing. */
  lemma QuietStep(s: State, a: Action)
    requires Inv(s) && Enabled(s, a) && forall member :: Online(s, member) == Online(Next(s, a), member)
    ensures Next(s, a).log == s.log
  {
    hide Inv, AfterOpen, AfterClose, AfterFire, Online, Has, Runs;
    match a {
      case Open(k, _, _) =>
        OpenStep(s, a, k);
        OpenLog(s, a);
      case Close(stream, t) => CloseShape(s, stream, t);
      case Fire(t, _) =>
        var k := s.records[s.timers[t].record].member;
        if s.records[s.timers[t].record].timer != Some(t) {
          StaleStep(s, a, k);
        } else if s.timers[t].kind.Grace? {
          GraceStep(s, a, k);
        } else {
          DiscardStep(s, a, k);
        }
    }
  }

  // ----- the boundary -----

  /** Some member was discarded whose last change was above the generation. */
  ghost predicate DiscardedAbove(trace: seq<State>, actions: seq<Action>, n: nat, g: int)
    requires n <= |actions| < |trace|
  {
    exists k, member :: 0 <= k < n && Discards(actions, k, member) && LastChange(trace[k].log, member) > g
  }

  lemma BoundaryStep(s: State, a: Action, member: nat)
    requires Inv(s) && Enabled(s, a)
    ensures a.Fire? && Runs(s, member, a.timer, Discard) ==> Next(s, a).boundary == Max(s.boundary, LastChange(s.log, member))
    ensures !a.Fire? ==> Next(s, a).boundary == s.boundary
  {
    hide Inv, AfterOpen, AfterClose, AfterFire, Online, Has, Runs, LastChange;
    match a {
      case Open(_, _, _) => OpenLog(s, a);
      case Close(stream, t) => CloseShape(s, stream, t);
      case Fire(t, _) =>
        if s.records[s.timers[t].record].timer != Some(t) {
          StaleStep(s, a, member);
        } else if s.timers[t].kind.Grace? {
          GraceStep(s, a, member);
        } else {
          DiscardStep(s, a, member);
        }
    }
  }

  lemma NoDiscardStep(s: State, a: Action)
    requires Inv(s) && Enabled(s, a) && a.Fire?
    ensures Next(s, a).boundary == s.boundary || exists member :: Runs(s, member, a.timer, Discard)
  {
    hide Inv, AfterFire, Online, Has, Runs, LastChange;
    var k := s.records[s.timers[a.timer].record].member;
    if s.records[s.timers[a.timer].record].timer != Some(a.timer) {
      StaleStep(s, a, k);
    } else if s.timers[a.timer].kind.Grace? {
      GraceStep(s, a, k);
    } else {
      DiscardStep(s, a, k);
      assert Runs(s, k, a.timer, Discard);
    }
  }

  lemma NoBoundary(trace: seq<State>, actions: seq<Action>, g: nat)
    requires IsRun(trace, actions)
    ensures trace[0].boundary == 0 && !DiscardedAbove(trace, actions, 0, g)
  {
  }

  /** A callback discards one member. */
  lemma OneDiscard(trace: seq<State>, actions: seq<Action>, n: nat, member: nat)
    requires IsRun(trace, actions) && n < |actions| && Discards(actions, n, member)
    ensures forall k :: Discards(actions, n, k) ==> k == member
  {
    hide Inv, Next, Init, RetentionRuns, Runs;
    RunInv(trace, actions, n);
    assert StepAt(trace, actions, n);
    FireFacts(trace[n], actions[n].timer, trace[n].records[trace[n].timers[actions[n].timer].record].member);
    RetentionKnown(trace, actions, n, member);
    forall k | Discards(actions, n, k) ensures k == member {
      RetentionKnown(trace, actions, n, k);
    }
  }

  lemma AboveNext(trace: seq<State>, actions: seq<Action>, n: nat, g: nat, member: nat)
    requires n < |actions| < |trace| && Discards(actions, n, member) && forall k :: Discards(actions, n, k) ==> k == member
    ensures DiscardedAbove(trace, actions, n + 1, g) <==> DiscardedAbove(trace, actions, n, g) || LastChange(trace[n].log, member) > g
  {
    hide Discards, LastChange;
  }

  lemma AboveSame(trace: seq<State>, actions: seq<Action>, n: nat, g: nat)
    requires n < |actions| < |trace| && forall k :: !Discards(actions, n, k)
    ensures DiscardedAbove(trace, actions, n + 1, g) <==> DiscardedAbove(trace, actions, n, g)
  {
    hide Discards, LastChange;
  }

  // ----- the answer -----

  /** Everyone with a change after generation g. */
  ghost function ChangedSince(log: seq<Change>, g: nat): set<nat> {
    set i | g <= i < |log| :: log[i].member
  }

  lemma {:induction false} ChangedIsLast(log: seq<Change>, g: nat, member: nat)
    ensures member in ChangedSince(log, g) <==> LastChange(log, member) > g
  {
    if log != [] {
      ChangedIsLast(log[..|log| - 1], g, member);
      var last := |log| - 1;
      if g <= last && log[last].member == member {
        assert log[last].member in ChangedSince(log, g);
      }
      if member in ChangedSince(log, g) && log[last].member != member {
        var i :| g <= i < |log| && log[i].member == member;
        assert log[..last][i].member == member;
      }
      if member in ChangedSince(log[..last], g) {
        var i :| g <= i < last && log[..last][i].member == member;
        assert log[i].member == member;
      }
    }
  }

  /** The listed records say when their members last changed. */
  ghost predicate Dated(changes: seq<nat>, records: map<nat, Record>, log: seq<Change>) {
    forall r :: r in changes ==> r in records && records[r].generation == LastChange(log, records[r].member)
  }

  ghost predicate Rising(changes: seq<nat>, records: map<nat, Record>) {
    && (forall r :: r in changes ==> r in records)
    && forall i, j :: 0 <= i < j < |changes| ==> records[changes[i]].generation < records[changes[j]].generation
  }

  ghost predicate Entered(changes: seq<nat>, records: map<nat, Record>, g: nat, e: Change) {
    exists r :: r in changes && r in records && records[r].generation > g && e == Change(records[r].member, records[r].online)
  }

  ghost predicate InOrder(entries: seq<Change>, log: seq<Change>) {
    forall i, j :: 0 <= i < j < |entries| ==> LastChange(log, entries[i].member) < LastChange(log, entries[j].member)
  }

  lemma EnteredMore(before: seq<nat>, last: nat, records: map<nat, Record>, g: nat, e: Change)
    requires last in records
    ensures Entered(before + [last], records, g, e) <==>
      Entered(before, records, g, e) || (records[last].generation > g && e == Change(records[last].member, records[last].online))
  {
    if Entered(before, records, g, e) {
      var r :| r in before && r in records && records[r].generation > g && e == Change(records[r].member, records[r].online);
      assert r in before + [last];
    }
    assert last in before + [last];
  }

  lemma EarlierEntries(before: seq<nat>, last: nat, records: map<nat, Record>, log: seq<Change>, g: nat, e: Change)
    requires Rising(before + [last], records) && Dated(before + [last], records, log) && Entered(before, records, g, e)
    ensures LastChange(log, e.member) < records[last].generation
  {
    hide LastChange;
    var r :| r in before && r in records && records[r].generation > g && e == Change(records[r].member, records[r].online);
    var all := before + [last];
    var k :| 0 <= k < |before| && before[k] == r;
    assert all[k] == r && r in all && all[|before|] == last;
  }

  /** The suffix lists the changed records in the order of their last changes. */
  lemma {:induction false} SinceLists(changes: seq<nat>, records: map<nat, Record>, log: seq<Change>, g: nat)
    requires Rising(changes, records) && Dated(changes, records, log)
    ensures var entries := Since(changes, records, g);
            InOrder(entries, log) && forall e :: e in entries <==> Entered(changes, records, g, e)
  {
    hide LastChange, Entered;
    if changes == [] {
      forall e ensures !Entered(changes, records, g, e) {
        NothingEntered(records, g, e);
      }
    } else {
      var before, last := changes[..|changes| - 1], changes[|changes| - 1];
      assert changes == before + [last] && last in changes;
      FewerListed(before, last, records, log);
      SinceLists(before, records, log, g);
      var entries := Since(before, records, g);
      forall i | 0 <= i < |entries| ensures LastChange(log, entries[i].member) < records[last].generation {
        assert entries[i] in entries;
        EarlierEntries(before, last, records, log, g, entries[i]);
      }
      forall e ensures e in Since(changes, records, g) <==> Entered(changes, records, g, e) {
        EnteredMore(before, last, records, g, e);
      }
    }
  }

  lemma NothingEntered(records: map<nat, Record>, g: nat, e: Change)
    ensures !Entered([], records, g, e)
  {
  }

  lemma FewerListed(before: seq<nat>, last: nat, records: map<nat, Record>, log: seq<Change>)
    requires Rising(before + [last], records) && Dated(before + [last], records, log)
    ensures Rising(before, records) && Dated(before, records, log)
  {
    hide LastChange;
    var all := before + [last];
    forall i | 0 <= i < |before| ensures before[i] in records && before[i] == all[i] {
      assert all[i] in all;
    }
    forall r | r in before ensures r in records && records[r].generation == LastChange(log, records[r].member) {
      assert r in all;
    }
  }

  /** In a state the suffix is the changes since: each member once, as they are
      now, in the order of their last changes. */
  lemma SuffixIsTheChanges(s: State, g: nat)
    requires Inv(s)
    ensures var entries := Since(s.changes, s.records, g);
            && InOrder(entries, s.log)
            && forall e :: e in entries <==> e.member in s.members && LastChange(s.log, e.member) > g && e.online == Online(s, e.member)
  {
    hide Inv, LastChange, Online, Entered;
    Listing(s);
    SinceLists(s.changes, s.records, s.log, g);
    forall e ensures Entered(s.changes, s.records, g, e) <==>
      e.member in s.members && LastChange(s.log, e.member) > g && e.online == Online(s, e.member)
    {
      EnteredIsKnown(s, g, e);
    }
  }

  lemma Listing(s: State)
    requires Inv(s)
    ensures Rising(s.changes, s.records) && Dated(s.changes, s.records, s.log)
  {
    forall r | r in s.changes ensures r in s.records && s.records[r].generation == LastChange(s.log, s.records[r].member) {
      KnownRecord(s, s.records[r].member);
    }
    hide LogInv, RecordsInv, RefsInv, LastChange, MembersInv;
    forall i | 0 <= i < |s.changes| ensures s.changes[i] in s.records {
    }
  }

  lemma EnteredIsKnown(s: State, g: nat, e: Change)
    requires Inv(s)
    ensures Entered(s.changes, s.records, g, e) <==>
      e.member in s.members && LastChange(s.log, e.member) > g && e.online == Online(s, e.member)
  {
    hide LogInv, RecordsInv, RefsInv, LastChange, OrderInv;
    if e.member in s.members {
      KnownRecord(s, e.member);
      assert s.members[e.member] in s.changes;
    }
  }

  /** As many entries as members. */
  lemma EntriesCount(entries: seq<Change>, log: seq<Change>, who: set<nat>)
    requires InOrder(entries, log) && (forall e :: e in entries ==> e.member in who)
    requires forall k :: k in who ==> exists e :: e in entries && e.member == k
    ensures |entries| == |who|
  {
    hide LastChange;
    var names := seq(|entries|, i requires 0 <= i < |entries| => entries[i].member);
    forall k | k in who ensures k in names {
      var e :| e in entries && e.member == k;
      var i :| 0 <= i < |entries| && entries[i] == e;
      assert names[i] == k;
    }
    forall k | k in names ensures k in who {
      var i :| 0 <= i < |names| && names[i] == k;
      assert entries[i] in entries;
    }
    assert Elements(names) == who;
    forall i, j | 0 <= i < j < |names| ensures names[i] != names[j] {
      assert LastChange(log, entries[i].member) < LastChange(log, entries[j].member);
    }
    DistinctSize(names);
  }

  /** Where nobody was discarded since, everyone with a change since is listed. */
  lemma NobodyMissing(s: State, g: nat)
    requires Inv(s) && s.boundary <= g
    ensures |Since(s.changes, s.records, g)| == |ChangedSince(s.log, g)|
    ensures forall k :: k in ChangedSince(s.log, g) ==> k in s.members && LastChange(s.log, k) > g
  {
    hide Inv, LastChange, Online, ChangedSince, InOrder;
    SuffixIsTheChanges(s, g);
    var entries := Since(s.changes, s.records, g);
    forall k ensures k in ChangedSince(s.log, g) <==> LastChange(s.log, k) > g {
      ChangedIsLast(s.log, g, k);
    }
    forall k | k in ChangedSince(s.log, g) ensures k in s.members && exists e :: e in entries && e.member == k {
      StillKnown(s, g, k);
      assert Change(k, Online(s, k)) in entries;
    }
    EntriesCount(entries, s.log, ChangedSince(s.log, g));
  }

  lemma StillKnown(s: State, g: nat, k: nat)
    requires Inv(s) && s.boundary <= g < LastChange(s.log, k)
    ensures k in s.members
  {
    hide OrderInv, MembersInv, RecordsInv, RefsInv, LastChange;
    assert Remembered(k, s.log, s.boundary, s.members, s.records);
  }
}
