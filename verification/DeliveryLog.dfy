module DeliveryLog {
  /** What a delivery run may do, as a log of its effects, and what follows for
      the client over any number of runs (internal/realtime/stream.go). This
      says nothing about how the run decides; StreamRun does, and proves that
      the run's log is orderly. */

  import opened Common

  datatype Kind = Presence | Typing

  /** What a stream owes at its time: a heartbeat, a recount, the channel's state. */
  datatype Duty = Beat | Recount | Refresh

  /** Why an event is skipped on purpose. A failure is never a reason. */
  datatype Why = Elsewhere | Filtered | Unwanted | Denied

  datatype Entry =
    | Checked                                     // bound membership confirmed, the stream not cancelled
    | Admitted(seqNo: int, allowed: bool)         // answer for an event meant for another member
    | Delivered(seqNo: int, foreign: bool)        // an event's frame was written, with its ID
    | Skipped(seqNo: int, why: Why)
    | Checkpoint(id: int)
    | Reset(id: int, at: nat)                     // as the read numbered `at` has it
    | Frame(closes: bool)                         // an ephemeral frame, without ID; a reset closes
    | Comment
    | Read(level: int, count: nat, full: bool)    // events read, begun when `level` was known
    | Wants(kind: Kind)                           // connecting, the stream wants the kind, and it has an owner
    | Told(kind: Kind, generation: int, named: bool, resets: bool, at: nat) // the owner answered, with a frame meant for here or not
    | Owned(kind: Kind, generation: int)          // the owner's state covers this generation
    | Unowned(kind: Kind, generation: int)        // the kind has no owner; its level is passed over
    | Observed(change: nat)                       // read-change watch captured
    | Counting                                    // a recount's read begins
    | Recounted(change: nat)                      // a recount read after that capture was written
    | Call(caller: Option<int>)                   // connecting, or this event, calls for the channel's whole state
    | Renewing                                    // a read of the channel's state begins
    | Renewed                                     // what that read found was written
    | Due(duty: Duty, at: nat)                    // it is time for it, the answer numbered `at` says
    | Early(duty: Duty, at: nat)                  // it is not
    | Deferred(at: nat)                           // no room for the recount that was due
    | Waiting(after: int, presence: int, typing: int, observed: nat, recountDue: bool, refreshDue: bool, beats: bool)
    | Woke(level: int)                            // the wait came back with this durable level
    | Expired                                     // the wait came back at its deadline

  /** The channel's state: whether it is owed, whether a read begun since it
      was last called for is under way, and what has called for it. */
  datatype Channel = Channel(owed: bool, renewing: bool, calls: set<Option<int>>)

  /** The last answer of an owner, whether it is news, and the frame written for it. */
  datatype Telling = Telling(kind: Kind, generation: int, news: bool, resets: bool, shown: bool)

  /** The kinds wanted on connecting, those asked since, and the answer that
      does not count as seen yet. */
  datatype Owners = Owners(wanted: set<Kind>, asked: set<Kind>, told: Option<Telling>)

  /** What is due, and what it has turned out too early for since the last wait. */
  datatype Duties = Duties(due: set<Duty>, early: set<Duty>)

  /** What the log so far amounts to. `known` and `upTo` describe the last
      completed read: the level known before it and the last event it held;
      `seen` is the level the next read will know. */
  datatype Digest = Digest(
    cursor: int, lastId: int, checked: bool, waiting: bool, closed: bool, seen: int, known: int, upTo: int, short: bool,
    admitted: Option<int>, denied: Option<int>, presence: int, typing: int, observed: nat, counting: bool, covered: nat,
    channel: Channel, owners: Owners, duties: Duties)

  function Start(start: int): Digest {
    Digest(start, start, false, false, false, 0, 0, start, false, None, None, 0, 0, 0, false, 0,
      Channel(false, false, {}), Owners({}, {}, None), Duties({}, {}))
  }

  function Seen(d: Digest, kind: Kind): int {
    if kind.Presence? then d.presence else d.typing
  }

  /** An answer is news if it has a frame meant for this stream, and it is the
      first of its kind or newer than what was seen. */
  predicate News(d: Digest, kind: Kind, generation: int, named: bool) {
    named && (kind !in d.owners.asked || generation > Seen(d, kind))
  }

  function Step(d: Digest, e: Entry): Digest {
    var u := d.(checked := e.Checked?, waiting := e.Waiting?);
    match e
    case Checked => u
    case Admitted(s, allowed) => if allowed then u.(admitted := Some(s)) else u.(denied := Some(s))
    case Delivered(s, _) => u.(cursor := s, lastId := s)
    case Skipped(s, _) => u.(cursor := s)
    case Checkpoint(id) => u.(lastId := id, duties := Duties(d.duties.due - {Beat}, d.duties.early))
    case Reset(id, _) => u.(lastId := id, closed := true)
    case Frame(closes) => u.(closed := closes, owners := Shown(d.owners))
    case Comment => u.(duties := Duties(d.duties.due - {Beat}, d.duties.early))
    case Read(level, count, full) =>
      u.(known := level, upTo := d.cursor + count, short := !full, duties := Duties(d.duties.due, {}))
    case Wants(kind) => u.(owners := Owners(d.owners.wanted + {kind}, d.owners.asked, d.owners.told))
    case Told(kind, g, named, resets, _) =>
      u.(owners := Owners(d.owners.wanted, d.owners.asked + {kind},
                          Some(Telling(kind, g, News(d, kind, g, named), resets, false))))
    case Owned(kind, g) =>
      var v := u.(owners := Owners(d.owners.wanted, d.owners.asked, None));
      if kind.Presence? then v.(presence := Max(d.presence, g)) else v.(typing := Max(d.typing, g))
    case Unowned(kind, g) => if kind.Presence? then u.(presence := g) else u.(typing := g)
    case Observed(g) => u.(observed := g, counting := false)
    case Counting => u.(counting := true)
    case Recounted(g) => u.(covered := g, duties := Duties(d.duties.due - {Recount}, d.duties.early))
    case Call(caller) => u.(channel := Channel(true, false, d.channel.calls + {caller}))
    case Renewing => u.(channel := Channel(d.channel.owed, true, d.channel.calls))
    case Renewed => u.(channel := Channel(false, false, d.channel.calls), duties := Duties(d.duties.due - {Refresh}, d.duties.early))
    case Due(duty, _) => u.(duties := Duties(d.duties.due + {duty}, d.duties.early))
    case Early(duty, _) => u.(duties := Duties(d.duties.due, d.duties.early + {duty}))
    case Deferred(_) => u.(duties := Duties(d.duties.due - {Recount}, d.duties.early + {Recount}))
    case Waiting(after, _, _, _, _, _, _) => u.(seen := after)
    case Woke(level) => u.(seen := level, duties := Duties(d.duties.due, {}))
    case Expired => u.(duties := Duties(d.duties.due, {}))
  }

  function Shown(o: Owners): Owners {
    if o.told.None? then o
    else Owners(o.wanted, o.asked, Some(Telling(o.told.value.kind, o.told.value.generation, o.told.value.news, o.told.value.resets, true)))
  }

  /** The rules: events are taken one by one in order, and only those that
      were read, an event meant for another member only if admitted; IDs rise
      and never pass the cursor; nothing is written without a membership check
      just before; a read begins with the level last reported, and a wait asks
      for more than that and the cursor, once a read begun with it came back
      short; a recount is read after its capture of the watch, and a read
      change that no recount covers has a recount coming; the channel's state
      is read after what called for it, and a wait that owes it has a refresh
      coming. A frame is written for each owner's answer that is news, and for
      no other, before its generation counts as seen. What is due is done, and
      what is put off was found too early, before the stream waits or reads. */
  predicate Allowed(d: Digest, e: Entry) {
    !d.closed &&
    match e
    case Checked => true
    case Admitted(s, _) => s == d.cursor + 1
    case Delivered(s, foreign) => d.checked && s == d.cursor + 1 && s <= d.upTo && (foreign ==> d.admitted == Some(s))
    case Skipped(s, why) => s == d.cursor + 1 && s <= d.upTo && (why.Denied? ==> d.denied == Some(s))
    case Checkpoint(id) => d.checked && d.lastId < id == d.cursor
    case Reset(id, _) => d.checked && id == d.cursor
    case Frame(closes) =>
      && d.checked && d.owners.told.Some?
      && d.owners.told.value.news && !d.owners.told.value.shown && closes == d.owners.told.value.resets
    case Comment => d.checked && d.lastId == d.cursor
    case Read(level, _, _) => d.cursor == d.upTo && level == d.seen && d.duties.due == {}
    case Wants(_) => true
    case Told(_, _, _, _, _) => d.owners.told.None?
    case Owned(kind, g) =>
      && d.owners.told.Some? && kind == d.owners.told.value.kind && g == d.owners.told.value.generation
      && (d.owners.told.value.news ==> d.owners.told.value.shown)
    case Unowned(_, _) => true
    case Observed(_) => true
    case Counting => true
    case Recounted(g) => d.checked && d.counting && g == d.observed
    case Call(caller) => caller.Some? ==> d.cursor + 1 == caller.value <= d.upTo
    case Renewing => true
    case Renewed => d.checked && d.channel.renewing
    case Due(_, _) => true
    case Early(_, _) => true
    case Deferred(_) => d.counting
    case Waiting(after, presence, typing, observed, recountDue, refreshDue, beats) =>
      && d.short && d.cursor == d.upTo
      && after == Max(d.cursor, d.seen) && d.seen <= Max(d.cursor, d.known)
      && presence == d.presence && typing == d.typing
      && observed == d.observed && (d.observed > d.covered ==> recountDue)
      && (d.channel.owed ==> refreshDue)
      && d.owners.told.None? && d.owners.wanted <= d.owners.asked
      && d.duties.due == {} && (recountDue ==> Recount in d.duties.early) && (refreshDue ==> Refresh in d.duties.early)
      && (!beats ==> d.lastId == d.cursor)
    case Woke(_) => d.waiting
    case Expired => d.waiting && d.duties.early != {}
  }

  function Digested(start: int, log: seq<Entry>): Digest {
    if log == [] then Start(start) else Step(Digested(start, log[..|log| - 1]), log[|log| - 1])
  }

  predicate Orderly(start: int, log: seq<Entry>) {
    log == [] || (Orderly(start, log[..|log| - 1]) && Allowed(Digested(start, log[..|log| - 1]), log[|log| - 1]))
  }

  lemma Append(start: int, log: seq<Entry>, e: Entry)
    ensures Digested(start, log + [e]) == Step(Digested(start, log), e)
    ensures Orderly(start, log + [e]) <==> Orderly(start, log) && Allowed(Digested(start, log), e)
    ensures Decisions(log + [e]) == Decisions(log) + Decided(e)
  {
    assert (log + [e])[..|log|] == log;
  }

  // ----- one run -----

  /** A decision about one event: delivered, or skipped for a reason. */
  datatype Decision = Decision(seqNo: int, why: Option<Why>)

  function Decided(e: Entry): seq<Decision> {
    match e
    case Delivered(s, _) => [Decision(s, None)]
    case Skipped(s, why) => [Decision(s, Some(why))]
    case _ => []
  }

  function Decisions(log: seq<Entry>): seq<Decision> {
    if log == [] then [] else Decisions(log[..|log| - 1]) + Decided(log[|log| - 1])
  }

  function Written(e: Entry): seq<int> {
    match e
    case Delivered(s, _) => [s]
    case Checkpoint(id) => [id]
    case Reset(id, _) => [id]
    case _ => []
  }

  /** The IDs written, in order. */
  function Ids(log: seq<Entry>): seq<int> {
    if log == [] then [] else Ids(log[..|log| - 1]) + Written(log[|log| - 1])
  }

  function Last(from: int, ids: seq<int>): int {
    if ids == [] then from else ids[|ids| - 1]
  }

  ghost predicate Increasing(from: int, ids: seq<int>) {
    && (ids != [] ==> from < ids[0])
    && forall i, j :: 0 <= i < j < |ids| ==> ids[i] < ids[j]
  }

  lemma IncreasingJoin(from: int, a: seq<int>, b: seq<int>)
    requires Increasing(from, a) && Increasing(Last(from, a), b)
    ensures Increasing(from, a + b) && Last(from, a + b) == Last(Last(from, a), b)
  {
  }

  /** One step decides the next event or none, and keeps the last ID at or
      below the cursor; until a reset, a written ID is greater than the last. */
  lemma StepDecides(d: Digest, e: Entry)
    requires Allowed(d, e) && d.lastId <= d.cursor
    ensures var u := Step(d, e);
            && d.lastId <= u.lastId <= u.cursor
            && (if Decided(e) == [] then u.cursor == d.cursor
                else Decided(e) == [Decision(d.cursor + 1, if e.Delivered? then None else Some(e.why))] && u.cursor == d.cursor + 1)
            && (u.closed || (if Written(e) == [] then u.lastId == d.lastId else Written(e) == [u.lastId] && d.lastId < u.lastId))
            && (e.Delivered? ==> u.lastId == u.cursor)
  {
    if Decided(e) == [] && Written(e) == [] {
      SilentStep(d, e);
    }
  }

  lemma SilentStep(d: Digest, e: Entry)
    requires Decided(e) == [] && Written(e) == []
    ensures Step(d, e).cursor == d.cursor && Step(d, e).lastId == d.lastId
  {
  }

  /** Each event from the start up to the cursor is decided once, in order. */
  lemma {:induction false} DecidedOnce(start: int, log: seq<Entry>)
    requires Orderly(start, log)
    ensures var d := Digested(start, log);
            && start <= d.lastId <= d.cursor && |Decisions(log)| == d.cursor - start
            && forall i :: 0 <= i < |Decisions(log)| ==> Decisions(log)[i].seqNo == start + 1 + i
  {
    if log != [] {
      DecidedOnce(start, log[..|log| - 1]);
      hide Allowed, Step;
      StepDecides(Digested(start, log[..|log| - 1]), log[|log| - 1]);
    }
  }

  predicate Closed(start: int, log: seq<Entry>) {
    Digested(start, log).closed
  }

  /** Until a reset, the IDs of a run rise strictly and end at the last one. */
  lemma {:induction false} IdsRise(start: int, log: seq<Entry>)
    requires Orderly(start, log) && !Closed(start, log)
    ensures Increasing(start, Ids(log))
    ensures Digested(start, log).lastId == Last(start, Ids(log))
  {
    if log != [] {
      var prefix, e := log[..|log| - 1], log[|log| - 1];
      assert !Closed(start, prefix);
      IdsRise(start, prefix);
      DecidedOnce(start, prefix);
      hide Decisions, Allowed, Step;
      StepDecides(Digested(start, prefix), e);
      IncreasingJoin(start, Ids(prefix), Written(e));
    }
  }

  /** A delivered event is never above the last ID. */
  lemma {:induction false} DeliveredAreWritten(start: int, log: seq<Entry>, i: nat)
    requires Orderly(start, log) && i < |Decisions(log)| && Decisions(log)[i].why.None?
    ensures Decisions(log)[i].seqNo <= Digested(start, log).lastId
  {
    var prefix, e := log[..|log| - 1], log[|log| - 1];
    DecidedOnce(start, prefix);
    DecidedOnce(start, log);
    hide Allowed, Step;
    StepDecides(Digested(start, prefix), e);
    if i < |Decisions(prefix)| {
      DeliveredAreWritten(start, prefix, i);
    }
  }

  // ----- reconnecting -----

  datatype Run = Run(start: int, log: seq<Entry>)
  {
    function LastId(): int {
      Digested(start, log).lastId
    }

    /** The decisions the client will not ask for again. */
    function Settled(): seq<Decision>
      requires Orderly(start, log)
    {
      DecidedOnce(start, log);
      Decisions(log)[..LastId() - start]
    }
  }

  /** Runs of one client: each restarts at the last ID written before, and
      none continues after a reset. */
  ghost predicate Reconnects(runs: seq<Run>) {
    && (forall i :: 0 <= i < |runs| ==> Orderly(runs[i].start, runs[i].log))
    && (forall i, j :: 0 <= i < |runs| && j == i + 1 < |runs| ==> Follows(runs[i], runs[j]))
  }

  predicate Follows(earlier: Run, later: Run) {
    later.start == earlier.LastId() && !Closed(earlier.start, earlier.log)
  }

  function AllIds(runs: seq<Run>): seq<int> {
    if runs == [] then [] else AllIds(runs[..|runs| - 1]) + Ids(runs[|runs| - 1].log)
  }

  function AllSettled(runs: seq<Run>): seq<Decision>
    requires forall i :: 0 <= i < |runs| ==> Orderly(runs[i].start, runs[i].log)
  {
    if runs == [] then [] else AllSettled(runs[..|runs| - 1]) + runs[|runs| - 1].Settled()
  }

  lemma ReconnectsBefore(runs: seq<Run>)
    requires |runs| > 1 && Reconnects(runs)
    ensures Reconnects(runs[..|runs| - 1]) && Follows(runs[|runs| - 2], runs[|runs| - 1])
  {
  }

  /** Across reconnects the IDs rise strictly up to a reset. */
  lemma {:induction false} ReconnectedIdsRise(runs: seq<Run>)
    requires runs != [] && Reconnects(runs) && !Closed(runs[|runs| - 1].start, runs[|runs| - 1].log)
    ensures Increasing(runs[0].start, AllIds(runs))
    ensures runs[|runs| - 1].LastId() == Last(runs[0].start, AllIds(runs))
  {
    var last, before := runs[|runs| - 1], runs[..|runs| - 1];
    IdsRise(last.start, last.log);
    if |runs| > 1 {
      ReconnectsBefore(runs);
      ReconnectedIdsRise(before);
    } else {
      assert AllIds(before) == [];
    }
    hide Orderly, Digested, Increasing, Ids;
    IncreasingJoin(runs[0].start, AllIds(before), Ids(last.log));
  }

  /** The decisions settled are those for the events after `from`, in order. */
  ghost predicate Consecutive(from: int, decisions: seq<Decision>) {
    forall i :: 0 <= i < |decisions| ==> decisions[i].seqNo == from + 1 + i
  }

  /** Across reconnects every event from the first start to the last ID
      written is settled exactly once, in order. */
  lemma {:induction false} ReconnectsSettleOnce(runs: seq<Run>)
    requires runs != [] && Reconnects(runs)
    ensures |AllSettled(runs)| == runs[|runs| - 1].LastId() - runs[0].start
    ensures Consecutive(runs[0].start, AllSettled(runs))
  {
    var last, before := runs[|runs| - 1], runs[..|runs| - 1];
    DecidedOnce(last.start, last.log);
    assert |last.Settled()| == last.LastId() - last.start && Consecutive(last.start, last.Settled());
    if |runs| > 1 {
      ReconnectsBefore(runs);
      ReconnectsSettleOnce(before);
    } else {
      assert AllSettled(before) == [];
    }
  }

  /** No event is delivered twice: a delivery is always settled. */
  lemma DeliveriesAreSettled(runs: seq<Run>, r: nat, i: nat)
    requires Reconnects(runs) && r < |runs| && i < |Decisions(runs[r].log)| && Decisions(runs[r].log)[i].why.None?
    ensures i < |runs[r].Settled()| && runs[r].Settled()[i] == Decisions(runs[r].log)[i]
  {
    DecidedOnce(runs[r].start, runs[r].log);
    DeliveredAreWritten(runs[r].start, runs[r].log, i);
  }

  // ----- nothing written without a check -----

  predicate Writes(e: Entry) {
    e.Delivered? || e.Checkpoint? || e.Reset? || e.Frame? || e.Comment? || e.Recounted? || e.Renewed?
  }

  lemma WritesChecked(d: Digest, e: Entry, f: Entry)
    requires Allowed(Step(d, e), f) && Writes(f)
    ensures e.Checked?
  {
  }

  /** Whatever is written, the step before it confirmed the membership. */
  lemma {:induction false} EveryWriteIsChecked(start: int, log: seq<Entry>, i: nat)
    requires Orderly(start, log) && i < |log| && Writes(log[i])
    ensures i > 0 && log[i - 1].Checked?
  {
    var prefix := log[..|log| - 1];
    if i < |log| - 1 {
      EveryWriteIsChecked(start, prefix, i);
    } else if prefix == [] {
      assert false;
    } else {
      hide Allowed, Step, Writes;
      WritesChecked(Digested(start, prefix[..|prefix| - 1]), prefix[|prefix| - 1], log[i]);
    }
  }

  // ----- the channel's state -----

  /** A read of the channel's state begun after the k-th entry. */
  ghost predicate ReadSince(log: seq<Entry>, k: nat) {
    exists c :: k < c < |log| && log[c].Renewing?
  }

  /** A read of the channel's state begun after the k-th entry, and written. */
  ghost predicate RenewedSince(log: seq<Entry>, k: nat) {
    exists c, b :: k < c < b < |log| && log[c].Renewing? && log[b].Renewed?
  }

  lemma CallStep(d: Digest, e: Entry)
    requires Allowed(d, e)
    ensures var u := Step(d, e);
            && (e.Call? ==> u.channel.owed && !u.channel.renewing)
            && (d.channel.owed ==> u.channel.owed || (e.Renewed? && d.channel.renewing))
            && (u.channel.renewing ==> d.channel.renewing || e.Renewing?)
            && u.channel.calls == d.channel.calls + if e.Call? then {e.caller} else {}
  {
  }

  lemma SinceGrows(log: seq<Entry>, e: Entry, k: nat)
    requires k < |log|
    ensures ReadSince(log, k) || e.Renewing? ==> ReadSince(log + [e], k)
    ensures RenewedSince(log, k) || (ReadSince(log, k) && e.Renewed?) ==> RenewedSince(log + [e], k)
  {
    var more, last := log + [e], |log|;
    if ReadSince(log, k) {
      var c :| k < c < last && log[c].Renewing?;
      assert more[c].Renewing? && more[last] == e;
    }
    if e.Renewing? {
      assert more[last].Renewing?;
    }
    if RenewedSince(log, k) {
      var c, b :| k < c < b < last && log[c].Renewing? && log[b].Renewed?;
      assert more[c].Renewing? && more[b].Renewed?;
    }
  }

  /** What called for the channel's state is still owed, or was read later and
      written; a read under way began after it. */
  lemma {:induction false} CallKept(start: int, log: seq<Entry>, k: nat)
    requires Orderly(start, log) && k < |log| && log[k].Call?
    ensures Digested(start, log).channel.owed || RenewedSince(log, k)
    ensures Digested(start, log).channel.renewing ==> ReadSince(log, k)
  {
    hide Allowed, Step, ReadSince, RenewedSince;
    var before, e := log[..|log| - 1], log[|log| - 1];
    CallStep(Digested(start, before), e);
    if k < |before| {
      assert before[k] == log[k] && log == before + [e];
      CallKept(start, before, k);
      SinceGrows(before, e, k);
    }
  }

  lemma WaitDue(d: Digest, e: Entry)
    requires Allowed(d, e) && e.Waiting? && Step(d, e).channel.owed
    ensures e.refreshDue
  {
  }

  /** Nothing that calls for the channel's state is lost, an event or the
      connection itself: wherever the stream waits, the state was read after
      it and written, or a refresh is due and the wait has a deadline. */
  lemma NoTriggerIsLost(start: int, log: seq<Entry>, k: nat)
    requires Orderly(start, log) && k < |log| && log[k].Call? && log[|log| - 1].Waiting?
    ensures log[|log| - 1].refreshDue || RenewedSince(log, k)
  {
    hide Allowed, Step, RenewedSince;
    CallKept(start, log, k);
    if !RenewedSince(log, k) {
      WaitDue(Digested(start, log[..|log| - 1]), log[|log| - 1]);
    }
  }

  /** What has called for it is what the log says did. */
  lemma {:induction false} CallsInLog(start: int, log: seq<Entry>, caller: Option<int>)
    requires Orderly(start, log)
    ensures caller in Digested(start, log).channel.calls <==> Call(caller) in log
  {
    hide Allowed, Step;
    if log != [] {
      var before, e := log[..|log| - 1], log[|log| - 1];
      CallsInLog(start, before, caller);
      CallStep(Digested(start, before), e);
      assert log == before + [e];
    }
  }

  /** Everything before a cut of an orderly log is orderly. */
  lemma {:induction false} PrefixOrderly(start: int, log: seq<Entry>, n: nat)
    requires Orderly(start, log) && n <= |log|
    ensures Orderly(start, log[..n])
  {
    if n < |log| {
      PrefixOrderly(start, log[..|log| - 1], n);
      assert log[..|log| - 1][..n] == log[..n];
    } else {
      assert log[..n] == log;
    }
  }

  /** An orderly log read one entry at a time. */
  lemma PrefixStep(start: int, log: seq<Entry>, k: nat)
    requires Orderly(start, log) && 0 < k <= |log|
    ensures Digested(start, log[..k]) == Step(Digested(start, log[..k - 1]), log[k - 1])
    ensures Allowed(Digested(start, log[..k - 1]), log[k - 1])
  {
    PrefixOrderly(start, log, k);
    assert log[..k][..k - 1] == log[..k - 1];
  }
}
