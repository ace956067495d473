/** Presence (internal/presence/presence.go): who is online in an
    organisation, as counts of accepted streams with a grace period, and a
    change list from which a reader who knows an earlier generation catches
    up. Timers fire at any moment, also when they were stopped too late. */
module Presence {
  import opened Common

  const MAX_CHANGES := 100

  datatype Kind = Grace | Discard

  /** A member's record. Records are never reused: a member who was forgotten
      gets a new one. */
  datatype Record = Record(member: nat, streams: int, timer: Option<nat>, online: bool, generation: nat)

  datatype Timer = Timer(record: nat, kind: Kind, fired: bool)

  datatype Opened = Opened(record: nat, closed: bool)

  datatype Change = Change(member: nat, online: bool)

  /** `changes` is the change list; `log` every change there ever was, the one
      of generation g at g - 1. */
  datatype State = State(
    generation: nat, boundary: nat, changes: seq<nat>, members: map<nat, nat>,
    records: map<nat, Record>, timers: map<nat, Timer>, opens: map<nat, Opened>, log: seq<Change>)

  datatype Action =
    | Open(member: nat, stream: nat, record: nat)
    | Close(stream: nat, timer: nat)
    | Fire(timer: nat, next: nat)

  function Init(): State {
    State(0, 0, [], map[], map[], map[], map[], [])
  }

  // ----- steps -----

  /** change: the member's state changes visibly, and moves to the end of the list. */
  function Changed(s: State, r: nat, online: bool): State
    requires r in s.records
  {
    var g := s.generation + 1;
    s.(generation := g, changes := Without(s.changes, r) + [r],
       records := s.records[r := s.records[r].(online := online, generation := g)],
       log := s.log + [Change(s.records[r].member, online)])
  }

  function WithMember(s: State, member: nat, r: nat): State {
    if member in s.members then s
    else s.(records := s.records[r := Record(member, 0, None, false, 0)], members := s.members[member := r])
  }

  function AfterOpen(s: State, member: nat, stream: nat, fresh_: nat): State
    requires member in s.members ==> s.members[member] in s.records
  {
    var known := WithMember(s, member, fresh_);
    var r := known.members[member];
    var shown := if known.records[r].online then known else Changed(known, r, true);
    shown.(records := shown.records[r := shown.records[r].(timer := None, streams := shown.records[r].streams + 1)],
           opens := s.opens[stream := Opened(r, false)])
  }

  function AfterClose(s: State, stream: nat, t: nat): State
    requires stream in s.opens && s.opens[stream].record in s.records
  {
    if s.opens[stream].closed then s
    else
      var r := s.opens[stream].record;
      var record := s.records[r].(streams := s.records[r].streams - 1);
      var closed := s.(opens := s.opens[stream := Opened(r, true)]);
      if record.streams != 0 then closed.(records := s.records[r := record])
      else closed.(records := s.records[r := record.(timer := Some(t))], timers := s.timers[t := Timer(r, Grace, false)])
  }

  function Forgotten(s: State, r: nat): State
    requires r in s.records
  {
    s.(boundary := Max(s.boundary, s.records[r].generation), changes := Without(s.changes, r),
       members := s.members - {s.records[r].member})
  }

  /** A callback does something only while its timer is the member's current one. */
  function AfterFire(s: State, t: nat, next: nat): State
    requires t in s.timers && s.timers[t].record in s.records
  {
    var timer := s.timers[t];
    var fired := s.(timers := s.timers[t := timer.(fired := true)]);
    var r := timer.record;
    if s.records[r].timer != Some(t) then fired
    else if timer.kind.Discard? then Forgotten(fired, r)
    else
      var offline := Changed(fired, r, false);
      offline.(records := offline.records[r := offline.records[r].(timer := Some(next))],
               timers := offline.timers[next := Timer(r, Discard, false)])
  }

  predicate Enabled(s: State, a: Action) {
    match a
    case Open(member, stream, r) =>
      stream !in s.opens && r !in s.records && (member in s.members ==> s.members[member] in s.records)
    case Close(stream, t) => stream in s.opens && s.opens[stream].record in s.records && t !in s.timers
    case Fire(t, next) => t in s.timers && !s.timers[t].fired && s.timers[t].record in s.records && next !in s.timers
  }

  function Next(s: State, a: Action): State
    requires Enabled(s, a)
  {
    match a
    case Open(member, stream, r) => AfterOpen(s, member, stream, r)
    case Close(stream, t) => AfterClose(s, stream, t)
    case Fire(t, next) => AfterFire(s, t, next)
  }

  // ----- reading -----

  predicate Online(s: State, member: nat) {
    member in s.members && s.members[member] in s.records && s.records[s.members[member]].online
  }

  datatype Token = Token(process: nat, generation: nat)

  datatype Changes = Changes(entries: seq<Change>, boundary: nat, token: Token, reset: bool)

  /** The listed records changed after `start`, oldest first. */
  function Since(changes: seq<nat>, records: map<nat, Record>, start: nat): seq<Change> {
    if changes == [] then []
    else
      var before, r := Since(changes[..|changes| - 1], records, start), changes[|changes| - 1];
      if r in records && records[r].generation > start then before + [Change(records[r].member, records[r].online)] else before
  }

  function After(s: State, process: nat, start: Token): Changes {
    var token, since := Token(process, s.generation), Since(s.changes, s.records, start.generation);
    if start.process != process || start.generation < s.boundary || |since| > MAX_CHANGES
    then Changes([], s.boundary, token, true) else Changes(since, s.boundary, token, false)
  }

  // ----- history -----

  /** The generation of a member's last change, or 0. */
  function LastChange(log: seq<Change>, member: nat): (g: nat)
    ensures g <= |log| && (g > 0 ==> log[g - 1].member == member)
  {
    if log == [] then 0
    else if log[|log| - 1].member == member then |log| else LastChange(log[..|log| - 1], member)
  }

  /** Whether the member was shown online at generation g. */
  predicate Flag(log: seq<Change>, g: nat, member: nat)
    requires g <= |log|
  {
    var last := LastChange(log[..g], member);
    last > 0 && log[last - 1].online
  }

  /** Overwriting a flag with a list of changes. */
  predicate Overwritten(flag: bool, entries: seq<Change>, member: nat) {
    if entries == [] then flag
    else if entries[|entries| - 1].member == member then entries[|entries| - 1].online
    else Overwritten(flag, entries[..|entries| - 1], member)
  }

  // ----- what every step keeps -----

  /** The list is strictly ordered by generation and holds each member once. */
  ghost predicate OrderInv(changes: seq<nat>, records: map<nat, Record>, generation: nat) {
    && (forall i :: 0 <= i < |changes| ==> changes[i] in records && 0 < records[changes[i]].generation <= generation)
    && (forall i, j :: 0 <= i < j < |changes| ==> records[changes[i]].generation < records[changes[j]].generation)
  }

  /** The members are exactly the listed records. */
  ghost predicate MembersInv(members: map<nat, nat>, records: map<nat, Record>, changes: seq<nat>) {
    && (forall k :: k in members ==> members[k] in records && records[members[k]].member == k && members[k] in changes)
    && (forall r :: r in changes ==> r in records && records[r].member in members && members[records[r].member] == r)
  }

  /** What is remembered of a member is its last change; who is forgotten was
      offline, at or below the boundary. */
  ghost predicate Remembered(member: nat, log: seq<Change>, boundary: nat, members: map<nat, nat>, records: map<nat, Record>) {
    var last := LastChange(log, member);
    if member in members then
      members[member] in records && last > 0 && records[members[member]].generation == last
      && records[members[member]].online == log[last - 1].online
    else last > 0 ==> last <= boundary && !log[last - 1].online
  }

  ghost predicate LogInv(log: seq<Change>, generation: nat, boundary: nat, members: map<nat, nat>, records: map<nat, Record>) {
    && |log| == generation && boundary <= generation
    && forall k :: Remembered(k, log, boundary, members, records)
  }

  ghost function OpenOn(opens: map<nat, Opened>, r: nat): set<nat> {
    set o | o in opens && !opens[o].closed && opens[o].record == r
  }

  predicate Current(record: Record, timers: map<nat, Timer>) {
    record.timer.Some? && record.timer.value in timers && !timers[record.timer.value].fired
  }

  /** A member is known while it has streams or a timer that counts; with
      streams it is online, with a grace timer still online, then offline. */
  ghost predicate RecordOk(r: nat, record: Record, timers: map<nat, Timer>, members: map<nat, nat>) {
    && record.streams >= 0
    && (record.member in members && members[record.member] == r <==> record.streams > 0 || Current(record, timers))
    && (record.streams > 0 ==> record.timer.None? && record.online)
    && (record.timer.Some? ==> record.timer.value in timers && timers[record.timer.value].record == r)
    && (Current(record, timers) ==> (record.online <==> timers[record.timer.value].kind.Grace?))
  }

  ghost predicate RecordsInv(records: map<nat, Record>, timers: map<nat, Timer>, members: map<nat, nat>) {
    forall r :: r in records ==> RecordOk(r, records[r], timers, members)
  }

  ghost predicate RefsInv(records: map<nat, Record>, timers: map<nat, Timer>, opens: map<nat, Opened>) {
    && (forall t :: t in timers ==> timers[t].record in records)
    && (forall o :: o in opens ==> opens[o].record in records)
    && (forall r :: r in records ==> records[r].streams == |OpenOn(opens, r)|)
  }

  ghost predicate Inv(s: State) {
    && OrderInv(s.changes, s.records, s.generation)
    && MembersInv(s.members, s.records, s.changes)
    && LogInv(s.log, s.generation, s.boundary, s.members, s.records)
    && RecordsInv(s.records, s.timers, s.members)
    && RefsInv(s.records, s.timers, s.opens)
  }

  // ----- catching up -----

  /** The log's last change of a member, seen from an earlier generation. */
  lemma {:induction false} LastChangeSince(log: seq<Change>, g: nat, member: nat)
    requires g <= |log|
    ensures if LastChange(log, member) <= g then LastChange(log[..g], member) == LastChange(log, member)
            else LastChange(log, member) > g
  {
    if g == |log| {
      assert log[..g] == log;
    } else if log[|log| - 1].member != member {
      LastChangeSince(log[..|log| - 1], g, member);
      assert log[..|log| - 1][..g] == log[..g];
    }
  }

  /** Among changes since `start`, a member's entry is there exactly if its
      listed record changed since; it is the record's state. */
  lemma {:induction false} SinceOverwrites(changes: seq<nat>, records: map<nat, Record>, start: nat, member: nat, flag: bool)
    requires forall r :: r in changes ==> r in records
    requires forall i, j :: 0 <= i < j < |changes| ==> records[changes[i]].member != records[changes[j]].member
    ensures var entries := Since(changes, records, start);
            && (forall r :: r in changes && records[r].member == member ==>
                  Overwritten(flag, entries, member) == if records[r].generation > start then records[r].online else flag)
            && ((forall r :: r in changes ==> records[r].member != member) ==> Overwritten(flag, entries, member) == flag)
  {
    if changes != [] {
      var before, last := changes[..|changes| - 1], changes[|changes| - 1];
      assert changes == before + [last];
      SinceOverwrites(before, records, start, member, flag);
      assert last in changes;
      var entries := Since(before, records, start);
      var entry := Change(records[last].member, records[last].online);
      assert (entries + [entry])[..|entries|] == entries;
      if records[last].member == member {
        assert forall r :: r in before ==> records[r].member != member;
      }
    }
  }

  lemma OneEach(members: map<nat, nat>, records: map<nat, Record>, changes: seq<nat>, generation: nat)
    requires OrderInv(changes, records, generation) && MembersInv(members, records, changes)
    ensures forall i, j :: 0 <= i < j < |changes| ==> records[changes[i]].member != records[changes[j]].member
  {
    forall i, j | 0 <= i < j < |changes| ensures records[changes[i]].member != records[changes[j]].member {
      assert changes[i] in changes && changes[j] in changes;
    }
  }

  /** Delta replay: if a token that was issued is not answered by a reset, its
      flags overwritten with the answer are the current flags, of everyone. */
  lemma DeltaReplay(s: State, process: nat, start: Token, member: nat)
    requires Inv(s) && start.generation <= s.generation && !After(s, process, start).reset
    ensures Overwritten(Flag(s.log, start.generation, member), After(s, process, start).entries, member)
         == Online(s, member) == Flag(s.log, s.generation, member)
  {
    hide OrderInv, MembersInv, RecordsInv, RefsInv, Since, LastChange;
    assert Remembered(member, s.log, s.boundary, s.members, s.records);
    CaughtUp(s, start.generation, member);
    assert s.log[..s.generation] == s.log;
    LastChangeSince(s.log, start.generation, member);
  }

  lemma CaughtUp(s: State, start: nat, member: nat)
    requires OrderInv(s.changes, s.records, s.generation) && MembersInv(s.members, s.records, s.changes)
    ensures forall flag ::
              Overwritten(flag, Since(s.changes, s.records, start), member)
                == if member in s.members && s.members[member] in s.records && s.records[s.members[member]].generation > start
                   then s.records[s.members[member]].online else flag
  {
    OneEach(s.members, s.records, s.changes, s.generation);
    forall flag ensures Overwritten(flag, Since(s.changes, s.records, start), member)
                == if member in s.members && s.members[member] in s.records && s.records[s.members[member]].generation > start
                   then s.records[s.members[member]].online else flag
    {
      SinceOverwrites(s.changes, s.records, start, member, flag);
    }
  }

  // ----- steps keep it: the list and the members -----

  lemma ConsOrdered(x: nat, rest: seq<nat>, records: map<nat, Record>, generation: nat)
    requires OrderInv(rest, records, generation) && x in records && 0 < records[x].generation <= generation
    requires forall y :: y in rest ==> records[x].generation < records[y].generation
    ensures OrderInv([x] + rest, records, generation)
  {
    var all := [x] + rest;
    forall i, j | 0 <= i < j < |all| ensures records[all[i]].generation < records[all[j]].generation {
      assert all[j] == rest[j - 1] && rest[j - 1] in rest;
      if i > 0 {
        assert all[i] == rest[i - 1];
      }
    }
  }

  lemma {:induction false} WithoutOrdered(changes: seq<nat>, records: map<nat, Record>, generation: nat, r: nat)
    requires OrderInv(changes, records, generation)
    ensures OrderInv(Without(changes, r), records, generation)
  {
    if changes != [] {
      var rest := changes[1..];
      assert OrderInv(rest, records, generation);
      WithoutOrdered(rest, records, generation, r);
      WithoutElements(rest, r);
      if changes[0] != r {
        ConsOrdered(changes[0], Without(rest, r), records, generation);
      }
    }
  }

  lemma ChangedOrder(changes: seq<nat>, records: map<nat, Record>, generation: nat, r: nat, record: Record)
    requires OrderInv(changes, records, generation) && record.generation == generation + 1
    ensures OrderInv(Without(changes, r) + [r], records[r := record], generation + 1)
  {
    WithoutOrdered(changes, records, generation, r);
    WithoutElements(changes, r);
    var kept := Without(changes, r);
    forall i | 0 <= i < |kept| ensures kept[i] != r {
      assert kept[i] in kept;
    }
  }

  /** The records changed in ways the list does not show. */
  lemma SameOrder(changes: seq<nat>, records: map<nat, Record>, generation: nat, records': map<nat, Record>)
    requires OrderInv(changes, records, generation)
    requires forall r :: r in records ==> r in records' && records'[r].generation == records[r].generation
    ensures OrderInv(changes, records', generation)
  {
  }

  lemma SameMembers(members: map<nat, nat>, records: map<nat, Record>, changes: seq<nat>, records': map<nat, Record>)
    requires MembersInv(members, records, changes)
    requires forall r :: r in records ==> r in records' && records'[r].member == records[r].member
    ensures MembersInv(members, records', changes)
  {
  }

  /** A member, known or new, is listed last. */
  lemma ChangedMembers(members: map<nat, nat>, records: map<nat, Record>, changes: seq<nat>, r: nat, record: Record)
    requires MembersInv(members, records, changes)
    requires record.member in members ==> members[record.member] == r
    requires r in records ==> records[r].member == record.member && record.member in members
    ensures MembersInv(members[record.member := r], records[r := record], Without(changes, r) + [r])
  {
    WithoutElements(changes, r);
    var listed := Without(changes, r) + [r];
    assert forall x :: x in listed <==> x in Without(changes, r) || x == r;
  }

  lemma ForgottenMembers(members: map<nat, nat>, records: map<nat, Record>, changes: seq<nat>, r: nat)
    requires MembersInv(members, records, changes) && r in records
    requires records[r].member in members && members[records[r].member] == r
    ensures MembersInv(members - {records[r].member}, records, Without(changes, r))
  {
    WithoutElements(changes, r);
  }

  // ----- the log -----

  lemma LastChangeAppend(log: seq<Change>, c: Change, member: nat)
    ensures LastChange(log + [c], member) == if c.member == member then |log| + 1 else LastChange(log, member)
  {
    assert (log + [c])[..|log|] == log;
  }

  lemma ChangedLog(log: seq<Change>, generation: nat, boundary: nat, members: map<nat, nat>, records: map<nat, Record>, r: nat, record: Record)
    requires LogInv(log, generation, boundary, members, records) && record.generation == generation + 1
    requires forall k :: k in members && members[k] == r ==> k == record.member
    ensures LogInv(log + [Change(record.member, record.online)], generation + 1, boundary,
                   members[record.member := r], records[r := record])
  {
    hide LastChange;
    var c := Change(record.member, record.online);
    var log', members', records' := log + [c], members[record.member := r], records[r := record];
    forall k ensures Remembered(k, log', boundary, members', records') {
      assert Remembered(k, log, boundary, members, records);
      LastChangeAppend(log, c, k);
    }
  }

  lemma SameLog(log: seq<Change>, generation: nat, boundary: nat, members: map<nat, nat>, records: map<nat, Record>, records': map<nat, Record>)
    requires LogInv(log, generation, boundary, members, records)
    requires forall r :: r in records ==> r in records' && records'[r].generation == records[r].generation
                                          && records'[r].online == records[r].online
    ensures LogInv(log, generation, boundary, members, records')
  {
    hide LastChange;
    forall k ensures Remembered(k, log, boundary, members, records') {
      assert Remembered(k, log, boundary, members, records);
    }
  }

  lemma ForgottenLog(log: seq<Change>, generation: nat, boundary: nat, members: map<nat, nat>, records: map<nat, Record>, r: nat)
    requires LogInv(log, generation, boundary, members, records) && r in records && !records[r].online
    requires records[r].member in members && members[records[r].member] == r && records[r].generation <= generation
    ensures LogInv(log, generation, Max(boundary, records[r].generation), members - {records[r].member}, records)
  {
    hide LastChange;
    var boundary', members' := Max(boundary, records[r].generation), members - {records[r].member};
    forall k ensures Remembered(k, log, boundary', members', records) {
      assert Remembered(k, log, boundary, members, records);
    }
  }

  // ----- records, timers and streams -----

  lemma OpenedCount(opens: map<nat, Opened>, o: nat, r: nat, x: nat)
    requires o !in opens
    ensures |OpenOn(opens[o := Opened(r, false)], x)| == |OpenOn(opens, x)| + if x == r then 1 else 0
  {
    assert OpenOn(opens[o := Opened(r, false)], x) == OpenOn(opens, x) + if x == r then {o} else {};
  }

  lemma ClosedCount(opens: map<nat, Opened>, o: nat, x: nat)
    requires o in opens && !opens[o].closed
    ensures |OpenOn(opens[o := Opened(opens[o].record, true)], x)|
         == |OpenOn(opens, x)| - if x == opens[o].record then 1 else 0
  {
    assert OpenOn(opens[o := Opened(opens[o].record, true)], x)
        == OpenOn(opens, x) - if x == opens[o].record then {o} else {};
    assert o in OpenOn(opens, opens[o].record);
  }

  lemma OpenedRefs(records: map<nat, Record>, timers: map<nat, Timer>, opens: map<nat, Opened>, o: nat, r: nat, record: Record)
    requires RefsInv(records, timers, opens) && o !in opens
    requires record.streams == (if r in records then records[r].streams else 0) + 1
    ensures RefsInv(records[r := record], timers, opens[o := Opened(r, false)])
  {
    var records', opens' := records[r := record], opens[o := Opened(r, false)];
    if r !in records {
      assert OpenOn(opens, r) == {};
    }
    hide OpenOn;
    forall x | x in records' ensures records'[x].streams == |OpenOn(opens', x)| {
      OpenedCount(opens, o, r, x);
    }
  }

  lemma ClosedRefs(records: map<nat, Record>, timers: map<nat, Timer>, opens: map<nat, Opened>, o: nat, record: Record)
    requires RefsInv(records, timers, opens) && o in opens && !opens[o].closed
    requires opens[o].record in records && record.streams == records[opens[o].record].streams - 1
    ensures RefsInv(records[opens[o].record := record], timers, opens[o := Opened(opens[o].record, true)])
    ensures record.streams >= 0
  {
    var r := opens[o].record;
    var records', opens' := records[r := record], opens[o := Opened(r, true)];
    hide OpenOn;
    forall x | x in records' ensures records'[x].streams == |OpenOn(opens', x)| {
      ClosedCount(opens, o, x);
    }
    assert records'[r].streams == |OpenOn(opens', r)|;
  }

  lemma TimerRefs(records: map<nat, Record>, timers: map<nat, Timer>, opens: map<nat, Opened>, t: nat, timer: Timer)
    requires RefsInv(records, timers, opens) && timer.record in records
    ensures RefsInv(records, timers[t := timer], opens)
  {
  }

  lemma RecordRefs(records: map<nat, Record>, timers: map<nat, Timer>, opens: map<nat, Opened>, r: nat, record: Record)
    requires RefsInv(records, timers, opens) && r in records && record.streams == records[r].streams
    ensures RefsInv(records[r := record], timers, opens)
  {
    hide OpenOn;
  }

  /** One record moves on, with the membership of its own key at most. */
  lemma RecordMoved(records: map<nat, Record>, timers: map<nat, Timer>, members: map<nat, nat>, r: nat, record: Record,
                    members': map<nat, nat>)
    requires RecordsInv(records, timers, members) && RecordOk(r, record, timers, members')
    requires forall k :: k != record.member ==> (k in members <==> k in members') && (k in members ==> members'[k] == members[k])
    requires record.member in members ==> members[record.member] == r
    requires record.member in members' ==> members'[record.member] == r
    ensures RecordsInv(records[r := record], timers, members')
  {
    forall x | x in records && x != r ensures RecordOk(x, records[x], timers, members') {
      assert RecordOk(x, records[x], timers, members);
    }
  }

  /** A timer is made, or fires: only its own record can notice. */
  lemma TimerMoved(records: map<nat, Record>, timers: map<nat, Timer>, members: map<nat, nat>, t: nat, timer: Timer)
    requires RecordsInv(records, timers, members)
    requires t in timers ==> timers[t].record == timer.record
    requires timer.record in records && records[timer.record].timer != Some(t)
    ensures RecordsInv(records, timers[t := timer], members)
  {
    forall x | x in records ensures RecordOk(x, records[x], timers[t := timer], members) {
      assert RecordOk(x, records[x], timers, members);
    }
  }

  // ----- every step -----

  function Member(s: State, member: nat, fresh_: nat): nat {
    if member in s.members then s.members[member] else fresh_
  }

  /** The member's record once a stream more is accepted. */
  function Accepted(s: State, member: nat): Record
    requires member in s.members ==> s.members[member] in s.records
  {
    var record := if member in s.members then s.records[s.members[member]] else Record(member, 0, None, false, 0);
    record.(timer := None, streams := record.streams + 1, online := true,
            generation := if record.online then record.generation else s.generation + 1)
  }

  lemma OpenShape(s: State, member: nat, stream: nat, f: nat)
    requires Enabled(s, Open(member, stream, f))
    requires member in s.members ==> s.records[s.members[member]].member == member
    ensures var t, r, record := AfterOpen(s, member, stream, f), Member(s, member, f), Accepted(s, member);
            && t.records == s.records[r := record] && t.members == s.members[member := r]
            && t.opens == s.opens[stream := Opened(r, false)] && t.timers == s.timers && t.boundary == s.boundary
            && if member in s.members && s.records[r].online then
                 t.changes == s.changes && t.generation == s.generation && t.log == s.log
               else
                 t.changes == Without(s.changes, r) + [r] && t.generation == s.generation + 1
                 && t.log == s.log + [Change(member, true)]
  {
    var r := Member(s, member, f);
    assert member in s.members ==> s.members[member := r] == s.members;
  }

  lemma OpenKept(s: State, member: nat, stream: nat, f: nat)
    requires Inv(s) && Enabled(s, Open(member, stream, f))
    ensures Inv(AfterOpen(s, member, stream, f))
  {
    hide OrderInv, MembersInv, LogInv, RecordsInv, RefsInv, AfterOpen, RecordOk;
    var r, record := Member(s, member, f), Accepted(s, member);
    MemberFacts(s, member, r, f);
    OpenShape(s, member, stream, f);
    OpenedRefs(s.records, s.timers, s.opens, stream, r, record);
    RecordMoved(s.records, s.timers, s.members, r, record, s.members[member := r]);
    if member in s.members && s.records[r].online {
      SameOrder(s.changes, s.records, s.generation, s.records[r := record]);
      SameMembers(s.members, s.records, s.changes, s.records[r := record]);
      SameLog(s.log, s.generation, s.boundary, s.members, s.records, s.records[r := record]);
      assert s.members[member := r] == s.members;
    } else {
      ChangedOrder(s.changes, s.records, s.generation, r, record);
      ChangedMembers(s.members, s.records, s.changes, r, record);
      ChangedLog(s.log, s.generation, s.boundary, s.members, s.records, r, record);
    }
  }

  lemma MemberFacts(s: State, member: nat, r: nat, f: nat)
    requires Inv(s) && f !in s.records && r == Member(s, member, f)
    ensures member in s.members ==> r in s.records && s.records[r].member == member
    ensures RecordOk(r, Accepted(s, member), s.timers, s.members[member := r])
    ensures forall k :: k in s.members && s.members[k] == r ==> k == member
  {
    hide OrderInv, LogInv, RefsInv;
    if member in s.members {
      assert RecordOk(r, s.records[r], s.timers, s.members);
    }
  }

  lemma CloseFacts(s: State, stream: nat, t: nat)
    requires RecordsInv(s.records, s.timers, s.members) && RefsInv(s.records, s.timers, s.opens)
    requires Enabled(s, Close(stream, t)) && !s.opens[stream].closed
    ensures var r := s.opens[stream].record;
            var record := s.records[r].(streams := s.records[r].streams - 1);
            && s.records[r].timer.None? && s.records[r].streams > 0
            && s.records[r].member in s.members && s.members[s.records[r].member] == r
            && (record.streams != 0 ==> RecordOk(r, record, s.timers, s.members))
            && RecordOk(r, record.(streams := 0, timer := Some(t)), s.timers[t := Timer(r, Grace, false)], s.members)
  {
    var r := s.opens[stream].record;
    assert RecordOk(r, s.records[r], s.timers, s.members);
    ClosedRefs(s.records, s.timers, s.opens, stream, s.records[r].(streams := s.records[r].streams - 1));
  }

  lemma CloseKept(s: State, stream: nat, t: nat)
    requires Inv(s) && Enabled(s, Close(stream, t))
    ensures Inv(AfterClose(s, stream, t))
  {
    hide OrderInv, MembersInv, LogInv, RecordsInv, RefsInv, RecordOk;
    if !s.opens[stream].closed {
      CloseFacts(s, stream, t);
      var r := s.opens[stream].record;
      var record := s.records[r].(streams := s.records[r].streams - 1);
      var last := if record.streams == 0 then record.(timer := Some(t)) else record;
      var timers := if record.streams == 0 then s.timers[t := Timer(r, Grace, false)] else s.timers;
      ClosedRefs(s.records, s.timers, s.opens, stream, last);
      SameOrder(s.changes, s.records, s.generation, s.records[r := last]);
      SameMembers(s.members, s.records, s.changes, s.records[r := last]);
      SameLog(s.log, s.generation, s.boundary, s.members, s.records, s.records[r := last]);
      if record.streams == 0 {
        TimerRefs(s.records[r := last], s.timers, s.opens[stream := Opened(r, true)], t, Timer(r, Grace, false));
        TimerMoved(s.records, s.timers, s.members, t, Timer(r, Grace, false));
      }
      RecordMoved(s.records, timers, s.members, r, last, s.members);
    }
  }

  /** A stale callback changes nothing but that it has fired. */
  lemma StaleKept(s: State, t: nat)
    requires Inv(s) && t in s.timers && s.timers[t].record in s.records && s.records[s.timers[t].record].timer != Some(t)
    ensures Inv(s.(timers := s.timers[t := s.timers[t].(fired := true)]))
  {
    hide OrderInv, MembersInv, LogInv, RecordsInv, RefsInv;
    TimerRefs(s.records, s.timers, s.opens, t, s.timers[t].(fired := true));
    TimerMoved(s.records, s.timers, s.members, t, s.timers[t].(fired := true));
  }

  lemma GraceShape(s: State, t: nat, next: nat)
    requires Enabled(s, Fire(t, next)) && s.records[s.timers[t].record].timer == Some(t) && s.timers[t].kind.Grace?
    ensures var u, r := AfterFire(s, t, next), s.timers[t].record;
            var record := s.records[r].(timer := Some(next), online := false, generation := s.generation + 1);
            && u.records == s.records[r := record] && u.members == s.members && u.opens == s.opens && u.boundary == s.boundary
            && u.timers == s.timers[t := s.timers[t].(fired := true)][next := Timer(r, Discard, false)]
            && u.changes == Without(s.changes, r) + [r] && u.generation == s.generation + 1
            && u.log == s.log + [Change(record.member, false)]
  {
  }

  lemma GraceFacts(members: map<nat, nat>, records: map<nat, Record>, changes: seq<nat>, timers: map<nat, Timer>,
                   t: nat, next: nat, record: Record)
    requires RecordsInv(records, timers, members) && MembersInv(members, records, changes)
    requires t in timers && !timers[t].fired && next !in timers && timers[t].record in records
    requires var old_ := records[timers[t].record];
             old_.timer == Some(t) && record == old_.(timer := Some(next), online := false, generation := record.generation)
    ensures var r := timers[t].record;
            && record.member in members && members[record.member] == r
            && (forall k :: k in members && members[k] == r ==> k == record.member)
            && RecordOk(r, record, timers[t := timers[t].(fired := true)][next := Timer(r, Discard, false)], members)
  {
    assert RecordOk(timers[t].record, records[timers[t].record], timers, members);
  }

  lemma GraceKept(s: State, t: nat, next: nat)
    requires Inv(s) && Enabled(s, Fire(t, next)) && s.records[s.timers[t].record].timer == Some(t) && s.timers[t].kind.Grace?
    ensures Inv(AfterFire(s, t, next))
  {
    hide OrderInv, MembersInv, LogInv, RecordsInv, RefsInv, AfterFire, RecordOk;
    var r := s.timers[t].record;
    var record := s.records[r].(timer := Some(next), online := false, generation := s.generation + 1);
    var fired := s.timers[t := s.timers[t].(fired := true)];
    var timers := fired[next := Timer(r, Discard, false)];
    GraceFacts(s.members, s.records, s.changes, s.timers, t, next, record);
    GraceShape(s, t, next);
    assert s.members[record.member := r] == s.members;
    ChangedOrder(s.changes, s.records, s.generation, r, record);
    ChangedMembers(s.members, s.records, s.changes, r, record);
    ChangedLog(s.log, s.generation, s.boundary, s.members, s.records, r, record);
    TimerRefs(s.records, s.timers, s.opens, t, s.timers[t].(fired := true));
    TimerRefs(s.records, fired, s.opens, next, Timer(r, Discard, false));
    RecordRefs(s.records, timers, s.opens, r, record);
    ReplacedTimer(s.records, s.timers, s.members, t, next, r, record);
  }

  /** The record of a timer that fires is given the next timer at once. */
  lemma ReplacedTimer(records: map<nat, Record>, timers: map<nat, Timer>, members: map<nat, nat>, t: nat, next: nat, r: nat, record: Record)
    requires RecordsInv(records, timers, members) && t in timers && next !in timers && timers[t].record == r && r in records
    requires var timers' := timers[t := timers[t].(fired := true)][next := Timer(r, Discard, false)];
             RecordOk(r, record, timers', members)
    ensures var timers' := timers[t := timers[t].(fired := true)][next := Timer(r, Discard, false)];
            RecordsInv(records[r := record], timers', members)
  {
    var timers' := timers[t := timers[t].(fired := true)][next := Timer(r, Discard, false)];
    forall x | x in records && x != r ensures RecordOk(x, records[x], timers', members) {
      assert RecordOk(x, records[x], timers, members);
    }
  }

  lemma DiscardKept(s: State, t: nat)
    requires Inv(s) && t in s.timers && !s.timers[t].fired && s.timers[t].record in s.records
    requires s.records[s.timers[t].record].timer == Some(t) && s.timers[t].kind.Discard?
    ensures Inv(Forgotten(s.(timers := s.timers[t := s.timers[t].(fired := true)]), s.timers[t].record))
  {
    var r := s.timers[t].record;
    var k := s.records[r].member;
    assert RecordOk(r, s.records[r], s.timers, s.members);
    assert s.records[r].generation <= s.generation by { assert s.members[k] in s.changes; }
    hide OrderInv, MembersInv, LogInv, RecordsInv, RefsInv;
    WithoutOrdered(s.changes, s.records, s.generation, r);
    ForgottenMembers(s.members, s.records, s.changes, r);
    ForgottenLog(s.log, s.generation, s.boundary, s.members, s.records, r);
    TimerRefs(s.records, s.timers, s.opens, t, s.timers[t].(fired := true));
    ForgottenRecords(s.records, s.timers, s.members, t, r);
    assert Max(s.boundary, s.records[r].generation) <= s.generation by { LogBound(s); }
  }

  lemma LogBound(s: State)
    requires LogInv(s.log, s.generation, s.boundary, s.members, s.records)
    ensures s.boundary <= s.generation
  {
    hide Remembered;
  }

  lemma ForgottenRecords(records: map<nat, Record>, timers: map<nat, Timer>, members: map<nat, nat>, t: nat, r: nat)
    requires RecordsInv(records, timers, members) && t in timers && timers[t].record == r && r in records
    requires records[r].timer == Some(t) && !timers[t].fired && records[r].member in members
    ensures RecordsInv(records, timers[t := timers[t].(fired := true)], members - {records[r].member})
  {
    var timers', members' := timers[t := timers[t].(fired := true)], members - {records[r].member};
    assert RecordOk(r, records[r], timers, members);
    forall x | x in records ensures RecordOk(x, records[x], timers', members') {
      assert RecordOk(x, records[x], timers, members);
    }
  }

  lemma InvKept(s: State, a: Action)
    requires Inv(s) && Enabled(s, a)
    ensures Inv(Next(s, a))
  {
    hide OrderInv, MembersInv, LogInv, RecordsInv, RefsInv, AfterOpen, AfterClose;
    match a
    case Open(member, stream, r) => OpenKept(s, member, stream, r);
    case Close(stream, t) => CloseKept(s, stream, t);
    case Fire(t, next) =>
      if s.records[s.timers[t].record].timer != Some(t) {
        StaleKept(s, t);
      } else if s.timers[t].kind.Grace? {
        GraceKept(s, t, next);
      } else {
        DiscardKept(s, t);
      }
  }
}
